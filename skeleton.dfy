/** The hand skeleton both backends draw: which landmarks are joined, in which order, and
    how the drawing is centred on the 400x400 canvas. */
module Skeleton {
  import opened Raster

  /** The detector reports 21 landmarks per hand. */
  const Landmarks := 21

  /** `((400 - extent) // 2) - 15`; for a positive divisor Dafny's `/` is Python's floor
      division. The box is centred to within one pixel, then moved 15 px up or left. */
  function CentringOffset(extent: int): (o: int)
    ensures 0 <= (Side - extent) - 2 * (o + 15) <= 1
  {
    ((Side - extent) / 2) - 15
  }

  function Shift(p: Point, ox: int, oy: int): Point {
    Point(p.x + ox, p.y + oy)
  }

  /** The segment between landmarks a and b after the shift. */
  function Bone(pts: seq<Point>, ox: int, oy: int, a: nat, b: nat): Stroke
    requires a < |pts| && b < |pts|
  {
    Line(Shift(pts[a], ox, oy), Shift(pts[b], ox, oy))
  }

  /** `for t in range(lo, hi)`: segments from landmark t to t + 1. */
  function Chain(pts: seq<Point>, ox: int, oy: int, lo: nat, hi: nat): (s: seq<Stroke>)
    requires lo <= hi < |pts|
    ensures |s| == hi - lo
    decreases hi - lo
  {
    if hi == lo then [] else Chain(pts, ox, oy, lo, hi - 1) + [Bone(pts, ox, oy, hi - 1, hi)]
  }

  /** `for i in range(n)`: a circle on each of the first n landmarks. */
  function Joints(pts: seq<Point>, ox: int, oy: int, n: nat): (s: seq<Stroke>)
    requires n <= |pts|
    ensures |s| == n
  {
    if n == 0 then [] else Joints(pts, ox, oy, n - 1) + [Circle(Shift(pts[n - 1], ox, oy))]
  }

  /** The five segments across the palm and to the wrist. */
  function Palm(pts: seq<Point>, ox: int, oy: int): seq<Stroke>
    requires |pts| >= Landmarks
  {
    [Bone(pts, ox, oy, 5, 9), Bone(pts, ox, oy, 9, 13), Bone(pts, ox, oy, 13, 17),
     Bone(pts, ox, oy, 0, 5), Bone(pts, ox, oy, 0, 17)]
  }

  /** Everything drawn, in call order: four finger chains and the thumb, the palm, the joints. */
  function Strokes(pts: seq<Point>, ox: int, oy: int): seq<Stroke>
    requires |pts| >= Landmarks
  {
    Chain(pts, ox, oy, 0, 4) + Chain(pts, ox, oy, 5, 8) + Chain(pts, ox, oy, 9, 12)
    + Chain(pts, ox, oy, 13, 16) + Chain(pts, ox, oy, 17, 20) + Palm(pts, ox, oy)
    + Joints(pts, ox, oy, Landmarks)
  }

  /** The hand's bones as landmark pairs, in drawing order: the reference the drawing
      code is checked against. */
  const Bones: seq<(nat, nat)> :=
    [(0, 1), (1, 2), (2, 3), (3, 4), (5, 6), (6, 7), (7, 8), (9, 10), (10, 11), (11, 12),
     (13, 14), (14, 15), (15, 16), (17, 18), (18, 19), (19, 20),
     (5, 9), (9, 13), (13, 17), (0, 5), (0, 17)]

  lemma {:induction false} ChainAt(pts: seq<Point>, ox: int, oy: int, lo: nat, hi: nat, k: nat)
    requires lo <= hi < |pts| && k < hi - lo
    ensures Chain(pts, ox, oy, lo, hi)[k] == Bone(pts, ox, oy, lo + k, lo + k + 1)
    decreases hi - lo
  {
    if k < hi - lo - 1 {
      ChainAt(pts, ox, oy, lo, hi - 1, k);
    }
  }

  lemma {:induction false} JointsAt(pts: seq<Point>, ox: int, oy: int, n: nat, k: nat)
    requires n <= |pts| && k < n
    ensures Joints(pts, ox, oy, n)[k] == Circle(Shift(pts[k], ox, oy))
  {
    if k < n - 1 {
      JointsAt(pts, ox, oy, n - 1, k);
    }
  }

  /** 21 segments, one per bone in Bones order, then 21 circles, one per landmark. */
  lemma StrokesFollowBones(pts: seq<Point>, ox: int, oy: int)
    requires |pts| >= Landmarks
    ensures |Strokes(pts, ox, oy)| == 2 * Landmarks
    ensures forall k :: 0 <= k < |Bones| ==>
      Strokes(pts, ox, oy)[k] == Bone(pts, ox, oy, Bones[k].0, Bones[k].1)
    ensures forall k :: 0 <= k < Landmarks ==>
      Strokes(pts, ox, oy)[Landmarks + k] == Circle(Shift(pts[k], ox, oy))
  {
    var s := Strokes(pts, ox, oy);
    forall k | 0 <= k < |Bones|
      ensures s[k] == Bone(pts, ox, oy, Bones[k].0, Bones[k].1)
    {
      if k < 4 { ChainAt(pts, ox, oy, 0, 4, k); }
      else if k < 7 { ChainAt(pts, ox, oy, 5, 8, k - 4); }
      else if k < 10 { ChainAt(pts, ox, oy, 9, 12, k - 7); }
      else if k < 13 { ChainAt(pts, ox, oy, 13, 16, k - 10); }
      else if k < 16 { ChainAt(pts, ox, oy, 17, 20, k - 13); }
    }
    forall k | 0 <= k < Landmarks
      ensures s[Landmarks + k] == Circle(Shift(pts[k], ox, oy))
    {
      JointsAt(pts, ox, oy, Landmarks, k);
    }
  }

  /** Drawing reads landmarks 0..20 only: hands that agree there are drawn alike. */
  lemma {:induction false} StrokesReadFirst21(pts: seq<Point>, qts: seq<Point>, ox: int, oy: int)
    requires |pts| >= Landmarks && |qts| >= Landmarks
    requires pts[..Landmarks] == qts[..Landmarks]
    ensures Strokes(pts, ox, oy) == Strokes(qts, ox, oy)
  {
    assert forall i :: 0 <= i < Landmarks ==> pts[i] == qts[i] by {
      forall i | 0 <= i < Landmarks ensures pts[i] == qts[i] {
        assert pts[..Landmarks][i] == pts[i];
      }
    }
    ChainAgree(pts, qts, ox, oy, 0, 4);
    ChainAgree(pts, qts, ox, oy, 5, 8);
    ChainAgree(pts, qts, ox, oy, 9, 12);
    ChainAgree(pts, qts, ox, oy, 13, 16);
    ChainAgree(pts, qts, ox, oy, 17, 20);
    JointsAgree(pts, qts, ox, oy, Landmarks);
  }

  lemma {:induction false} ChainAgree(pts: seq<Point>, qts: seq<Point>, ox: int, oy: int, lo: nat, hi: nat)
    requires lo <= hi < |pts| && hi < |qts|
    requires forall i :: lo <= i <= hi ==> pts[i] == qts[i]
    ensures Chain(pts, ox, oy, lo, hi) == Chain(qts, ox, oy, lo, hi)
    decreases hi - lo
  {
    if hi > lo {
      ChainAgree(pts, qts, ox, oy, lo, hi - 1);
    }
  }

  lemma {:induction false} JointsAgree(pts: seq<Point>, qts: seq<Point>, ox: int, oy: int, n: nat)
    requires n <= |pts| && n <= |qts|
    requires forall i :: 0 <= i < n ==> pts[i] == qts[i]
    ensures Joints(pts, ox, oy, n) == Joints(qts, ox, oy, n)
  {
    if n > 0 {
      JointsAgree(pts, qts, ox, oy, n - 1);
    }
  }

  /** `for t in range(lo, hi): cv2.line(white, pts[t] + offsets, pts[t + 1] + offsets, ...)`. */
  method DrawChain(white: Canvas, pts: seq<Point>, os: int, os1: int, lo: nat, hi: nat)
    requires lo <= hi < |pts|
    modifies white
    ensures white.strokes == old(white.strokes) + Chain(pts, os, os1, lo, hi)
  {
    var t := lo;
    while t < hi
      invariant lo <= t <= hi
      invariant white.strokes == old(white.strokes) + Chain(pts, os, os1, lo, t)
    {
      white.DrawLine(Shift(pts[t], os, os1), Shift(pts[t + 1], os, os1));
      t := t + 1;
    }
  }

  /** `for i in range(21): cv2.circle(white, pts[i] + offsets, ...)`. */
  method DrawJoints(white: Canvas, pts: seq<Point>, os: int, os1: int)
    requires |pts| >= Landmarks
    modifies white
    ensures white.strokes == old(white.strokes) + Joints(pts, os, os1, Landmarks)
  {
    var i := 0;
    while i < Landmarks
      invariant 0 <= i <= Landmarks
      invariant white.strokes == old(white.strokes) + Joints(pts, os, os1, i)
    {
      white.DrawCircle(Shift(pts[i], os, os1));
      i := i + 1;
    }
  }

  /** The drawing sequence both backends share: the five chains, the palm, the joints,
      on a canvas with nothing drawn yet. */
  method DrawSkeleton(white: Canvas, pts: seq<Point>, os: int, os1: int)
    requires |pts| >= Landmarks && white.strokes == []
    modifies white
    ensures white.strokes == Strokes(pts, os, os1)
  {
    DrawChain(white, pts, os, os1, 0, 4);
    DrawChain(white, pts, os, os1, 5, 8);
    DrawChain(white, pts, os, os1, 9, 12);
    DrawChain(white, pts, os, os1, 13, 16);
    DrawChain(white, pts, os, os1, 17, 20);
    white.DrawLine(Shift(pts[5], os, os1), Shift(pts[9], os, os1));
    white.DrawLine(Shift(pts[9], os, os1), Shift(pts[13], os, os1));
    white.DrawLine(Shift(pts[13], os, os1), Shift(pts[17], os, os1));
    white.DrawLine(Shift(pts[0], os, os1), Shift(pts[5], os, os1));
    white.DrawLine(Shift(pts[0], os, os1), Shift(pts[17], os, os1));
    DrawJoints(white, pts, os, os1);
  }
}
