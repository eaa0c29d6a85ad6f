/** The 400x400 three-channel image buffer both backends draw the hand skeleton into.
    OpenCV's rasterisation is foreign: `cv2.line` and `cv2.circle` are recorded as strokes,
    in call order, beside the pixels. */
module Raster {

  const Side := 400
  const Channels := 3
  const Size := Side * Side * Channels

  datatype Point = Point(x: int, y: int)

  datatype Stroke = Line(from: Point, to: Point) | Circle(center: Point)

  /** `np.ones((400, 400, 3), dtype=np.uint8) * 255`, flattened row by row. */
  function WhiteBackground(): (px: seq<int>)
    ensures |px| == Size && forall i :: 0 <= i < |px| ==> px[i] == 255
  {
    seq(Size, _ => 255)
  }

  class Canvas {
    const pixels: array<int>
    var strokes: seq<Stroke>

    ghost predicate Valid()
      reads this
    {
      pixels.Length == Size
    }

    /** A fresh buffer holding a copy of `content`. */
    constructor FromPixels(content: seq<int>)
      requires |content| == Size
      ensures Valid() && fresh(pixels) && pixels[..] == content && strokes == []
    {
      pixels := new int[|content|](i requires 0 <= i < |content| => content[i]);
      strokes := [];
    }

    /** `white[:] = v`: every channel of every pixel becomes `v`, in place. */
    method Fill(v: int)
      requires Valid()
      modifies pixels
      ensures forall i :: 0 <= i < pixels.Length ==> pixels[i] == v
    {
      var i := 0;
      while i < pixels.Length
        invariant 0 <= i <= pixels.Length
        invariant forall k :: 0 <= k < i ==> pixels[k] == v
      {
        pixels[i] := v;
        i := i + 1;
      }
    }

    /** `cv2.line(white, a, b, (0, 255, 0), 3)`. */
    method DrawLine(a: Point, b: Point)
      modifies this
      ensures strokes == old(strokes) + [Line(a, b)]
    {
      strokes := strokes + [Line(a, b)];
    }

    /** `cv2.circle(white, c, 2, (0, 0, 255), 1)`. */
    method DrawCircle(c: Point)
      modifies this
      ensures strokes == old(strokes) + [Circle(c)]
    {
      strokes := strokes + [Circle(c)];
    }
  }
}
