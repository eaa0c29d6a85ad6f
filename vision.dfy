/** What the backends get from their foreign parts: the decoded frame's shape, the hand
    detector's bounding box and landmarks, and numpy's slicing rule for the crop. */
module Vision {
  import opened Raster

  /** A decoded image: `img.shape[0]` rows by `img.shape[1]` columns, three channels. */
  datatype Frame = Frame(height: nat, width: nat)

  /** `hand["bbox"]`: the top-left corner and the extent, in frame pixels. */
  datatype BBox = BBox(x: int, y: int, w: int, h: int)

  /** One detected hand: its box and `lmList`, the landmark positions. */
  datatype Hand = Hand(bbox: BBox, lmList: seq<Point>)

  /** Python's `max` and `min` of two integers. */
  function Max(a: int, b: int): int { if a >= b then a else b }
  function Min(a: int, b: int): int { if a <= b then a else b }

  /** The window `img[y1:y2, x1:x2]`. */
  datatype Crop = Crop(y1: int, y2: int, x1: int, x2: int)

  /** How many indices Python's `a[start:stop]` takes from a sequence of length n: a
      negative bound counts from the end, then both are clamped into 0..n. */
  function SliceLen(n: nat, start: int, stop: int): (len: nat)
    ensures len <= n
    ensures 0 <= start <= stop <= n ==> len == stop - start
    ensures 0 <= stop <= start ==> len == 0
  {
    var s := if start < 0 then (if start + n < 0 then 0 else start + n) else (if start > n then n else start);
    var e := if stop < 0 then (if stop + n < 0 then 0 else stop + n) else (if stop > n then n else stop);
    if e > s then e - s else 0
  }

  /** `crop.size == 0` for `crop = img[y1:y2, x1:x2]` of a three-channel image. */
  predicate CropIsEmpty(c: Crop, f: Frame) {
    SliceLen(f.height, c.y1, c.y2) == 0 || SliceLen(f.width, c.x1, c.x2) == 0
  }
}
