/** backend/server.py: `/predict` builds the skeleton image with `build_skeleton_image`,
    runs the CNN through `predict_letter`, and replies `{ok: true, class_index, confidence}`
    or `{ok: false, message: "No hand detected"}`. */
module ServerBackend {
  import opened Wire
  import opened Raster
  import opened Vision
  import opened Skeleton
  import AppBackend

  const Offset := 29

  /** The crop window around the full-frame box, clamped to the frame. */
  function CropWindow(box: BBox, f: Frame): (c: Crop)
    ensures 0 <= c.y1 && c.y2 <= f.height && 0 <= c.x1 && c.x2 <= f.width
    ensures 0 <= box.y && box.y + box.h <= f.height ==>
      c.y1 <= box.y && box.y + box.h <= c.y2 && box.y - c.y1 <= Offset && c.y2 - (box.y + box.h) <= Offset
    ensures 0 <= box.x && box.x + box.w <= f.width ==>
      c.x1 <= box.x && box.x + box.w <= c.x2 && box.x - c.x1 <= Offset && c.x2 - (box.x + box.w) <= Offset
  {
    Crop(Max(0, box.y - Offset), Min(f.height, box.y + box.h + Offset),
         Max(0, box.x - Offset), Min(f.width, box.x + box.w + Offset))
  }

  /** Both backends cut the same window. */
  lemma SameCropAsApp(box: BBox, f: Frame)
    ensures CropWindow(box, f) == AppBackend.CropWindow(box, f)
  {
  }

  /** `build_skeleton_image` gets as far as reading white.jpg: a hand on the frame and a
      non-empty crop around it. */
  predicate ReachesWhite(frame: Frame, full: Option<Hand>) {
    full.Some? && !CropIsEmpty(CropWindow(full.value.bbox, frame), frame)
  }

  /** The three early exits of `build_skeleton_image` that return `(None, None)`: no hand on
      the frame, an empty crop, no hand on the crop. */
  predicate NoSkeleton(frame: Frame, full: Option<Hand>, onCrop: Option<Hand>) {
    !ReachesWhite(frame, full) || onCrop.None?
  }

  /** `build_skeleton_image`. `whiteFile` is white.jpg after `cv2.resize` to 400x400, `None`
      when `cv2.imread` finds no file; that raises, reported as `missing`. The image is
      painted white in place before the hand is drawn, with offsets from the box of the hand
      found on the full frame. */
  method BuildSkeletonImage(frame: Frame, full: Option<Hand>, onCrop: Option<Hand>, whiteFile: Option<seq<int>>)
    returns (white: Canvas?, pts: Option<seq<Point>>, missing: bool)
    requires whiteFile.Some? ==> |whiteFile.value| == Size
    requires onCrop.Some? ==> |onCrop.value.lmList| >= Landmarks
    ensures missing <==> ReachesWhite(frame, full) && whiteFile.None?
    ensures white == null <==> missing || NoSkeleton(frame, full, onCrop)
    ensures white == null <==> pts.None?
    ensures white != null ==>
      fresh(white) && white.Valid()
      && (forall i :: 0 <= i < white.pixels.Length ==> white.pixels[i] == 255)
      && white.strokes == Strokes(onCrop.value.lmList, CentringOffset(full.value.bbox.w), CentringOffset(full.value.bbox.h))
      && pts == Some(onCrop.value.lmList)
  {
    white, pts, missing := null, None, false;
    if full.None? {
      return;
    }
    var box := full.value.bbox;
    var c := CropWindow(box, frame);
    if CropIsEmpty(c, frame) {
      return;
    }
    if whiteFile.None? {
      missing := true;
      return;
    }
    var canvas := new Canvas.FromPixels(whiteFile.value);
    canvas.Fill(255);
    if onCrop.None? {
      return;
    }
    var lm := onCrop.value.lmList;
    var osx := CentringOffset(box.w);
    var osy := CentringOffset(box.h);
    DrawSkeleton(canvas, lm, osx, osy);
    white, pts := canvas, Some(lm);
  }

  /** `np.argmax`: the first index holding the largest probability. */
  function ArgMax(prob: seq<real>): (top: nat)
    requires |prob| > 0
    ensures top < |prob|
    ensures forall j :: 0 <= j < |prob| ==> prob[j] <= prob[top]
    ensures forall j :: 0 <= j < top ==> prob[j] < prob[top]
  {
    if |prob| == 1 then 0
    else
      var k := ArgMax(prob[..|prob| - 1]);
      assert forall j :: 0 <= j < |prob| - 1 ==> prob[..|prob| - 1][j] == prob[j];
      if prob[|prob| - 1] > prob[k] then |prob| - 1 else k
  }

  /** `predict_letter`: the class index and its probability. */
  function PredictLetter(prob: seq<real>): (r: (nat, real))
    requires |prob| > 0
    ensures r.0 < |prob| && r.1 == prob[r.0]
    ensures forall j :: 0 <= j < |prob| ==> prob[j] <= r.1
    ensures forall j :: 0 <= j < r.0 ==> prob[j] < r.1
  {
    var top := ArgMax(prob);
    (top, prob[top])
  }

  const NoHandReply := Reply(Some(false), None, None, None, None, None, Some("No hand detected"))

  /** The reply of `predict`; `None` when the request fails with an unhandled exception:
      PIL cannot open the upload, or white.jpg is missing. */
  function PredictReply(frame: Option<Frame>, full: Option<Hand>, onCrop: Option<Hand>, whiteFound: bool, prob: seq<real>): (r: Option<Reply>)
    requires |prob| > 0
    ensures r.None? <==> frame.None? || (ReachesWhite(frame.value, full) && !whiteFound)
    // No skeleton is a failure reply, never a `detected: false` one.
    ensures r.Some? && NoSkeleton(frame.value, full, onCrop) ==> r == Some(NoHandReply)
    // A success has exactly ok, class_index and confidence.
    ensures r.Some? && !NoSkeleton(frame.value, full, onCrop) ==>
      r.value.ok == Some(true) && r.value.classIndex.Some? && r.value.confidence.Some?
      && r.value.detected.None? && r.value.character.None? && r.value.word.None? && r.value.message.None?
      && r.value.classIndex.value == PredictLetter(prob).0 && r.value.confidence.value == PredictLetter(prob).1
  {
    if frame.None? then None
    else if ReachesWhite(frame.value, full) && !whiteFound then None
    else if NoSkeleton(frame.value, full, onCrop) then Some(NoHandReply)
    else
      var (cls, conf) := PredictLetter(prob);
      Some(Reply(Some(true), None, None, None, Some(cls as int), Some(conf), None))
  }

  /** `predict`. `prob` is the model's output on the skeleton image. */
  method Predict(frame: Option<Frame>, full: Option<Hand>, onCrop: Option<Hand>, whiteFile: Option<seq<int>>, prob: seq<real>)
    returns (reply: Option<Reply>)
    requires whiteFile.Some? ==> |whiteFile.value| == Size
    requires |prob| > 0
    requires onCrop.Some? ==> |onCrop.value.lmList| >= Landmarks
    ensures reply == PredictReply(frame, full, onCrop, whiteFile.Some?, prob)
  {
    if frame.None? {
      return None;
    }
    var white, pts, missing := BuildSkeletonImage(frame.value, full, onCrop, whiteFile);
    if missing {
      return None;
    }
    if white == null {
      return Some(NoHandReply);
    }
    var (cls, conf) := PredictLetter(prob);
    reply := Some(Reply(Some(true), None, None, None, Some(cls as int), Some(conf), None));
  }
}
