/** backend/app.py: `/predict` decodes the upload, finds a hand, crops around it, finds the
    hand again on the crop, draws its skeleton on a white 400x400 canvas and replies with the
    rule engine's character in the `{ok, detected, char, confidence}` shape. */
module AppBackend {
  import opened Wire
  import opened Strings
  import opened Raster
  import opened Vision
  import opened Skeleton

  /** Margin added around the hand's box before cropping. */
  const Offset := 29

  /** The crop window: the box grown by Offset on each side, clamped to the frame. */
  function CropWindow(box: BBox, f: Frame): (c: Crop)
    ensures 0 <= c.y1 && c.y2 <= f.height && 0 <= c.x1 && c.x2 <= f.width
    // A box inside the frame is inside the crop, with at most Offset pixels added per side.
    ensures 0 <= box.y && box.y + box.h <= f.height ==>
      c.y1 <= box.y && box.y + box.h <= c.y2 && box.y - c.y1 <= Offset && c.y2 - (box.y + box.h) <= Offset
    ensures 0 <= box.x && box.x + box.w <= f.width ==>
      c.x1 <= box.x && box.x + box.w <= c.x2 && box.x - c.x1 <= Offset && c.x2 - (box.x + box.w) <= Offset
  {
    Crop(Max(0, box.y - Offset), Min(f.height, box.y + box.h + Offset),
         Max(0, box.x - Offset), Min(f.width, box.x + box.w + Offset))
  }

  /** While the clamped upper bounds are not negative, the crop is empty exactly when a
      lower bound reaches its upper bound. (A negative bound would count from the end.) */
  lemma CropEmptyIff(box: BBox, f: Frame)
    requires CropWindow(box, f).y2 >= 0 && CropWindow(box, f).x2 >= 0
    ensures var c := CropWindow(box, f);
      CropIsEmpty(c, f) <==> c.y1 >= c.y2 || c.x1 >= c.x2
  {
  }

  /** What `predict_with_rules` returned: the character and its confidence. */
  datatype RuleOutput = RuleOutput(finalChar: string, conf: real)

  /** `final_char.strip() == ""` is false. */
  predicate HasSign(finalChar: string) {
    PyStrip(finalChar) != ""
  }

  const Undecodable := Reply(Some(false), Some(false), Some(""), None, None, Some(0.0), None)
  const NoHand := Reply(Some(true), Some(false), Some(""), None, None, Some(0.0), None)

  /** The stage `predict` stops at. */
  predicate ReachesRules(img: Option<Frame>, full: Option<Hand>, onCrop: Option<Hand>) {
    img.Some? && full.Some? && !CropIsEmpty(CropWindow(full.value.bbox, img.value), img.value)
    && onCrop.Some?
  }

  /** The reply `predict` builds. `full` is the detector's hand on the flipped frame,
      `onCrop` its hand on the crop, `rule` the rule engine's answer for the skeleton. */
  function PredictReply(img: Option<Frame>, full: Option<Hand>, onCrop: Option<Hand>, rule: RuleOutput): (r: Reply)
    ensures img.None? ==> r == Undecodable
    ensures img.Some? && !ReachesRules(img, full, onCrop) ==> r == NoHand
    ensures r.ok == Some(img.Some?)
    ensures r.detected == Some(true) <==> ReachesRules(img, full, onCrop) && HasSign(rule.finalChar)
    // A detection carries the rule's character, which is not blank; anything else carries "".
    ensures r.detected == Some(true) ==>
      r.character == Some(rule.finalChar) && HasSign(rule.finalChar) && r.confidence == Some(rule.conf)
    ensures r.detected == Some(true) ==> r.character.value != ""
    ensures r.detected == Some(false) ==> r.character == Some("")
    ensures r.detected.Some? && r.character.Some? && r.confidence.Some?
    ensures r.word.None? && r.classIndex.None? && r.message.None?
  {
    if img.None? then Undecodable
    else if !ReachesRules(img, full, onCrop) then NoHand
    else
      var detected := HasSign(rule.finalChar);
      Reply(Some(true), Some(detected), Some(if detected then rule.finalChar else ""), None, None, Some(rule.conf), None)
  }

  /** `draw_skeleton_on_white`: a copy of the white background with the hand drawn on it,
      centred by the box extent (w, h). */
  method DrawSkeletonOnWhite(pts: seq<Point>, w: int, h: int) returns (white: Canvas)
    requires |pts| >= Landmarks
    ensures fresh(white) && fresh(white.pixels) && white.Valid()
    ensures white.pixels[..] == WhiteBackground()
    ensures white.strokes == Strokes(pts, CentringOffset(w), CentringOffset(h))
  {
    white := new Canvas.FromPixels(WhiteBackground());
    var os := CentringOffset(w);
    var os1 := CentringOffset(h);
    DrawSkeleton(white, pts, os, os1);
  }

  /** `predict`: the reply, and the canvas when the skeleton was drawn. Offsets come from the
      box of the hand found on the crop. */
  method Predict(img: Option<Frame>, full: Option<Hand>, onCrop: Option<Hand>, rule: RuleOutput)
    returns (reply: Reply, white: Canvas?)
    requires onCrop.Some? ==> |onCrop.value.lmList| >= Landmarks
    ensures reply == PredictReply(img, full, onCrop, rule)
    ensures white != null <==> ReachesRules(img, full, onCrop)
    ensures white != null ==>
      fresh(white) && white.Valid()
      && white.strokes == Strokes(onCrop.value.lmList, CentringOffset(onCrop.value.bbox.w), CentringOffset(onCrop.value.bbox.h))
  {
    white := null;
    if img.None? {
      return Undecodable, white;
    }
    if full.None? {
      return NoHand, white;
    }
    var c := CropWindow(full.value.bbox, img.value);
    if CropIsEmpty(c, img.value) {
      return NoHand, white;
    }
    if onCrop.None? {
      return NoHand, white;
    }
    var hand2 := onCrop.value;
    white := DrawSkeletonOnWhite(hand2.lmList, hand2.bbox.w, hand2.bbox.h);
    var detected := true;
    if PyStrip(rule.finalChar) == "" {
      detected := false;
    }
    reply := Reply(Some(true), Some(detected), Some(if detected then rule.finalChar else ""), None, None,
                   Some(rule.conf), None);
  }
}
