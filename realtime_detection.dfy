/** frontend/src/pages/RealtimeDetection.tsx: the camera page. `predictFromBackend` turns a
    reply into an outcome; `captureAndPredict` drives the `isCapturing` and `prediction`
    state and writes one history row per shown detection when signed in. */
module RealtimeDetection {
  import opened Wire
  import opened Strings

  const BackendFailed := "Prediction failed on the backend."
  const EncodeFailed := "Failed to convert canvas to image."

  /** `char ?? (typeof classIndex === "number" ? "Class " + classIndex : "Unknown")`. */
  function WordOf(data: Reply): (w: string)
    ensures data.character.Some? ==> w == data.character.value
    ensures data.character.None? && data.classIndex.Some? ==>
      |w| > 6 && w[..6] == "Class " && w[6..] == IntToString(data.classIndex.value)
    ensures data.character.None? && data.classIndex.None? ==> w == "Unknown"
  {
    match data.character
    case Some(c) => c
    case None =>
      match data.classIndex
      case Some(i) => "Class " + IntToString(i)
      case None => "Unknown"
  }

  /** Without a `char`, the word "Class N" gives the class index N back. */
  lemma ClassWordNamesIndex(data: Reply)
    requires data.character.None? && data.classIndex.Some?
    ensures ParseInt(WordOf(data)[6..]) == Some(data.classIndex.value)
  {
    IntToStringRoundTrip(data.classIndex.value);
  }

  /** The part of `predictFromBackend` after `res.json()`. It raises only on `ok === false`. */
  function Normalise(data: Reply): (o: Outcome)
    ensures o.Raised? <==> data.ok == Some(false)
    ensures o.Raised? ==> o.message == OrElse(data.message, BackendFailed)
    // `detected === false` wins over every other field; absent `detected` counts as detected.
    ensures o.NotDetected? <==> data.ok != Some(false) && data.detected == Some(false)
    ensures o.Detected? ==> o.word == WordOf(data)
    // The confidence is the reply's, 0 when absent, and is not clamped.
    ensures o.Detected? ==> o.confidence == (if data.confidence.Some? then data.confidence.value else 0.0)
  {
    if data.ok == Some(false) then Raised(OrElse(data.message, BackendFailed))
    else if data.detected == Some(false) then NotDetected
    else
      var confidence := match data.confidence case Some(c) => c case None => 0.0;
      Detected(WordOf(data), confidence)
  }

  /** `predictFromBackend` from the JPEG encoding onwards: encoding, the status check, then
      the body. */
  function PredictFromBackend(encoded: bool, res: HttpResponse): (o: Outcome)
    ensures !encoded ==> o == Raised(EncodeFailed)
    ensures encoded && !IsSuccessStatus(res.status) ==>
      o.Raised? && |o.message| > 15 && o.message[..15] == "Backend error: "
      && LeadingToken(o.message[15..]) == IntToString(res.status)
    ensures encoded && IsSuccessStatus(res.status) ==> o == Normalise(res.body)
  {
    if !encoded then Raised(EncodeFailed)
    else if !IsSuccessStatus(res.status) then
      var m := "Backend error: " + IntToString(res.status) + " " + res.statusText;
      assert m[15..] == IntToString(res.status) + " " + res.statusText;
      LeadingTokenOfConcat(IntToString(res.status), res.statusText);
      Raised(m)
    else Normalise(res.body)
  }

  /** The status code in a transport error parses back to the status. */
  lemma StatusInError(res: HttpResponse)
    requires !IsSuccessStatus(res.status)
    ensures ParseInt(LeadingToken(PredictFromBackend(true, res).message[15..])) == Some(res.status)
  {
    IntToStringRoundTrip(res.status);
  }

  /** `videoWidth || 640`, `videoHeight || 480`. */
  function CanvasSize(videoWidth: nat, videoHeight: nat): (size: (nat, nat))
    ensures size.0 > 0 && size.1 > 0
    ensures videoWidth > 0 ==> size.0 == videoWidth
    ensures videoHeight > 0 ==> size.1 == videoHeight
    ensures videoWidth == 0 ==> size.0 == 640
    ensures videoHeight == 0 ==> size.1 == 480
  {
    (if videoWidth != 0 then videoWidth else 640, if videoHeight != 0 then videoHeight else 480)
  }

  /** The prediction shown after an outcome: a detection replaces it, "no hand" clears it
      and an error leaves it. */
  function ShownAfter(before: Option<Prediction>, o: Outcome): (after: Option<Prediction>)
    ensures o.Detected? ==> after == Some(Prediction(o.word, o.confidence))
    ensures o.NotDetected? ==> after == None
    ensures o.Raised? ==> after == before
  {
    match o
    case Detected(w, c) => Some(Prediction(w, c))
    case NotDetected => None
    case Raised(_) => before
  }

  /** The history rows one outcome writes: one "realtime" row for a detection with a session. */
  function RowsAfter(o: Outcome, session: Option<string>): (rows: seq<HistoryRow>)
    ensures |rows| <= 1
    ensures |rows| == 1 <==> o.Detected? && session.Some?
    ensures |rows| == 1 ==>
      rows[0] == HistoryRow(session.value, o.word, o.confidence, "realtime")
  {
    if o.Detected? && session.Some? then [HistoryRow(session.value, o.word, o.confidence, "realtime")] else []
  }

  /** The page's state. */
  class RealtimePage {
    /** A camera stream was obtained. */
    var stream: bool
    var prediction: Option<Prediction>
    var isCapturing: bool
    /** Rows sent to the `predictions` table, oldest first; the insert's result is never read. */
    var saved: seq<HistoryRow>

    constructor ()
      ensures !stream && prediction == None && !isCapturing && saved == []
    {
      stream := false;
      prediction := None;
      isCapturing := false;
      saved := [];
    }

    /** `startCamera`: a granted camera sets the stream; a refusal only shows a toast. */
    method StartCamera(granted: bool)
      modifies this
      ensures stream == (old(stream) || granted)
      ensures prediction == old(prediction) && isCapturing == old(isCapturing) && saved == old(saved)
    {
      if granted {
        stream := true;
      }
    }

    /** The capture button is enabled unless a capture runs or there is no stream. */
    function CaptureEnabled(): (enabled: bool)
      reads this
      ensures enabled <==> !isCapturing && stream
    {
      !(isCapturing || !stream)
    }

    /** `captureAndPredict` as one step. The browser's results are parameters: whether the
        video element is mounted, its size, whether a 2D context exists, whether JPEG
        encoding succeeded, the HTTP response and the session's user id. */
    method CaptureAndPredict(videoMounted: bool, videoWidth: nat, videoHeight: nat, hasContext: bool,
                             encoded: bool, res: HttpResponse, session: Option<string>)
      returns (canvas: Option<(nat, nat)>, outcome: Option<Outcome>)
      modifies this
      ensures !videoMounted ==>
        canvas == None && outcome == None && isCapturing == old(isCapturing)
        && prediction == old(prediction) && saved == old(saved)
      ensures videoMounted ==> canvas == Some(CanvasSize(videoWidth, videoHeight)) && !isCapturing
      // Every exit after the flag was raised re-enables the button while the stream lasts.
      ensures videoMounted ==> CaptureEnabled() == stream
      ensures outcome == if videoMounted && hasContext then Some(PredictFromBackend(encoded, res)) else None
      ensures outcome.None? ==> prediction == old(prediction) && saved == old(saved)
      ensures outcome.Some? ==>
        prediction == ShownAfter(old(prediction), outcome.value)
        && saved == old(saved) + RowsAfter(outcome.value, session)
      ensures stream == old(stream)
    {
      canvas, outcome := None, None;
      if !videoMounted {
        return;
      }
      isCapturing := true;
      canvas := Some(CanvasSize(videoWidth, videoHeight));
      if !hasContext {
        isCapturing := false;
        return;
      }
      var result := PredictFromBackend(encoded, res);
      outcome := Some(result);
      match result {
        case Raised(_) =>
        case NotDetected =>
          prediction := None;
        case Detected(word, confidence) =>
          prediction := Some(Prediction(word, confidence));
          if session.Some? {
            saved := saved + [HistoryRow(session.value, word, confidence, "realtime")];
          }
      }
      isCapturing := false;
    }

    /** `resetPrediction`. */
    method ResetPrediction()
      modifies this
      ensures prediction == None
      ensures stream == old(stream) && isCapturing == old(isCapturing) && saved == old(saved)
    {
      prediction := None;
    }

    /** `speakWord`: the utterance handed to speech synthesis, if any. */
    method SpeakWord(speechSupported: bool) returns (utterance: Option<string>)
      ensures utterance.Some? <==> prediction.Some? && speechSupported
      ensures utterance.Some? ==> utterance.value == prediction.value.word
    {
      if prediction.Some? && speechSupported {
        utterance := Some(prediction.value.word);
      } else {
        utterance := None;
      }
    }
  }
}
