/** frontend/src/pages/StaticImage.tsx: the upload page. Its own copy of
    `predictFromBackend`, the 5 MB size gate, and the `image`, `prediction` and
    `isProcessing` state driven by `handleFileSelect`, `predictFromImage` and `resetUpload`. */
module StaticImage {
  import opened Wire
  import opened Strings
  import RealtimeDetection

  const BackendFailed := "Prediction failed on the backend."
  const EncodeFailed := "Failed to convert image to upload format."

  /** Largest accepted upload: 5 * 1024 * 1024 bytes. */
  const MaxFileSize := 5 * 1024 * 1024

  /** The part of `predictFromBackend` after `res.json()`. */
  function Normalise(data: Reply): (o: Outcome)
    ensures o.Raised? <==> data.ok == Some(false)
    ensures o.Raised? ==> o.message == OrElse(data.message, BackendFailed)
    ensures o.NotDetected? <==> data.ok != Some(false) && data.detected == Some(false)
    ensures o.Detected? && data.character.Some? ==> o.word == data.character.value
    ensures o.Detected? && data.character.None? && data.classIndex.Some? ==>
      o.word == "Class " + IntToString(data.classIndex.value)
    ensures o.Detected? && data.character.None? && data.classIndex.None? ==> o.word == "Unknown"
    ensures o.Detected? ==> o.confidence == (if data.confidence.Some? then data.confidence.value else 0.0)
  {
    if data.ok == Some(false) then Raised(OrElse(data.message, BackendFailed))
    else if data.detected == Some(false) then NotDetected
    else
      var confidence := match data.confidence case Some(c) => c case None => 0.0;
      var word := match data.character
        case Some(c) => c
        case None => match data.classIndex case Some(i) => "Class " + IntToString(i) case None => "Unknown";
      Detected(word, confidence)
  }

  /** The two page copies normalise every reply alike. */
  lemma SameAsRealtime(data: Reply)
    ensures Normalise(data) == RealtimeDetection.Normalise(data)
  {
  }

  /** `predictFromBackend` from the JPEG encoding onwards. */
  function PredictFromBackend(encoded: bool, res: HttpResponse): (o: Outcome)
    ensures !encoded ==> o == Raised(EncodeFailed)
    ensures encoded && !IsSuccessStatus(res.status) ==>
      o == Raised("Backend error: " + IntToString(res.status) + " " + res.statusText)
    ensures encoded && IsSuccessStatus(res.status) ==> o == Normalise(res.body)
  {
    if !encoded then Raised(EncodeFailed)
    else if !IsSuccessStatus(res.status) then
      Raised("Backend error: " + IntToString(res.status) + " " + res.statusText)
    else Normalise(res.body)
  }

  /** The two page copies differ only in the text of the encoding error. */
  lemma DiffersFromRealtimeOnlyInEncoding(encoded: bool, res: HttpResponse)
    ensures encoded ==> PredictFromBackend(encoded, res) == RealtimeDetection.PredictFromBackend(encoded, res)
    ensures !encoded ==> PredictFromBackend(encoded, res) != RealtimeDetection.PredictFromBackend(encoded, res)
  {
  }

  /** The file picked in the input, as far as the handlers look at it. */
  datatype PickedFile = PickedFile(name: string, size: nat)

  /** How `new Image()` settles on the stored data URL. */
  datatype ImageLoad = Loaded(width: nat, height: nat) | LoadError

  /** The page's state. */
  class StaticPage {
    /** The data URL of the uploaded image. */
    var image: Option<string>
    var prediction: Option<Prediction>
    var isProcessing: bool
    /** Rows sent to the `predictions` table, oldest first; the insert's result is never read. */
    var saved: seq<HistoryRow>

    constructor ()
      ensures image == None && prediction == None && !isProcessing && saved == []
    {
      image := None;
      prediction := None;
      isProcessing := false;
      saved := [];
    }

    /** `!image` is false: a non-empty data URL is held. */
    function HasImage(): (has: bool)
      reads this
      ensures has <==> image.Some? && image.value != ""
    {
      match image
      case Some(url) => url != ""
      case None => false
    }

    /** `handleFileSelect` with the FileReader's `onload` folded in. `dataUrl` is what the
        reader produced, `None` when it never loads. Returns whether the size gate fired. */
    method HandleFileSelect(file: Option<PickedFile>, dataUrl: Option<string>) returns (tooLarge: bool)
      modifies this
      ensures tooLarge <==> file.Some? && file.value.size > MaxFileSize
      ensures file.Some? && !tooLarge && dataUrl.Some? ==> image == dataUrl && prediction == None
      ensures file.None? || tooLarge || dataUrl.None? ==> image == old(image) && prediction == old(prediction)
      ensures isProcessing == old(isProcessing) && saved == old(saved)
    {
      tooLarge := false;
      if file.None? {
        return;
      }
      if file.value.size > MaxFileSize {
        tooLarge := true;
        return;
      }
      if dataUrl.Some? {
        image := dataUrl;
        prediction := None;
      }
    }

    /** `predictFromImage` with the image's `onload`/`onerror` folded in. */
    method PredictFromImage(load: ImageLoad, hasContext: bool, encoded: bool, res: HttpResponse,
                            session: Option<string>)
      returns (outcome: Option<Outcome>)
      modifies this
      // No image: a no-op that does not even set `isProcessing`.
      ensures !old(HasImage()) ==>
        outcome == None && isProcessing == old(isProcessing)
        && prediction == old(prediction) && saved == old(saved)
      // Every other path ends with `isProcessing` false.
      ensures old(HasImage()) ==> !isProcessing
      ensures old(HasImage()) ==> PredictEnabled()
      ensures outcome == if old(HasImage()) && load.Loaded? && hasContext
                         then Some(PredictFromBackend(encoded, res)) else None
      ensures outcome.None? ==> prediction == old(prediction) && saved == old(saved)
      ensures outcome.Some? && outcome.value.Detected? ==>
        prediction == Some(Prediction(outcome.value.word, outcome.value.confidence))
      ensures outcome.Some? && outcome.value.NotDetected? ==> prediction == None
      ensures outcome.Some? && outcome.value.Raised? ==> prediction == old(prediction)
      ensures outcome.Some? && outcome.value.Detected? && session.Some? ==>
        saved == old(saved) + [HistoryRow(session.value, outcome.value.word, outcome.value.confidence, "static")]
      ensures outcome.Some? && !(outcome.value.Detected? && session.Some?) ==> saved == old(saved)
      ensures image == old(image)
    {
      outcome := None;
      if !HasImage() {
        return;
      }
      isProcessing := true;
      match load {
        case LoadError =>
          isProcessing := false;
        case Loaded(_, _) =>
          if !hasContext {
            isProcessing := false;
            return;
          }
          var result := PredictFromBackend(encoded, res);
          outcome := Some(result);
          match result {
            case Raised(_) =>
            case NotDetected =>
              prediction := None;
            case Detected(word, confidence) =>
              prediction := Some(Prediction(word, confidence));
              if session.Some? {
                saved := saved + [HistoryRow(session.value, word, confidence, "static")];
              }
          }
          isProcessing := false;
      }
    }

    /** `resetUpload`. */
    method ResetUpload()
      modifies this
      ensures image == None && prediction == None
      ensures isProcessing == old(isProcessing) && saved == old(saved)
    {
      image := None;
      prediction := None;
    }

    /** The "Predict Sign" button is enabled unless a prediction runs. */
    function PredictEnabled(): (enabled: bool)
      reads this
      ensures enabled <==> !isProcessing
    {
      !isProcessing
    }

    /** `speakWord`: the utterance handed to speech synthesis, if any. */
    method SpeakWord(speechSupported: bool) returns (utterance: Option<string>)
      ensures utterance.Some? <==> prediction.Some? && speechSupported
      ensures utterance.Some? ==> utterance.value == prediction.value.word
    {
      if prediction.Some? && speechSupported {
        utterance := Some(prediction.value.word);
      } else {
        utterance := None;
      }
    }
  }
}
