/** frontend/src/api/predict.ts: `predictSign` posts one JPEG to `/predict` and turns the
    reply into `{word, confidence}` or an error; `indexToLabel` maps a class index to A..Z. */
module PredictApi {
  import opened Wire
  import opened Strings

  /** `indexToLabel`: the character with code 65 + idx when that is a capital letter, else "Unknown". */
  function IndexToLabel(idx: int): (text: string)
    ensures 0 <= idx <= 25 ==> |text| == 1 && text[0] as int == 65 + idx
    ensures !(0 <= idx <= 25) ==> text == "Unknown"
  {
    var code := 65 + idx;
    if code < 65 || code > 90 then "Unknown" else [code as char]
  }

  /** The class index a one-letter text stands for: the partner of IndexToLabel. */
  function LabelToIndex(text: string): Option<int> {
    if |text| == 1 && 'A' <= text[0] <= 'Z' then Some(text[0] as int - 65) else None
  }

  /** The 26 indices and the 26 capital letters correspond one to one. */
  lemma LabelRoundTrip(idx: int, text: string)
    ensures 0 <= idx <= 25 ==> LabelToIndex(IndexToLabel(idx)) == Some(idx)
    ensures LabelToIndex(text).Some? ==> IndexToLabel(LabelToIndex(text).value) == text
  {
    if LabelToIndex(text).Some? {
      assert [(text[0] as int) as char] == text;
    }
  }

  /** The multipart upload `predictSign` sends. */
  datatype Upload = Upload(httpMethod: string, url: string, field: string, fileName: string, payload: seq<bv8>)

  /** The request: a POST to `{BASE_URL}/predict` whose one form field is named "file". */
  function PredictRequest(baseUrl: string, image: seq<bv8>): (req: Upload)
    ensures req.field == "file" && req.payload == image
    ensures req.httpMethod == "POST" && req.url == baseUrl + "/predict"
  {
    Upload("POST", baseUrl + "/predict", "file", "frame.jpg", image)
  }

  /** The part of `predictSign` after `res.json()`. */
  function Normalise(data: Reply): (r: Result<Prediction, string>)
    // `!data.ok` raises: ok false, absent or null.
    ensures data.ok != Some(true) ==> r == Failure(OrElse(data.message, "Prediction failed"))
    // A non-empty word with a numeric confidence is returned verbatim, whatever class_index says.
    ensures data.ok == Some(true) && Truthy(data.word) && data.confidence.Some? ==>
      r == Success(Prediction(data.word.value, data.confidence.value))
    // Otherwise a numeric class_index goes through IndexToLabel; the confidence is not clamped.
    ensures (data.ok == Some(true) && !(Truthy(data.word) && data.confidence.Some?)
             && data.classIndex.Some? && data.confidence.Some?) ==>
      r == Success(Prediction(IndexToLabel(data.classIndex.value), data.confidence.value))
    // A success always carries the reply's confidence.
    ensures r.Success? <==> data.ok == Some(true) && data.confidence.Some? && (Truthy(data.word) || data.classIndex.Some?)
    ensures r.Success? ==> r.value.confidence == data.confidence.value
    // A used word is truthy and IndexToLabel never yields "", so a success has a word.
    ensures r.Success? ==> r.value.word != ""
    // An `ok` reply with neither usage fails with the malformed-reply text.
    ensures data.ok == Some(true) && !r.Success? ==> r == Failure("Invalid response from backend")
  {
    if data.ok != Some(true) then
      Failure(OrElse(data.message, "Prediction failed"))
    else if Truthy(data.word) && data.confidence.Some? then
      Success(Prediction(data.word.value, data.confidence.value))
    else if data.classIndex.Some? && data.confidence.Some? then
      Success(Prediction(IndexToLabel(data.classIndex.value), data.confidence.value))
    else
      Failure("Invalid response from backend")
  }

  /** Prefix of the error raised for a non-2xx status. */
  const BackendErrorPrefix := "Backend error: "

  /** `predictSign` from the moment `fetch` resolves: the status is checked before the body. */
  function PredictSign(res: HttpResponse): (r: Result<Prediction, string>)
    ensures !IsSuccessStatus(res.status) ==>
      r.Failure? && |r.error| > |BackendErrorPrefix| && r.error[..|BackendErrorPrefix|] == BackendErrorPrefix
    ensures IsSuccessStatus(res.status) ==> r == Normalise(res.body)
  {
    if !IsSuccessStatus(res.status) then Failure(BackendErrorPrefix + IntToString(res.status))
    else Normalise(res.body)
  }

  /** The error for a non-2xx status carries the status code: parsing the text after the
      prefix gives it back. */
  lemma StatusInError(res: HttpResponse)
    requires !IsSuccessStatus(res.status)
    ensures PredictSign(res).Failure?
    ensures ParseInt(PredictSign(res).error[|BackendErrorPrefix|..]) == Some(res.status)
  {
    var e := PredictSign(res).error;
    assert e[|BackendErrorPrefix|..] == IntToString(res.status);
    IntToStringRoundTrip(res.status);
  }
}
