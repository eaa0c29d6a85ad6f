/** The JSON reply of the /predict endpoint as the front end sees it, and the other values
    that travel between the pages, the backends and the external store. */
module Wire {

  datatype Option<+T> = None | Some(value: T)

  datatype Result<+T, +E> = Success(value: T) | Failure(error: E)

  /** One parsed /predict reply; `character` is the JSON key `char`. Every field is
      optional: `None` stands for a key that is absent or holds JSON `null`, which every
      consumer treats alike. */
  datatype Reply = Reply(
    ok: Option<bool>,
    detected: Option<bool>,
    character: Option<string>,
    word: Option<string>,
    classIndex: Option<int>,
    confidence: Option<real>,
    message: Option<string>)

  /** What `fetch` hands back: the status line and the parsed JSON body. */
  datatype HttpResponse = HttpResponse(status: int, statusText: string, body: Reply)

  /** `Response.ok`: the status lies in 200..299. */
  predicate IsSuccessStatus(status: int) {
    200 <= status <= 299
  }

  /** JavaScript truthiness of an optional string: present and not empty. */
  predicate Truthy(s: Option<string>) {
    s.Some? && s.value != ""
  }

  /** `s || fallback` for an optional string. */
  function OrElse(s: Option<string>, fallback: string): (r: string)
    ensures Truthy(s) ==> r == s.value
    ensures !Truthy(s) ==> r == fallback
  {
    if s.Some? && s.value != "" then s.value else fallback
  }

  /** A word and its confidence, as shown by PredictionDisplay. */
  datatype Prediction = Prediction(word: string, confidence: real)

  /** What a page's `predictFromBackend` settles to: a raised error with its message,
      `{detected: false}`, or `{detected: true, word, confidence}`. */
  datatype Outcome = Raised(message: string) | NotDetected | Detected(word: string, confidence: real)

  /** One row written to the `predictions` table. */
  datatype HistoryRow = HistoryRow(userId: string, predictedWord: string, confidence: real, predictionType: string)
}
