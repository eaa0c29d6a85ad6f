/** What the front end makes of each backend's replies: app.py's `{ok, detected, char,
    confidence}` and server.py's `{ok, class_index, confidence}` read by the two pages'
    `predictFromBackend` and by predict.ts's `predictSign`. */
module Pipeline {
  import opened Wire
  import opened Strings
  import opened Vision
  import PredictApi
  import RealtimeDetection
  import StaticImage
  import AppBackend
  import ServerBackend

  /** On the camera page, app.py's replies are understood: an undecodable image is an error,
      no hand is "no hand", and a detection shows the rule engine's non-blank character with
      its confidence. */
  lemma AppRepliesOnPages(img: Option<Frame>, full: Option<Hand>, onCrop: Option<Hand>,
                          rule: AppBackend.RuleOutput)
    ensures var o := RealtimeDetection.Normalise(AppBackend.PredictReply(img, full, onCrop, rule));
      && (img.None? ==> o == Raised(RealtimeDetection.BackendFailed))
      && (img.Some? && !AppBackend.ReachesRules(img, full, onCrop) ==> o == NotDetected)
      && (o.Detected? <==> AppBackend.ReachesRules(img, full, onCrop) && AppBackend.HasSign(rule.finalChar))
      && (o.Detected? ==> o.word == rule.finalChar && o.word != "" && o.confidence == rule.conf)
  {
  }

  /** `predictSign` never succeeds on an app.py reply: app.py sends `char`, never `word` or
      `class_index`. */
  lemma AppRepliesFailInPredictSign(img: Option<Frame>, full: Option<Hand>, onCrop: Option<Hand>,
                                    rule: AppBackend.RuleOutput)
    ensures var r := PredictApi.Normalise(AppBackend.PredictReply(img, full, onCrop, rule));
      && (img.None? ==> r == Failure("Prediction failed"))
      && (img.Some? ==> r == Failure("Invalid response from backend"))
  {
  }

  /** server.py's "no hand" is `ok: false`: every reader raises its message, none reports
      "no hand detected" as such. */
  lemma ServerNoHandIsAnError()
    ensures RealtimeDetection.Normalise(ServerBackend.NoHandReply) == Raised("No hand detected")
    ensures StaticImage.Normalise(ServerBackend.NoHandReply) == Raised("No hand detected")
    ensures PredictApi.Normalise(ServerBackend.NoHandReply) == Failure("No hand detected")
  {
  }

  /** A server.py success reads as "Class N" on the pages but as a letter in `predictSign`:
      for every class index 0..25 the two words differ. */
  lemma ServerSuccessWordsDisagree(frame: Option<Frame>, full: Option<Hand>, onCrop: Option<Hand>,
                                   whiteFound: bool, prob: seq<real>)
    requires |prob| > 0
    requires ServerBackend.PredictReply(frame, full, onCrop, whiteFound, prob).Some?
    requires ServerBackend.PredictReply(frame, full, onCrop, whiteFound, prob).value.ok == Some(true)
    ensures var data := ServerBackend.PredictReply(frame, full, onCrop, whiteFound, prob).value;
      var top := ServerBackend.PredictLetter(prob).0;
      && RealtimeDetection.Normalise(data).Detected?
      && RealtimeDetection.Normalise(data).word == "Class " + IntToString(top)
      && StaticImage.Normalise(data) == RealtimeDetection.Normalise(data)
      && PredictApi.Normalise(data).Success?
      && PredictApi.Normalise(data).value.word == PredictApi.IndexToLabel(top)
      && RealtimeDetection.Normalise(data).word != PredictApi.Normalise(data).value.word
  {
    var data := ServerBackend.PredictReply(frame, full, onCrop, whiteFound, prob).value;
    var top := ServerBackend.PredictLetter(prob).0;
    StaticImage.SameAsRealtime(data);
    var w := RealtimeDetection.Normalise(data).word;
    assert w[0] == 'C' && |w| > 1;
    if top <= 25 {
      assert |PredictApi.IndexToLabel(top)| == 1;
    } else {
      assert PredictApi.IndexToLabel(top) == "Unknown";
      assert w[0] != "Unknown"[0];
    }
  }

  /** 500 renders as "500". */
  lemma Status500Text()
    ensures IntToString(500) == "500"
  {
    assert NatToString(5) == ['5'];
    assert NatToString(50) == ['5', '0'];
    assert NatToString(500) == ['5', '0', '0'];
  }

  /** A delivered HTTP 500 reads on the pages as "Backend error: 500", its status text
      appended. */
  lemma ServerCrashOnPages(body: Reply)
    ensures RealtimeDetection.PredictFromBackend(true, HttpResponse(500, "Internal Server Error", body))
      == Raised("Backend error: " + "500" + " " + "Internal Server Error")
  {
    Status500Text();
  }

  /** A delivered HTTP 500 reads in `predictSign` by its status code alone. */
  lemma ServerCrashInPredictSign(body: Reply)
    ensures PredictApi.PredictSign(HttpResponse(500, "Internal Server Error", body)) == Failure("Backend error: " + "500")
  {
    Status500Text();
  }
}
