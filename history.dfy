/** frontend/src/pages/History.tsx: the signed-in user's past predictions. `fetchHistory`
    loads them, `deletePrediction` removes one by id, and each row's type badge is chosen by
    the kind of prediction. */
module History {
  import opened Wire

  /** One row of the `predictions` table as the page reads it. */
  datatype StoredPrediction = StoredPrediction(
    id: string, predictedWord: string, confidence: real, predictionType: string, createdAt: string)

  /** `predictions.filter(p => p.id !== id)`. */
  function WithoutId(ps: seq<StoredPrediction>, id: string): (r: seq<StoredPrediction>)
    ensures |r| <= |ps|
    ensures forall p :: p in r ==> p in ps && p.id != id
  {
    if ps == [] then []
    else if ps[0].id != id then [ps[0]] + WithoutId(ps[1..], id)
    else WithoutId(ps[1..], id)
  }

  /** How many rows carry the id. */
  function CountId(ps: seq<StoredPrediction>, id: string): (n: nat)
    ensures n <= |ps|
  {
    if ps == [] then 0 else (if ps[0].id == id then 1 else 0) + CountId(ps[1..], id)
  }

  /** Filtering a list is filtering its two parts: the kept rows stay in their order. */
  lemma {:induction false} WithoutIdConcat(a: seq<StoredPrediction>, b: seq<StoredPrediction>, id: string)
    ensures WithoutId(a + b, id) == WithoutId(a, id) + WithoutId(b, id)
  {
    if a == [] {
      assert a + b == b;
    } else {
      assert (a + b)[0] == a[0] && (a + b)[1..] == a[1..] + b;
      WithoutIdConcat(a[1..], b, id);
    }
  }

  /** Exactly the rows with the id are dropped: each other row keeps its number of copies,
      and the length falls by the number of matches. */
  lemma {:induction false} WithoutIdRemovesExactlyMatches(ps: seq<StoredPrediction>, id: string)
    ensures |WithoutId(ps, id)| == |ps| - CountId(ps, id)
    ensures forall p: StoredPrediction :: p.id != id ==> multiset(WithoutId(ps, id))[p] == multiset(ps)[p]
    ensures forall p: StoredPrediction :: p.id == id ==> multiset(WithoutId(ps, id))[p] == 0
  {
    if ps != [] {
      WithoutIdRemovesExactlyMatches(ps[1..], id);
      assert ps == [ps[0]] + ps[1..];
    }
  }

  /** A list without the id is left as it is. */
  lemma {:induction false} WithoutIdNoMatch(ps: seq<StoredPrediction>, id: string)
    requires forall p :: p in ps ==> p.id != id
    ensures WithoutId(ps, id) == ps
  {
    if ps != [] {
      assert forall p :: p in ps[1..] ==> p in ps;
      WithoutIdNoMatch(ps[1..], id);
    }
  }

  /** Deleting the same id again changes nothing. */
  lemma WithoutIdIdempotent(ps: seq<StoredPrediction>, id: string)
    ensures WithoutId(WithoutId(ps, id), id) == WithoutId(ps, id)
  {
    WithoutIdNoMatch(WithoutId(ps, id), id);
  }

  /** `pred.prediction_type === 'realtime' ? 'default' : 'secondary'`. */
  function BadgeVariant(predictionType: string): (variant: string)
    ensures variant == "default" <==> predictionType == "realtime"
    ensures variant != "default" ==> variant == "secondary"
  {
    if predictionType == "realtime" then "default" else "secondary"
  }

  /** What the select query returned: an error, or `data`, which may be null. */
  datatype QueryResult = QueryError | Rows(data: Option<seq<StoredPrediction>>)

  /** What the page shows. */
  datatype Screen = LoadingHistory | NoPredictions | PredictionList(rows: seq<StoredPrediction>)

  /** The page's state. */
  class HistoryPage {
    var predictions: seq<StoredPrediction>
    var loading: bool

    constructor ()
      ensures predictions == [] && loading
    {
      predictions := [];
      loading := true;
    }

    /** `loading ? ... : predictions.length === 0 ? ... : list`. */
    function View(): (screen: Screen)
      reads this
      ensures screen == LoadingHistory <==> loading
      ensures screen == NoPredictions <==> !loading && predictions == []
      ensures screen.PredictionList? ==> screen.rows == predictions && predictions != []
    {
      if loading then LoadingHistory
      else if predictions == [] then NoPredictions
      else PredictionList(predictions)
    }

    /** `fetchHistory`. `session` is the signed-in user's id, `result` what the query for
        that user's rows, newest first, returned. Without a session the page goes to "/auth",
        issues no query and stays loading. */
    method FetchHistory(session: Option<string>, result: QueryResult) returns (navigate: Option<string>)
      modifies this
      ensures session.None? ==>
        navigate == Some("/auth") && predictions == old(predictions) && loading == old(loading)
      ensures session.Some? ==> navigate.None? && !loading
      // An error keeps the list; null data becomes the empty list.
      ensures session.Some? && result.QueryError? ==> predictions == old(predictions)
      ensures session.Some? && result.Rows? ==>
        predictions == (if result.data.Some? then result.data.value else [])
    {
      if session.None? {
        return Some("/auth");
      }
      navigate := None;
      if result.Rows? {
        predictions := if result.data.Some? then result.data.value else [];
      }
      loading := false;
    }

    /** `deletePrediction`: on success the list loses exactly the rows with that id; on
        error it is unchanged. */
    method DeletePrediction(id: string, deleteError: bool)
      modifies this
      ensures deleteError ==> predictions == old(predictions)
      ensures !deleteError ==> predictions == WithoutId(old(predictions), id)
      ensures loading == old(loading)
    {
      if !deleteError {
        predictions := WithoutId(predictions, id);
      }
    }
  }
}
