/** hooks/use-predict.ts: resolving a missing expected label, building the
    request and the history record, prepending the record to the store, the
    loading flag and the error-to-null path. The 1500 ms delay, the toasts and
    the logging are left out; the record's id and timestamp are parameters. */
module PredictHook {
  import opened Types
  import opened Store

  const DefaultLabel := "me_duele_la_cabeza"

  /** A JavaScript value the `||` expression at use-predict.ts:23 can produce. */
  datatype JsValue = Str(s: string) | LabelObject(l: Label)

  /** `!expectedLabel`: undefined or the empty string. */
  predicate Falsy(expected: Option<string>) {
    expected.None? || expected.value == ""
  }

  /** As written: `labels?.[0] || "me_duele_la_cabeza"` yields the first Label
      object itself, not a string. */
  function ResolveLabelAsWritten(expected: Option<string>, labels: seq<Label>): (v: JsValue)
    ensures !Falsy(expected) ==> v == Str(expected.value)
    ensures Falsy(expected) && labels == [] ==> v == Str(DefaultLabel)
  {
    if !Falsy(expected) then Str(expected.value)
    else if labels != [] then LabelObject(labels[0])
    else Str(DefaultLabel)
  }

  /** With a label in the store, a missing expected label is replaced by an
      object: the request's `expected_label` is then not a string. */
  lemma AsWrittenSendsObject(expected: Option<string>, labels: seq<Label>)
    requires Falsy(expected) && labels != []
    ensures ResolveLabelAsWritten(expected, labels).LabelObject?
    ensures ResolveLabelAsWritten(expected, labels) != Str(labels[0].id)
  {
  }

  /** The intended resolution: the first stored label's id (the backend's own
      string, as hooks/use-labels.ts builds it), or the default sign. The
      boolean says whether the substitution toast is raised. */
  function ResolveLabel(expected: Option<string>, labels: seq<Label>): (r: (string, bool))
    ensures r.1 <==> Falsy(expected)
    ensures !Falsy(expected) ==> r.0 == expected.value
    ensures Falsy(expected) ==> (if labels == [] then r.0 == DefaultLabel else r.0 == labels[0].id)
  {
    if !Falsy(expected) then (expected.value, false)
    else if labels != [] then (labels[0].id, true)
    else (DefaultLabel, true)
  }

  /** The corrected resolution agrees with the code wherever the code yields a
      string, and yields the label's id where the code yields the object. */
  lemma ResolveLabelAgrees(expected: Option<string>, labels: seq<Label>)
    ensures ResolveLabelAsWritten(expected, labels).Str? ==>
      ResolveLabel(expected, labels).0 == ResolveLabelAsWritten(expected, labels).s
    ensures ResolveLabelAsWritten(expected, labels).LabelObject? ==>
      ResolveLabel(expected, labels).0 == ResolveLabelAsWritten(expected, labels).l.id
  {
  }

  /** A resolved label that is not empty is kept when resolved again, without a toast. */
  lemma ResolveLabelStable(expected: Option<string>, labels: seq<Label>)
    requires ResolveLabel(expected, labels).0 != ""
    ensures ResolveLabel(Some(ResolveLabel(expected, labels).0), labels)
      == (ResolveLabel(expected, labels).0, false)
  {
  }

  /** `requestData`: the caller's sequence, the resolved label and the nickname. */
  function MakeRequest(sequence: seq<seq<real>>, expected: Option<string>, labels: seq<Label>,
                       nickname: string): (req: PredictionRequest)
    ensures req.sequence == sequence && req.nickname == nickname
    ensures req.expectedLabel == ResolveLabel(expected, labels).0
    ensures !Falsy(expected) ==> req.expectedLabel == expected.value
  {
    PredictionRequest(sequence, ResolveLabel(expected, labels).0, nickname)
  }

  /** The history record of one answered request. */
  function MakeRecord(req: PredictionRequest, resp: PredictionResponse, id: string, timestamp: int): (r: PredictionRecord)
    ensures r.expectedLabel == req.expectedLabel && r.predictedLabel == resp.predictedLabel
    ensures r.confidence == resp.confidence && r.evaluation == resp.evaluation
    ensures r.observation == resp.observation
    ensures r.successRate == resp.successRate && r.averageConfidence == resp.averageConfidence
    ensures r.id == id && r.timestamp == timestamp
  {
    PredictionRecord(id, timestamp, req.expectedLabel, resp.predictedLabel, resp.confidence,
      resp.evaluation, resp.observation, resp.successRate, resp.averageConfidence)
  }

  class Predictor {
    var isLoading: bool
    const store: AppStore

    constructor (store: AppStore)
      ensures this.store == store && !isLoading
    {
      this.store := store;
      isLoading := false;
    }

    /** `predict`. `service` is `apiService.predict`, which may throw; `id` and
        `now` stand for `crypto.randomUUID()` and the clock. `loadingDuringCall`
        is the loading flag while the service runs. */
    method Predict(sequence: seq<seq<real>>, expected: Option<string>, nickname: string,
                   service: PredictionRequest -> Outcome<PredictionResponse>, id: string, now: int)
      returns (result: Option<PredictionResponse>, loadingDuringCall: bool)
      modifies this, store
      ensures loadingDuringCall && !isLoading
      ensures var req := MakeRequest(sequence, expected, old(store.labels), nickname);
        match service(req)
        case Returned(resp) =>
          result == Some(resp)
          && store.State() == old(store.State()).(records := [MakeRecord(req, resp, id, now)] + old(store.records))
        case Threw =>
          result.None? && store.State() == old(store.State())
    {
      isLoading := true;
      var req := MakeRequest(sequence, expected, store.labels, nickname);
      loadingDuringCall := isLoading;
      var outcome := service(req);
      if outcome.Returned? {
        store.AddRecord(MakeRecord(req, outcome.value, id, now));
        result := Some(outcome.value);
      } else {
        result := None;
      }
      isLoading := false;
    }
  }
}
