/** hooks/use-labels.ts together with `getLabels` of lib/api.ts: the catalogue
    comes from the store when it is already there, otherwise from the backend,
    whose plain strings are turned into labels. */
module LabelsHook {
  import opened Types
  import Text
  import Api
  import opened Store

  const LoadError := "Error al cargar etiquetas"

  /** What `getLabels` resolves to: the backend's strings, or the fallback
      `DUMMY_LABELS` objects (which the hook nevertheless treats as strings). */
  datatype LabelsPayload = Names(names: seq<string>) | Objects(labels: seq<Label>)

  /** `getLabels`: `fetchWithFallback("/labels", …, DUMMY_LABELS)`. */
  function GetLabels(env: nat -> Api.Attempt, body: nat -> Option<seq<string>>): (p: LabelsPayload)
    ensures Api.Retry(env, 2).result.Failed? ==> p == Objects(Api.DummyLabels)
    ensures Api.Retry(env, 2).result.Delivered? && body(Api.Retry(env, 2).result.attempt).Some? ==>
      p == Names(body(Api.Retry(env, 2).result.attempt).value)
    ensures Api.Retry(env, 2).result.Delivered? && body(Api.Retry(env, 2).result.attempt).None? ==>
      p == Objects(Api.DummyLabels)
  {
    var wrapped := (k: nat) => if body(k).Some? then Some(Names(body(k).value)) else None;
    Api.FetchWithFallback(env, wrapped, Objects(Api.DummyLabels))
  }

  /** One backend string as a label: the id is the string, the name has every
      "_" replaced by a space, the description is empty. */
  function ToLabel(s: string): (l: Label)
    ensures l.id == s && |l.name| == |s| && l.description == ""
    ensures forall i :: 0 <= i < |s| ==> l.name[i] == (if s[i] == '_' then ' ' else s[i])
    ensures l.category.None? && l.difficulty.None?
  {
    Label(s, Text.ReplaceChar(s, '_', ' '), "", None, None)
  }

  /** For a backend string without spaces, the displayed name determines it:
      turning the spaces back into "_" gives the string again. */
  lemma ToLabelNameRoundTrip(s: string)
    requires forall i :: 0 <= i < |s| ==> s[i] != ' '
    ensures Text.ReplaceChar(ToLabel(s).name, ' ', '_') == s
  {
    var r := Text.ReplaceChar(ToLabel(s).name, ' ', '_');
    assert forall i :: 0 <= i < |s| ==> r[i] == s[i];
  }

  /** `fetchedLabels.map(...)`, in order. */
  function MapLabels(names: seq<string>): (ls: seq<Label>)
    ensures |ls| == |names|
    ensures forall i :: 0 <= i < |names| ==> ls[i] == ToLabel(names[i])
  {
    if names == [] then [] else [ToLabel(names[0])] + MapLabels(names[1..])
  }

  /** The ids of the mapped labels give back the backend's strings. */
  lemma MapLabelsIds(names: seq<string>)
    ensures seq(|names|, i requires 0 <= i < |names| => MapLabels(names)[i].id) == names
  {
  }

  /** The mapping applied to the payload: strings map; the fallback objects
      have no `replace` method, so a nonempty fallback throws. */
  function MapPayload(p: LabelsPayload): (r: Outcome<seq<Label>>)
    ensures p.Names? ==> r == Returned(MapLabels(p.names))
    ensures p.Objects? ==> (r.Threw? <==> p.labels != [])
    ensures r.Returned? ==> |r.value| == (if p.Names? then |p.names| else 0)
  {
    match p
    case Names(names) => Returned(MapLabels(names))
    case Objects(labels) => if labels == [] then Returned([]) else Threw
  }

  /** The backend being unreachable always ends on the error path. */
  lemma UnreachableMeansError(env: nat -> Api.Attempt, body: nat -> Option<seq<string>>)
    requires forall k :: 0 <= k <= 2 ==> !Api.IsOk(env(k))
    ensures MapPayload(GetLabels(env, body)).Threw?
  {
    Api.RetryCorrect(env, 2);
    assert Api.DummyLabels != [];
  }

  class LabelsLoader {
    var isLoading: bool
    const store: AppStore

    constructor (store: AppStore)
      ensures this.store == store && !isLoading
    {
      this.store := store;
      isLoading := false;
    }

    /** `fetchLabels`. `calledApi` says whether the backend was asked. */
    method FetchLabels(env: nat -> Api.Attempt, body: nat -> Option<seq<string>>)
      returns (result: seq<Label>, calledApi: bool)
      modifies this, store
      ensures old(store.labels) != [] ==>
        !calledApi && result == old(store.labels) && store.State() == old(store.State())
        && isLoading == old(isLoading)
      ensures old(store.labels) == [] ==> calledApi && !isLoading
      ensures old(store.labels) == [] ==>
        (match MapPayload(GetLabels(env, body))
         case Returned(ls) =>
           result == ls && store.State() == old(store.State()).(labels := ls, error := None)
         case Threw =>
           result == [] && store.State() == old(store.State()).(error := Some(LoadError)))
    {
      if |store.labels| > 0 {
        return store.labels, false;
      }
      calledApi := true;
      isLoading := true;
      var mapped := MapPayload(GetLabels(env, body));
      if mapped.Returned? {
        store.SetLabels(Array(mapped.value));
        store.SetError(None);
        result := mapped.value;
      } else {
        store.SetError(Some(LoadError));
        result := [];
      }
      isLoading := false;
    }
  }
}
