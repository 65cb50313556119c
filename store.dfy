/** store/use-store.ts: the persisted application store. Setters that take a
    value which may not be an array, `addRecord`'s prepend, and the merge run
    when the persisted state is rehydrated. */
module Store {
  import opened Types

  /** A value that should be an array but comes from untyped code or storage. */
  datatype Arr<T> = Array(items: seq<T>) | NotArray

  /** `Array.isArray(v) ? v : []`. */
  function AsArray<T>(v: Arr<T>): (r: seq<T>)
    ensures v.Array? ==> r == v.items
    ensures v.NotArray? ==> r == []
  {
    if v.Array? then v.items else []
  }

  /** The data fields of the store. */
  datatype StoreState = StoreState(
    labels: seq<Label>,
    records: seq<PredictionRecord>,
    currentLabel: Option<Label>,
    isLoading: bool,
    error: Option<string>)

  /** `initialState`. */
  const InitialState := StoreState([], [], None, false, None)

  /** What storage holds: each key may be missing; `labels` and `records` may
      hold something that is not an array. */
  datatype Persisted = Persisted(
    labels: Option<Arr<Label>>,
    records: Option<Arr<PredictionRecord>>,
    currentLabel: Option<Option<Label>>,
    isLoading: Option<bool>,
    error: Option<Option<string>>)

  const NothingPersisted := Persisted(None, None, None, None, None)

  function Override<T>(persisted: Option<T>, current: T): T {
    if persisted.Some? then persisted.value else current
  }

  /** `merge`: persisted keys override the current ones, then `labels` and
      `records` are forced to arrays. */
  function Merge(p: Persisted, current: StoreState): (m: StoreState)
    ensures m.labels == (if p.labels.Some? then AsArray(p.labels.value) else current.labels)
    ensures m.records == (if p.records.Some? then AsArray(p.records.value) else current.records)
    ensures m.currentLabel == Override(p.currentLabel, current.currentLabel)
    ensures m.isLoading == Override(p.isLoading, current.isLoading)
    ensures m.error == Override(p.error, current.error)
  {
    StoreState(
      if p.labels.Some? then AsArray(p.labels.value) else current.labels,
      if p.records.Some? then AsArray(p.records.value) else current.records,
      Override(p.currentLabel, current.currentLabel),
      Override(p.isLoading, current.isLoading),
      Override(p.error, current.error))
  }

  /** Rehydrating twice from the same storage is the same as once. */
  lemma MergeIdempotent(p: Persisted, current: StoreState)
    ensures Merge(p, Merge(p, current)) == Merge(p, current)
  {
  }

  /** With nothing persisted the current state is kept as it is. */
  lemma MergeNothing(current: StoreState)
    ensures Merge(NothingPersisted, current) == current
  {
  }

  /** Everything persisted replaces the current state entirely. */
  lemma MergeEverything(labels: Arr<Label>, records: Arr<PredictionRecord>,
                        currentLabel: Option<Label>, isLoading: bool, error: Option<string>, current: StoreState)
    ensures Merge(Persisted(Some(labels), Some(records), Some(currentLabel), Some(isLoading), Some(error)), current)
      == StoreState(AsArray(labels), AsArray(records), currentLabel, isLoading, error)
  {
  }

  /** The store. Its fields are the data fields of `AppState`. */
  class AppStore {
    var labels: seq<Label>
    var records: seq<PredictionRecord>
    var currentLabel: Option<Label>
    var isLoading: bool
    var error: Option<string>

    function State(): StoreState
      reads this
    {
      StoreState(labels, records, currentLabel, isLoading, error)
    }

    constructor ()
      ensures State() == InitialState
    {
      labels, records, currentLabel, isLoading, error := [], [], None, false, None;
    }

    method SetLabels(v: Arr<Label>)
      modifies this
      ensures State() == old(State()).(labels := AsArray(v))
    {
      labels := AsArray(v);
    }

    method SetRecords(v: Arr<PredictionRecord>)
      modifies this
      ensures State() == old(State()).(records := AsArray(v))
    {
      records := AsArray(v);
    }

    method SetCurrentLabel(l: Option<Label>)
      modifies this
      ensures State() == old(State()).(currentLabel := l)
    {
      currentLabel := l;
    }

    /** `addRecord`: the new record first, then the old ones in their order;
        nothing else changes. */
    method AddRecord(r: PredictionRecord)
      modifies this
      ensures records == [r] + old(records)
      ensures |records| == |old(records)| + 1 && records[0] == r && records[1..] == old(records)
      ensures labels == old(labels) && currentLabel == old(currentLabel)
      ensures isLoading == old(isLoading) && error == old(error)
    {
      records := [r] + records;
    }

    method SetLoading(b: bool)
      modifies this
      ensures State() == old(State()).(isLoading := b)
    {
      isLoading := b;
    }

    method SetError(e: Option<string>)
      modifies this
      ensures State() == old(State()).(error := e)
    {
      error := e;
    }

    /** Rehydration from storage. */
    method Rehydrate(p: Persisted)
      modifies this
      ensures State() == Merge(p, old(State()))
    {
      var m := Merge(p, State());
      labels, records, currentLabel, isLoading, error := m.labels, m.records, m.currentLabel, m.isLoading, m.error;
    }
  }
}
