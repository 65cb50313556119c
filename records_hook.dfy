/** hooks/use-records.ts: the history's conjunctive filters, their merge and
    reset, and the paged loading of records with the store as a cache.
    Timestamps and filter dates are milliseconds. */
module RecordsHook {
  import opened Types
  import opened Seqs
  import opened Store

  /** Records per page, as requested from the backend. */
  const PageSize := 50

  /** `FilterOptions`; an absent key is None. `sign` is the `label` key. */
  datatype Filters = Filters(
    sign: Option<string>,
    evaluation: Option<string>,
    dateFrom: Option<int>,
    dateTo: Option<int>)

  const NoFilters := Filters(None, None, None, None)

  /** A string filter is applied when it is truthy: present and not "". */
  predicate IsSet(v: Option<string>) {
    v.Some? && v.value != ""
  }

  predicate MatchesLabel(f: Filters, r: PredictionRecord) {
    !IsSet(f.sign) || r.expectedLabel == f.sign.value || r.predictedLabel == f.sign.value
  }

  predicate MatchesEvaluation(f: Filters, r: PredictionRecord) {
    !IsSet(f.evaluation) || r.evaluation == f.evaluation.value
  }

  predicate MatchesFrom(f: Filters, r: PredictionRecord) {
    f.dateFrom.None? || r.timestamp >= f.dateFrom.value
  }

  predicate MatchesTo(f: Filters, r: PredictionRecord) {
    f.dateTo.None? || r.timestamp <= f.dateTo.value
  }

  /** The reference condition: every filter that is set holds. */
  predicate Keep(f: Filters, r: PredictionRecord) {
    MatchesLabel(f, r) && MatchesEvaluation(f, r) && MatchesFrom(f, r) && MatchesTo(f, r)
  }

  /** `applyFilters`: the four filters one after the other, each only when set. */
  function ApplyFilters(data: seq<PredictionRecord>, f: Filters): seq<PredictionRecord> {
    var filtered := data;
    var filtered := if IsSet(f.sign) then Filter(filtered, r => MatchesLabel(f, r)) else filtered;
    var filtered := if IsSet(f.evaluation) then Filter(filtered, r => MatchesEvaluation(f, r)) else filtered;
    var filtered := if f.dateFrom.Some? then Filter(filtered, r => MatchesFrom(f, r)) else filtered;
    if f.dateTo.Some? then Filter(filtered, r => MatchesTo(f, r)) else filtered
  }

  /** A filter that is not set passes everything through. */
  lemma FilterIfSet<T>(s: seq<T>, on: bool, p: T -> bool, q: T -> bool, pq: T -> bool)
    requires !on ==> forall x :: p(x)
    requires forall i :: 0 <= i < |s| ==> pq(s[i]) == (q(s[i]) && p(s[i]))
    ensures (if on then Filter(Filter(s, q), p) else Filter(s, q)) == Filter(s, pq)
  {
    if on {
      FilterFilter(s, q, p, pq);
    } else {
      FilterExt(s, q, pq);
    }
  }

  /** The chain keeps exactly the records every set filter accepts, in order. */
  lemma ApplyFiltersIsConjunction(data: seq<PredictionRecord>, f: Filters)
    ensures ApplyFilters(data, f) == Filter(data, r => Keep(f, r))
  {
    var all := (r: PredictionRecord) => true;
    var l := (r: PredictionRecord) => MatchesLabel(f, r);
    var le := (r: PredictionRecord) => MatchesLabel(f, r) && MatchesEvaluation(f, r);
    var lef := (r: PredictionRecord) => MatchesLabel(f, r) && MatchesEvaluation(f, r) && MatchesFrom(f, r);
    var k := (r: PredictionRecord) => Keep(f, r);
    FilterAll(data, all);
    FilterIfSet(data, IsSet(f.sign), l, all, l);
    var s1 := if IsSet(f.sign) then Filter(data, l) else data;
    assert s1 == Filter(data, l);
    FilterIfSet(data, IsSet(f.evaluation), (r: PredictionRecord) => MatchesEvaluation(f, r), l, le);
    var s2 := if IsSet(f.evaluation) then Filter(s1, (r: PredictionRecord) => MatchesEvaluation(f, r)) else s1;
    assert s2 == Filter(data, le);
    FilterIfSet(data, f.dateFrom.Some?, (r: PredictionRecord) => MatchesFrom(f, r), le, lef);
    var s3 := if f.dateFrom.Some? then Filter(s2, (r: PredictionRecord) => MatchesFrom(f, r)) else s2;
    assert s3 == Filter(data, lef);
    FilterIfSet(data, f.dateTo.Some?, (r: PredictionRecord) => MatchesTo(f, r), lef, k);
  }

  /** The filtered list is an order-preserving subsequence of the input; a record
      of the input is in it exactly when it passes every set filter. */
  lemma ApplyFiltersCorrect(data: seq<PredictionRecord>, f: Filters)
    ensures IsSubsequence(ApplyFilters(data, f), data)
    ensures forall i :: 0 <= i < |ApplyFilters(data, f)| ==> Keep(f, ApplyFilters(data, f)[i])
    ensures forall i :: 0 <= i < |data| && Keep(f, data[i]) ==> data[i] in ApplyFilters(data, f)
  {
    ApplyFiltersIsConjunction(data, f);
    FilterIsSubsequence(data, r => Keep(f, r));
  }

  /** With no filters set the output is the input. */
  lemma NoFiltersKeepAll(data: seq<PredictionRecord>)
    ensures ApplyFilters(data, NoFilters) == data
  {
  }

  /** `Partial<FilterOptions>`: an outer None is a key that is not given; a
      given key may carry `undefined` (inner None). */
  datatype FilterUpdate = FilterUpdate(
    sign: Option<Option<string>>,
    evaluation: Option<Option<string>>,
    dateFrom: Option<Option<int>>,
    dateTo: Option<Option<int>>)

  const NoUpdate := FilterUpdate(None, None, None, None)

  function OverrideKey<T>(given: Option<T>, current: T): T {
    if given.Some? then given.value else current
  }

  /** `{ ...filters, ...newFilters }`. */
  function MergeFilters(f: Filters, u: FilterUpdate): (m: Filters)
    ensures u.sign.Some? ==> m.sign == u.sign.value
    ensures u.sign.None? ==> m.sign == f.sign
    ensures u.evaluation.Some? ==> m.evaluation == u.evaluation.value
    ensures u.evaluation.None? ==> m.evaluation == f.evaluation
    ensures u.dateFrom.Some? ==> m.dateFrom == u.dateFrom.value
    ensures u.dateFrom.None? ==> m.dateFrom == f.dateFrom
    ensures u.dateTo.Some? ==> m.dateTo == u.dateTo.value
    ensures u.dateTo.None? ==> m.dateTo == f.dateTo
  {
    Filters(OverrideKey(u.sign, f.sign), OverrideKey(u.evaluation, f.evaluation),
            OverrideKey(u.dateFrom, f.dateFrom), OverrideKey(u.dateTo, f.dateTo))
  }

  /** An empty update keeps the filters; applying an update twice is applying it once. */
  lemma MergeFiltersLaws(f: Filters, u: FilterUpdate)
    ensures MergeFilters(f, NoUpdate) == f
    ensures MergeFilters(MergeFilters(f, u), u) == MergeFilters(f, u)
  {
  }

  class RecordsLoader {
    var isLoading: bool
    var page: int
    var hasMore: bool
    var filteredRecords: seq<PredictionRecord>
    var filters: Filters
    const store: AppStore

    constructor (store: AppStore)
      ensures this.store == store
      ensures !isLoading && page == 1 && hasMore && filteredRecords == [] && filters == NoFilters
    {
      this.store := store;
      isLoading, page, hasMore, filteredRecords, filters := false, 1, true, [], NoFilters;
    }

    /** `fetchRecords(pageNum, append)`. `fetch(p)` is what `getRecords` resolves
        to for page p, None for a `null` body. `getRecords` itself never
        rejects, but logging `fetchedRecords.length` throws on `null`; the
        `catch` then returns [] and leaves the records and `hasMore` alone. */
    method FetchRecords(pageNum: int, append: bool, fetch: int -> Option<Arr<PredictionRecord>>)
      returns (result: seq<PredictionRecord>, calledApi: bool)
      modifies this, store
      ensures page == old(page) && filters == old(filters)
      ensures store.labels == old(store.labels) && store.currentLabel == old(store.currentLabel)
      ensures store.isLoading == old(store.isLoading) && store.error == old(store.error)
      ensures !append && old(store.records) != [] ==>
        !calledApi && result == old(store.records) && store.records == old(store.records)
        && filteredRecords == ApplyFilters(result, filters)
        && isLoading == old(isLoading) && hasMore == old(hasMore)
      ensures append || old(store.records) == [] ==> calledApi && !isLoading
      ensures (append || old(store.records) == []) && fetch(pageNum).None? ==>
        result == [] && store.records == old(store.records)
        && filteredRecords == old(filteredRecords) && hasMore == old(hasMore)
      ensures (append || old(store.records) == []) && fetch(pageNum).Some? ==>
        var fetched := AsArray(fetch(pageNum).value);
        && result == (if append then old(store.records) + fetched else fetched)
        && store.records == result
        && filteredRecords == ApplyFilters(result, filters)
        && hasMore == (|fetched| == PageSize)
    {
      if !append && |store.records| > 0 {
        filteredRecords := ApplyFilters(store.records, filters);
        return store.records, false;
      }
      calledApi := true;
      isLoading := true;
      var fetchedRecords := fetch(pageNum);
      if fetchedRecords.None? {
        isLoading := false;
        return [], true;
      }
      var safeRecords := AsArray(fetchedRecords.value);
      var allRecords := if append then store.records + safeRecords else safeRecords;
      store.SetRecords(Array(allRecords));
      filteredRecords := ApplyFilters(allRecords, filters);
      hasMore := |safeRecords| == PageSize;
      isLoading := false;
      result := allRecords;
    }

    /** `loadMoreRecords`: nothing while there is no further page or a load is
        running; otherwise the next page is fetched and appended. */
    method LoadMoreRecords(fetch: int -> Option<Arr<PredictionRecord>>)
      modifies this, store
      ensures !old(hasMore) || old(isLoading) ==>
        page == old(page) && hasMore == old(hasMore) && filteredRecords == old(filteredRecords)
        && store.State() == old(store.State())
      ensures old(hasMore) && !old(isLoading) ==> page == old(page) + 1 && !isLoading
      ensures old(hasMore) && !old(isLoading) && fetch(old(page) + 1).None? ==>
        store.records == old(store.records) && filteredRecords == old(filteredRecords) && hasMore
      ensures old(hasMore) && !old(isLoading) && fetch(old(page) + 1).Some? ==>
        var fetched := AsArray(fetch(old(page) + 1).value);
        && store.records == old(store.records) + fetched
        && filteredRecords == ApplyFilters(store.records, filters)
        && hasMore == (|fetched| == PageSize)
      ensures filters == old(filters)
    {
      if !hasMore || isLoading {
        return;
      }
      var nextPage := page + 1;
      page := nextPage;
      var _, _ := FetchRecords(nextPage, true, fetch);
    }

    /** `updateFilters`, together with the effect that re-applies the filters
        once they have changed. */
    method UpdateFilters(u: FilterUpdate)
      modifies this
      ensures filters == MergeFilters(old(filters), u)
      ensures filteredRecords == ApplyFilters(store.records, filters)
      ensures isLoading == old(isLoading) && page == old(page) && hasMore == old(hasMore)
    {
      filters := MergeFilters(filters, u);
      filteredRecords := ApplyFilters(store.records, filters);
    }

    /** `clearFilters`. */
    method ClearFilters()
      modifies this
      ensures filters == NoFilters && filteredRecords == store.records
      ensures filteredRecords == ApplyFilters(store.records, filters)
      ensures isLoading == old(isLoading) && page == old(page) && hasMore == old(hasMore)
    {
      filters := NoFilters;
      filteredRecords := store.records;
      NoFiltersKeepAll(store.records);
    }
  }
}
