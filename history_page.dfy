/** The filter handlers of app/history/page.tsx: the selects map "all" to no
    filter, the date pickers keep a local date and only a picked date reaches
    the filters, and clearing resets both. */
module HistoryPage {
  import opened Types
  import opened RecordsHook

  /** A select's value as a filter: "all" clears it, anything else sets it. */
  function SelectFilter(value: string): (f: Option<string>)
    ensures f.None? <==> value == "all"
    ensures f.Some? ==> f.value == value
  {
    if value == "all" then None else Some(value)
  }

  class History {
    var fromDate: Option<int>
    var toDate: Option<int>
    const records: RecordsLoader

    constructor (records: RecordsLoader)
      ensures this.records == records && fromDate.None? && toDate.None?
    {
      this.records := records;
      fromDate, toDate := None, None;
    }

    /** `handleFromDateChange`. */
    method FromDateChange(date: Option<int>)
      modifies this, records
      ensures fromDate == date && toDate == old(toDate)
      ensures date.Some? ==> records.filters == old(records.filters).(dateFrom := date)
      ensures date.None? ==>
        records.filters == old(records.filters) && records.filteredRecords == old(records.filteredRecords)
      ensures date.Some? ==> records.filteredRecords == ApplyFilters(records.store.records, records.filters)
    {
      fromDate := date;
      if date.Some? {
        records.UpdateFilters(NoUpdate.(dateFrom := Some(date)));
      }
    }

    /** `handleToDateChange`. */
    method ToDateChange(date: Option<int>)
      modifies this, records
      ensures toDate == date && fromDate == old(fromDate)
      ensures date.Some? ==> records.filters == old(records.filters).(dateTo := date)
      ensures date.None? ==>
        records.filters == old(records.filters) && records.filteredRecords == old(records.filteredRecords)
      ensures date.Some? ==> records.filteredRecords == ApplyFilters(records.store.records, records.filters)
    {
      toDate := date;
      if date.Some? {
        records.UpdateFilters(NoUpdate.(dateTo := Some(date)));
      }
    }

    /** `handleLabelChange`. */
    method LabelChange(value: string)
      modifies records
      ensures records.filters == old(records.filters).(sign := SelectFilter(value))
      ensures records.filteredRecords == ApplyFilters(records.store.records, records.filters)
    {
      records.UpdateFilters(NoUpdate.(sign := Some(SelectFilter(value))));
    }

    /** `handleEvaluationChange`. */
    method EvaluationChange(value: string)
      modifies records
      ensures records.filters == old(records.filters).(evaluation := SelectFilter(value))
      ensures records.filteredRecords == ApplyFilters(records.store.records, records.filters)
    {
      records.UpdateFilters(NoUpdate.(evaluation := Some(SelectFilter(value))));
    }

    /** `handleClearFilters`. */
    method ClearFilters()
      modifies this, records
      ensures records.filters == NoFilters && records.filteredRecords == records.store.records
      ensures fromDate.None? && toDate.None?
    {
      records.ClearFilters();
      fromDate := None;
      toDate := None;
    }
  }
}
