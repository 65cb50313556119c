/** components/history-table.tsx: the sort field and direction toggle, the
    comparator over a copy of the records, the friendly label of a cell and
    the choice between loading message, placeholder and table. `localeCompare`
    is a parameter. */
module HistoryTable {
  import opened Types
  import opened Seqs
  import LabelNames

  /** The record keys the table can sort on. */
  datatype Field = Timestamp | ExpectedLabel | PredictedLabel | Confidence | Evaluation
                 | SuccessRate | AverageConfidence | Observation | Id

  datatype Direction = Asc | Desc

  /** `handleSort`: the same field flips the direction, another field is
      selected descending. */
  function NextSort(field: Field, direction: Direction, clicked: Field): (r: (Field, Direction))
    ensures r.0 == clicked
    ensures clicked == field ==> r.1 != direction
    ensures clicked != field ==> r.1 == Desc
  {
    if clicked == field then (field, if direction == Asc then Desc else Asc)
    else (clicked, Desc)
  }

  /** Clicking the same header twice gives back the original order. */
  lemma SortTwice(field: Field, direction: Direction)
    ensures NextSort(NextSort(field, direction, field).0, NextSort(field, direction, field).1, field) == (field, direction)
  {
  }

  class SortState {
    var sortField: Field
    var sortDirection: Direction

    constructor ()
      ensures sortField == Timestamp && sortDirection == Desc
    {
      sortField, sortDirection := Timestamp, Desc;
    }

    method HandleSort(field: Field)
      modifies this
      ensures (sortField, sortDirection) == NextSort(old(sortField), old(sortDirection), field)
    {
      if sortField == field {
        sortDirection := if sortDirection == Asc then Desc else Asc;
      } else {
        sortField := field;
        sortDirection := Desc;
      }
    }
  }

  /** `a[field] || 0` for the numeric fields. */
  function NumericKey(r: PredictionRecord, f: Field): real
    requires f == Confidence || f == SuccessRate || f == AverageConfidence
  {
    match f
    case Confidence => r.confidence
    case SuccessRate => if r.successRate.Some? then r.successRate.value else 0.0
    case AverageConfidence => if r.averageConfidence.Some? then r.averageConfidence.value else 0.0
  }

  /** `String(a[field])` for the text fields. */
  function TextKey(r: PredictionRecord, f: Field): string
    requires f in {ExpectedLabel, PredictedLabel, Evaluation, Observation, Id}
  {
    match f
    case ExpectedLabel => r.expectedLabel
    case PredictedLabel => r.predictedLabel
    case Evaluation => r.evaluation
    case Observation => r.observation
    case Id => r.id
  }

  predicate IsNumeric(f: Field) {
    f == Confidence || f == SuccessRate || f == AverageConfidence
  }

  /** The comparator of `sortedRecords`: negative when a goes first. */
  function Compare(a: PredictionRecord, b: PredictionRecord, f: Field, d: Direction,
                   localeCompare: (string, string) -> int): real
  {
    if f == Timestamp then
      (if d == Asc then (a.timestamp - b.timestamp) as real else (b.timestamp - a.timestamp) as real)
    else if IsNumeric(f) then
      (if d == Asc then NumericKey(a, f) - NumericKey(b, f) else NumericKey(b, f) - NumericKey(a, f))
    else
      (if d == Asc then localeCompare(TextKey(a, f), TextKey(b, f)) as real
       else localeCompare(TextKey(b, f), TextKey(a, f)) as real)
  }

  /** Ascending is exactly descending with the arguments swapped. */
  lemma AscendingReversesDescending(a: PredictionRecord, b: PredictionRecord, f: Field,
                                    localeCompare: (string, string) -> int)
    ensures Compare(a, b, f, Asc, localeCompare) == Compare(b, a, f, Desc, localeCompare)
    ensures f != Timestamp && !IsNumeric(f) ==>
      Compare(a, b, f, Asc, localeCompare) == localeCompare(TextKey(a, f), TextKey(b, f)) as real
    ensures IsNumeric(f) ==> Compare(a, b, f, Desc, localeCompare) == -Compare(a, b, f, Asc, localeCompare)
  {
  }

  /** The comparator lets a stay before b. */
  function Before(f: Field, d: Direction, localeCompare: (string, string) -> int): (PredictionRecord, PredictionRecord) -> bool {
    (a: PredictionRecord, b: PredictionRecord) => Compare(a, b, f, d, localeCompare) <= 0.0
  }

  /** `[...safeRecords].sort(...)`: a sort of a copy. */
  function SortRecords(records: seq<PredictionRecord>, f: Field, d: Direction,
                       localeCompare: (string, string) -> int): seq<PredictionRecord> {
    SortBy(records, Before(f, d, localeCompare))
  }

  /** `localeCompare` orders any two strings one way or the other. */
  ghost predicate ComparesAll(localeCompare: (string, string) -> int) {
    forall x, y :: localeCompare(x, y) <= 0 || localeCompare(y, x) <= 0
  }

  /** The sorted table is a permutation of the records, ordered by the comparator. */
  lemma SortRecordsCorrect(records: seq<PredictionRecord>, f: Field, d: Direction,
                           localeCompare: (string, string) -> int)
    requires ComparesAll(localeCompare)
    ensures multiset(SortRecords(records, f, d, localeCompare)) == multiset(records)
    ensures |SortRecords(records, f, d, localeCompare)| == |records|
    ensures SortedBy(SortRecords(records, f, d, localeCompare), Before(f, d, localeCompare))
  {
    var le := Before(f, d, localeCompare);
    forall a, b ensures le(a, b) || le(b, a) {
      if f != Timestamp && !IsNumeric(f) {
        if d == Asc {
          assert localeCompare(TextKey(a, f), TextKey(b, f)) <= 0 || localeCompare(TextKey(b, f), TextKey(a, f)) <= 0;
        } else {
          assert localeCompare(TextKey(b, f), TextKey(a, f)) <= 0 || localeCompare(TextKey(a, f), TextKey(b, f)) <= 0;
        }
      }
    }
    SortByCorrect(records, le);
  }

  /** The initial order (timestamp, descending) shows the newest record first. */
  lemma DefaultOrderNewestFirst(records: seq<PredictionRecord>, localeCompare: (string, string) -> int)
    ensures |SortRecords(records, Timestamp, Desc, localeCompare)| == |records|
    ensures forall i :: 0 <= i < |SortRecords(records, Timestamp, Desc, localeCompare)| - 1 ==>
      SortRecords(records, Timestamp, Desc, localeCompare)[i].timestamp
      >= SortRecords(records, Timestamp, Desc, localeCompare)[i + 1].timestamp
  {
    var le := Before(Timestamp, Desc, localeCompare);
    assert Total(le);
    SortByCorrect(records, le);
    var s := SortRecords(records, Timestamp, Desc, localeCompare);
    forall i | 0 <= i < |s| - 1 ensures s[i].timestamp >= s[i + 1].timestamp {
      assert le(s[i], s[i + 1]);
    }
  }

  /** `friendlyLabel`: the friendly name when there is one, else the label
      itself; "-" only for an undefined label. */
  function FriendlyLabel(name: Option<string>): (s: string)
    ensures name.None? ==> s == "-"
    ensures name.Some? && name.value in LabelNames.FriendlyNames ==> s == LabelNames.FriendlyNames[name.value]
    ensures name.Some? && name.value !in LabelNames.FriendlyNames ==> s == name.value
  {
    assert "" !in LabelNames.FriendlyNames;
    var key := if name.Some? then name.value else "";
    var mapped := if key in LabelNames.FriendlyNames then Some(LabelNames.FriendlyNames[key]) else None;
    var chosen := if mapped.Some? && mapped.value != "" then mapped else name;
    if chosen.Some? then chosen.value else "-"
  }

  /** An empty label stays empty. */
  lemma EmptyLabelStaysEmpty()
    ensures FriendlyLabel(Some("")) == ""
  {
  }

  /** What the table renders. */
  datatype TableView = LoadingMessage | NoRecordsPlaceholder | Rows(rows: seq<PredictionRecord>)

  function View(isLoading: bool, records: seq<PredictionRecord>, f: Field, d: Direction,
                localeCompare: (string, string) -> int): (v: TableView)
    ensures isLoading ==> v == LoadingMessage
    ensures !isLoading && records == [] ==> v == NoRecordsPlaceholder
    ensures v.Rows? <==> !isLoading && records != []
  {
    if isLoading then LoadingMessage
    else if |records| == 0 then NoRecordsPlaceholder
    else Rows(SortRecords(records, f, d, localeCompare))
  }

  /** The rendered rows are every record exactly once, in the chosen order. */
  lemma ViewShowsEveryRecord(records: seq<PredictionRecord>, f: Field, d: Direction,
                             localeCompare: (string, string) -> int)
    requires ComparesAll(localeCompare)
    requires records != []
    ensures View(false, records, f, d, localeCompare).Rows?
    ensures multiset(View(false, records, f, d, localeCompare).rows) == multiset(records)
    ensures SortedBy(View(false, records, f, d, localeCompare).rows, Before(f, d, localeCompare))
  {
    SortRecordsCorrect(records, f, d, localeCompare);
  }
}
