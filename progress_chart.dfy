/** components/progress-chart.tsx: `processData` buckets the per-sign progress
    items into the seven days ending today by the UTC date of their last
    attempt. A day is the number of whole days since the epoch, which is what
    the YYYY-MM-DD prefix of `toISOString` denotes. */
module ProgressChart {
  import opened Types

  /** One progress item; `lastAttempt` is None when the date string does not
      parse (then `toISOString` throws). */
  datatype ChartItem = ChartItem(
    totalAttempts: int,
    correctAttempts: int,
    doubtfulAttempts: int,
    incorrectAttempts: int,
    lastAttempt: Option<int>)

  /** One bar: its day and the four sums. */
  datatype Bucket = Bucket(day: int, correct: int, doubtful: int, incorrect: int, total: int)

  const Days := 7

  /** The day of bucket i: `subDays(now, 6 - i)`. */
  function BucketDay(now: int, i: int): int {
    DayOf(now - (6 - i) * DayMs)
  }

  /** The buckets cover today-6 .. today, one day each, in chronological order. */
  lemma BucketDays(now: int, i: int)
    ensures BucketDay(now, i) == DayOf(now) - 6 + i
  {
    DayShift(now, i - 6);
  }

  predicate OnDay(x: ChartItem, day: int) {
    x.lastAttempt.Some? && DayOf(x.lastAttempt.value) == day
  }

  /** The reference bucket for `day`: the sums over the items on that day. */
  function BucketFor(items: seq<ChartItem>, day: int): (b: Bucket)
    ensures b.day == day
  {
    if items == [] then Bucket(day, 0, 0, 0, 0)
    else
      var b := BucketFor(items[..|items| - 1], day);
      var x := items[|items| - 1];
      if OnDay(x, day) then
        Bucket(day, b.correct + x.correctAttempts, b.doubtful + x.doubtfulAttempts,
               b.incorrect + x.incorrectAttempts, b.total + x.totalAttempts)
      else b
  }

  /** Every item has a date that parses. */
  predicate AllDated(items: seq<ChartItem>) {
    forall i :: 0 <= i < |items| ==> items[i].lastAttempt.Some?
  }

  /** `processData`. Returns the seven buckets and `ok`, which is false when an
      undated item made `toISOString` throw. */
  method ProcessData(items: seq<ChartItem>, now: int) returns (days: array<Bucket>, ok: bool)
    ensures days.Length == Days
    ensures ok <==> AllDated(items)
    ensures ok ==> forall i :: 0 <= i < Days ==> days[i] == BucketFor(items, BucketDay(now, i))
  {
    days := new Bucket[Days](i => Bucket(BucketDay(now, i), 0, 0, 0, 0));
    forall i | 0 <= i < Days {
      BucketDays(now, i);
    }
    var k := 0;
    while k < |items|
      invariant 0 <= k <= |items|
      invariant AllDated(items[..k])
      invariant forall i :: 0 <= i < Days ==> days[i] == BucketFor(items[..k], BucketDay(now, i))
    {
      var item := items[k];
      assert items[..k + 1][..k] == items[..k] && items[..k + 1][k] == item;
      if item.lastAttempt.None? {
        assert !AllDated(items);
        return days, false;
      }
      var recordDay := DayOf(item.lastAttempt.value);
      var dayIndex := FindDay(days, recordDay);
      if dayIndex != -1 {
        var d := days[dayIndex];
        days[dayIndex] := Bucket(d.day, d.correct + item.correctAttempts, d.doubtful + item.doubtfulAttempts,
                                 d.incorrect + item.incorrectAttempts, d.total + item.totalAttempts);
      }
      k := k + 1;
    }
    assert items[..k] == items;
    ok := true;
  }

  /** `days.findIndex((day) => key(day) === recordDay)`. */
  method FindDay(days: array<Bucket>, d: int) returns (index: int)
    ensures -1 <= index < days.Length
    ensures index == -1 <==> forall i :: 0 <= i < days.Length ==> days[i].day != d
    ensures index != -1 ==> days[index].day == d && forall j :: 0 <= j < index ==> days[j].day != d
  {
    index := 0;
    while index < days.Length
      invariant 0 <= index <= days.Length
      invariant forall j :: 0 <= j < index ==> days[j].day != d
    {
      if days[index].day == d {
        return;
      }
      index := index + 1;
    }
    index := -1;
  }

  /** Sum of the totals of the seven buckets. */
  function WeekTotal(items: seq<ChartItem>, now: int): int {
    BucketFor(items, BucketDay(now, 0)).total + BucketFor(items, BucketDay(now, 1)).total
    + BucketFor(items, BucketDay(now, 2)).total + BucketFor(items, BucketDay(now, 3)).total
    + BucketFor(items, BucketDay(now, 4)).total + BucketFor(items, BucketDay(now, 5)).total
    + BucketFor(items, BucketDay(now, 6)).total
  }

  /** An item is in the window when its day is one of the seven. */
  predicate InWindow(x: ChartItem, now: int) {
    x.lastAttempt.Some? && DayOf(now) - 6 <= DayOf(x.lastAttempt.value) <= DayOf(now)
  }

  /** The sum of the totals of the items in the window. */
  function WindowTotal(items: seq<ChartItem>, now: int): int {
    if items == [] then 0
    else
      var x := items[|items| - 1];
      WindowTotal(items[..|items| - 1], now) + (if InWindow(x, now) then x.totalAttempts else 0)
  }

  /** Items outside the window contribute nothing: the bars add up to the
      totals of exactly the items in the window. */
  lemma {:induction false} WeekTotalIsWindowTotal(items: seq<ChartItem>, now: int)
    ensures WeekTotal(items, now) == WindowTotal(items, now)
  {
    forall i | 0 <= i < Days {
      BucketDays(now, i);
    }
    if items != [] {
      WeekTotalIsWindowTotal(items[..|items| - 1], now);
    }
  }
}
