/** hooks/use-daily-activity.ts: the activity of one day, read through a cache
    keyed by the UTC date, and the activity of every day of a range. The
    service call is a parameter: `service(day)` is what
    `apiService.getDailyActivity` resolves to for that day, or `Threw`. */
module DailyActivityHook {
  import opened Types

  /** The local fallback when the call throws: the date and zero counts. */
  function NoActivity(day: int): (a: DailyActivity)
    ensures a.date == day
    ensures a.totalPractices == 0 && a.correct == 0 && a.doubtful == 0 && a.incorrect == 0
  {
    DailyActivity(day, 0, 0, 0, 0)
  }

  /** What one uncached call yields for a day. */
  function Served(service: int -> Outcome<DailyActivity>, day: int): DailyActivity {
    if service(day).Returned? then service(day).value else NoActivity(day)
  }

  /** The cache holds only values the service returned for their own day; a
      failed call is never cached. */
  ghost predicate Faithful(cache: map<int, DailyActivity>, service: int -> Outcome<DailyActivity>) {
    forall d :: d in cache ==> service(d).Returned? && cache[d] == service(d).value
  }

  /** The number of days `getActivityRange` visits: one per day from the start
      while the date is not past the end. */
  function RangeLength(startMs: int, endMs: int): (n: nat)
    ensures startMs > endMs ==> n == 0
    ensures startMs <= endMs ==> startMs + (n - 1) * DayMs <= endMs < startMs + n * DayMs
  {
    if startMs > endMs then 0
    else
      var n := (endMs - startMs) / DayMs + 1;
      assert (n - 1) * DayMs <= endMs - startMs < n * DayMs;
      n
  }

  class ActivityTracker {
    var isLoading: bool
    var cache: map<int, DailyActivity>

    constructor ()
      ensures !isLoading && cache == map[]
    {
      isLoading := false;
      cache := map[];
    }

    /** `getDailyActivity(date)`: a cached day is returned without a call;
        otherwise the service is called, a returned value is cached, and a
        throw yields zero counts that are not cached. */
    method GetDailyActivity(dateMs: int, service: int -> Outcome<DailyActivity>)
      returns (a: DailyActivity, calledApi: bool)
      modifies this
      ensures DayOf(dateMs) in old(cache) ==>
        !calledApi && a == old(cache)[DayOf(dateMs)] && cache == old(cache) && isLoading == old(isLoading)
      ensures DayOf(dateMs) !in old(cache) ==>
        calledApi && !isLoading && a == Served(service, DayOf(dateMs))
        && cache == (if service(DayOf(dateMs)).Returned? then old(cache)[DayOf(dateMs) := a] else old(cache))
      ensures Faithful(old(cache), service) ==> Faithful(cache, service) && a == Served(service, DayOf(dateMs))
    {
      var day := DayOf(dateMs);
      if day in cache {
        return cache[day], false;
      }
      calledApi := true;
      isLoading := true;
      var outcome := service(day);
      if outcome.Returned? {
        a := outcome.value;
        cache := cache[day := a];
      } else {
        a := NoActivity(day);
      }
      isLoading := false;
    }

    /** `getActivityRange(start, end)`: one activity per day from the start up
        to the end inclusive, in order; none when the start is after the end. */
    method GetActivityRange(startMs: int, endMs: int, service: int -> Outcome<DailyActivity>)
      returns (activities: seq<DailyActivity>)
      modifies this
      ensures |activities| == RangeLength(startMs, endMs)
      ensures startMs > endMs ==> activities == [] && cache == old(cache)
      ensures Faithful(old(cache), service) ==>
        Faithful(cache, service)
        && forall i :: 0 <= i < |activities| ==> activities[i] == Served(service, DayOf(startMs) + i)
    {
      activities := [];
      var current := startMs;
      while current <= endMs
        invariant current == startMs + |activities| * DayMs
        invariant startMs <= endMs ==> current <= endMs + DayMs
        invariant startMs > endMs ==> activities == [] && cache == old(cache)
        invariant Faithful(old(cache), service) ==>
          Faithful(cache, service)
          && forall i :: 0 <= i < |activities| ==> activities[i] == Served(service, DayOf(startMs) + i)
        decreases endMs - current
      {
        var activity, _ := GetDailyActivity(current, service);
        DayShift(startMs, |activities|);
        activities := activities + [activity];
        current := current + DayMs;
      }
      var n := RangeLength(startMs, endMs);
      if startMs <= endMs {
        RangeCount(startMs, endMs, |activities|, n);
      }
    }
  }

  /** Only one count of whole days fits between the start and the end. */
  lemma RangeCount(startMs: int, endMs: int, m: nat, n: nat)
    requires startMs <= endMs
    requires startMs + (m - 1) * DayMs <= endMs < startMs + m * DayMs
    requires startMs + (n - 1) * DayMs <= endMs < startMs + n * DayMs
    ensures m == n
  {
  }
}
