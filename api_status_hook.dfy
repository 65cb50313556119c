/** hooks/use-api-status.ts: the status of the API, checked on mount, every
    five minutes and when the window regains focus at least a minute after
    the last check. Each check is one `Api.Attempt` answered at time `now`
    (milliseconds). */
module ApiStatusHook {
  import opened Types
  import Api

  /** The polling period: five minutes. */
  const PollMs := 5 * 60 * 1000

  /** A focus event re-checks only after more than one minute. */
  const FocusDebounceMs := 60 * 1000

  /** `!lastChecked || Date.now() - lastChecked.getTime() > 60 * 1000`. */
  predicate FocusRechecks(lastChecked: Option<int>, now: int) {
    lastChecked.None? || now - lastChecked.value > FocusDebounceMs
  }

  class StatusMonitor {
    var isOnline: Option<bool>
    var lastChecked: Option<int>

    constructor ()
      ensures isOnline.None? && lastChecked.None?
    {
      isOnline, lastChecked := None, None;
    }

    /** `checkStatus`, run on mount and by the five-minute interval. */
    method CheckStatus(health: Api.Attempt, now: int) returns (status: bool)
      modifies this
      ensures status == Api.CheckHealth(health)
      ensures isOnline == Some(status) && lastChecked == Some(now)
    {
      status := Api.CheckHealth(health);
      isOnline := Some(status);
      lastChecked := Some(now);
    }

    /** The focus handler. */
    method Focus(health: Api.Attempt, now: int) returns (checked: bool)
      modifies this
      ensures checked <==> FocusRechecks(old(lastChecked), now)
      ensures checked ==> isOnline == Some(Api.CheckHealth(health)) && lastChecked == Some(now)
      ensures !checked ==> isOnline == old(isOnline) && lastChecked == old(lastChecked)
    {
      checked := FocusRechecks(lastChecked, now);
      if checked {
        var _ := CheckStatus(health, now);
      }
    }
  }

  /** The first focus always checks; after a check at t, focus events up to a
      minute later do not, and any later one does. */
  lemma FocusDebounce(t: int, now: int)
    ensures FocusRechecks(None, now)
    ensures FocusRechecks(Some(t), now) <==> now > t + FocusDebounceMs
  {
  }
}
