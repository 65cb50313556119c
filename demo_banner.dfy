/** components/demo-mode-banner.tsx: the banner shown while the API is known
    to be offline, unless it was dismissed; dismissing persists, and a retry
    that finds the API online hides the banner and forgets the dismissal.
    The banner has its own status monitor (`useApiStatus`), so every check it
    sees goes through this class; the "demo-banner-dismissed" entry of
    `localStorage` is the field `stored`. */
module DemoBanner {
  import opened Types
  import Api
  import ApiStatusHook

  /** The value the dismissal is stored as. */
  const Dismissed := "true"

  /** The visibility the effect computes: offline and not dismissed. */
  predicate ShouldShow(isOnline: Option<bool>, stored: Option<string>) {
    isOnline == Some(false) && stored != Some(Dismissed)
  }

  class Banner {
    var isVisible: bool
    var isDismissed: bool
    var stored: Option<string>
    const monitor: ApiStatusHook.StatusMonitor

    /** The banner shows only while the last check failed and the dismissal is
        not stored. */
    ghost predicate Valid()
      reads this, monitor
    {
      isVisible ==> ShouldShow(monitor.isOnline, stored)
    }

    /** Mounting: the effect runs once with the status still unknown. */
    constructor (stored: Option<string>)
      ensures this.stored == stored && !isVisible && isDismissed == (stored == Some(Dismissed))
      ensures fresh(monitor) && monitor.isOnline.None? && monitor.lastChecked.None?
      ensures Valid()
    {
      this.stored := stored;
      isDismissed := stored == Some(Dismissed);
      isVisible := false;
      monitor := new ApiStatusHook.StatusMonitor();
    }

    /** The effect on `isOnline`: it runs only when the value changed. */
    method Sync(previous: Option<bool>)
      requires previous == monitor.isOnline ==> Valid()
      modifies this
      ensures previous != monitor.isOnline ==>
        isDismissed == (stored == Some(Dismissed)) && isVisible == ShouldShow(monitor.isOnline, stored)
      ensures previous == monitor.isOnline ==> isVisible == old(isVisible) && isDismissed == old(isDismissed)
      ensures stored == old(stored)
      ensures Valid()
    {
      if previous != monitor.isOnline {
        var dismissed := stored == Some(Dismissed);
        isDismissed := dismissed;
        isVisible := monitor.isOnline == Some(false) && !dismissed;
      }
    }

    /** A check by the mount effect or the five-minute interval. */
    method Poll(health: Api.Attempt, now: int)
      requires Valid()
      modifies this, monitor
      ensures monitor.isOnline == Some(Api.CheckHealth(health)) && stored == old(stored)
      ensures old(monitor.isOnline) != monitor.isOnline ==> isVisible == ShouldShow(monitor.isOnline, stored)
      ensures Valid()
    {
      var previous := monitor.isOnline;
      var _ := monitor.CheckStatus(health, now);
      Sync(previous);
    }

    /** `handleDismiss`. */
    method Dismiss()
      modifies this
      ensures !isVisible && isDismissed && stored == Some(Dismissed)
      ensures Valid()
    {
      isVisible := false;
      isDismissed := true;
      stored := Some(Dismissed);
    }

    /** `handleRetry`: a successful check hides the banner and removes the
        stored dismissal. */
    method Retry(health: Api.Attempt, now: int)
      requires Valid()
      modifies this, monitor
      ensures monitor.isOnline == Some(Api.CheckHealth(health))
      ensures Api.CheckHealth(health) ==> !isVisible && stored.None?
      ensures !Api.CheckHealth(health) ==> stored == old(stored)
      ensures Valid()
    {
      var previous := monitor.isOnline;
      var status := monitor.CheckStatus(health, now);
      if status {
        isVisible := false;
        stored := None;
      }
      Sync(previous);
    }
  }
}
