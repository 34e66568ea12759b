/**
 * The connectivity banner (`src/components/OfflineIndicator.tsx`): an
 * "offline" banner while the browser is offline and a "reconnected" banner
 * for three seconds after it comes back.
 */
module OfflineIndicator {

  class Indicator {
    var isOnline: bool
    var showReconnected: bool
    /** Three-second reconnected-banner resets scheduled and not yet fired. */
    var pendingResets: nat

    /** The reconnected banner shows only while online. */
    ghost predicate Valid()
      reads this
    {
      showReconnected ==> isOnline
    }

    /** The offline banner is shown exactly while offline. */
    predicate ShowsOfflineBanner()
      reads this
    {
      !isOnline
    }

    /** In every state the handlers reach, the two banners are never shown together. */
    lemma BannersExclusive()
      requires Valid()
      ensures !(ShowsOfflineBanner() && showReconnected)
    {
    }

    /** Mounting: online as `navigator.onLine` says, no reconnected banner. */
    constructor (navigatorOnLine: bool)
      ensures Valid()
      ensures isOnline == navigatorOnLine && !showReconnected && pendingResets == 0
    {
      isOnline := navigatorOnLine;
      showReconnected := false;
      pendingResets := 0;
    }

    /** The `online` event: online, the reconnected banner shows, its reset is scheduled. */
    method HandleOnline()
      requires Valid()
      modifies this
      ensures Valid()
      ensures isOnline && showReconnected && pendingResets == old(pendingResets) + 1
    {
      isOnline := true;
      showReconnected := true;
      pendingResets := pendingResets + 1;
    }

    /** The `offline` event: offline, and the reconnected banner goes. */
    method HandleOffline()
      requires Valid()
      modifies this
      ensures Valid()
      ensures !isOnline && !showReconnected && pendingResets == old(pendingResets)
    {
      isOnline := false;
      showReconnected := false;
    }

    /** A reset fires: the reconnected banner goes, whatever happened since. */
    method ReconnectedTimerFired()
      requires Valid() && pendingResets > 0
      modifies this
      ensures Valid()
      ensures !showReconnected && isOnline == old(isOnline) && pendingResets == old(pendingResets) - 1
    {
      showReconnected := false;
      pendingResets := pendingResets - 1;
    }
  }
}
