/**
 * The bottom navigation bar (`src/components/DreamBottomNav.tsx`): four tabs,
 * a floating action button whose mode (QR scan, print, biometric) is cycled
 * by a long press and which opens the matching panel, a "ghost" highlight
 * after biometric success, and the Depok zone status badge.
 *
 * Timers are explicit: each `setTimeout` the bar schedules is a pending timer
 * here, and its callback is a method the environment calls when it fires.
 * Long-press timers carry their ids (the browser's positive timer handles),
 * because `clearTimeout` cancels one by id; the label and ghost resets are
 * never cancelled, so only their number is kept.
 */
module DreamBottomNav {
  import opened JsStrings

  datatype Tab = Home | Activity | Notifications | Profile
  datatype FabMode = Qr | Printer | Biometric
  datatype DepokStatus = Secure | Warning | Offline

  /** The `modes` list the long-press timer cycles through. */
  const Modes: seq<FabMode> := [Qr, Printer, Biometric]

  /** `modes.indexOf(mode)`: every mode is in the list, so never -1. */
  function IndexOf(mode: FabMode): (i: nat)
    ensures i < |Modes| && Modes[i] == mode
  {
    match mode
    case Qr => 0
    case Printer => 1
    case Biometric => 2
  }

  /** The mode after one long press: `modes[(idx + 1) % modes.length]`. */
  function NextMode(mode: FabMode): FabMode {
    Modes[(IndexOf(mode) + 1) % |Modes|]
  }

  /** A long press moves qr to printer, printer to biometric and biometric back to qr. */
  lemma NextModeOrder()
    ensures NextMode(Qr) == Printer && NextMode(Printer) == Biometric && NextMode(Biometric) == Qr
  {
  }

  /** The mode after `k` completed long presses. */
  function CycleModes(mode: FabMode, k: nat): FabMode {
    if k == 0 then mode else NextMode(CycleModes(mode, k - 1))
  }

  /** Three long presses return to the starting mode; one or two never do. */
  lemma NextModeThreeCycle(mode: FabMode)
    ensures NextMode(mode) != mode && NextMode(NextMode(mode)) != mode
    ensures NextMode(NextMode(NextMode(mode))) == mode
  {
  }

  /** Three more presses after `k` give the mode after `k`. */
  lemma {:induction false} CycleModesShift(mode: FabMode, k: nat)
    ensures CycleModes(mode, k + 3) == CycleModes(mode, k)
  {
    var m := CycleModes(mode, k);
    assert CycleModes(mode, k + 1) == NextMode(m);
    assert CycleModes(mode, k + 2) == NextMode(NextMode(m));
    NextModeThreeCycle(m);
  }

  /** `3 * q` more presses after `r` give the mode after `r`. */
  lemma {:induction false} CycleModesRounds(mode: FabMode, q: nat, r: nat)
    ensures CycleModes(mode, 3 * q + r) == CycleModes(mode, r)
  {
    if q > 0 {
      CycleModesRounds(mode, q - 1, r);
      CycleModesShift(mode, 3 * (q - 1) + r);
    }
  }

  /** The cycle has period three: `k` long presses land where `k % 3` do. */
  lemma CycleModesPeriod(mode: FabMode, k: nat)
    ensures CycleModes(mode, k) == CycleModes(mode, k % 3)
  {
    CycleModesRounds(mode, k / 3, k % 3);
  }

  /** Any number of long presses returns to the starting mode exactly when it is a multiple of three. */
  lemma CycleModesReturn(mode: FabMode, k: nat)
    ensures CycleModes(mode, k) == mode <==> k % 3 == 0
  {
    CycleModesPeriod(mode, k);
    NextModeThreeCycle(mode);
    assert CycleModes(mode, 1) == NextMode(mode);
    assert CycleModes(mode, 2) == NextMode(NextMode(mode));
  }

  datatype StatusConfig = StatusConfig(color: string, text: string, icon: string)

  /** `getDepokStatusConfig`: the badge colour, text and icon for each status. */
  function DepokStatusConfig(status: DepokStatus): StatusConfig {
    match status
    case Secure => StatusConfig("bg-emerald-500", "Depok Zone Active", "🟢")
    case Warning => StatusConfig("bg-amber-500", "Network Anomaly", "🟠")
    case Offline => StatusConfig("bg-red-500", "Offline Mode", "🔴")
  }

  /** Each status has its own colour, its own text and its own icon. */
  lemma DepokStatusConfigDistinct(s: DepokStatus, t: DepokStatus)
    ensures DepokStatusConfig(s).color == DepokStatusConfig(t).color <==> s == t
    ensures DepokStatusConfig(s).text == DepokStatusConfig(t).text <==> s == t
    ensures DepokStatusConfig(s).icon == DepokStatusConfig(t).icon <==> s == t
  {
  }

  class Nav {
    var activeTab: Tab
    var fabMode: FabMode
    var isGhostActive: bool
    var depokStatus: DepokStatus
    var showModeLabel: bool
    var showQRScanner: bool
    var showPrinter: bool
    var showBiometric: bool
    /** The `longPressTimer` ref: the handle of the last long-press timer started, until a press end clears it. */
    var longPressTimer: Option<nat>
    /** Long-press timers scheduled and neither fired nor cleared. */
    var pendingLongPresses: set<nat>
    /** Mode-label resets (1.5 s) scheduled and not yet fired. */
    var pendingLabelResets: nat
    /** Ghost-mode resets (3 s) scheduled and not yet fired. */
    var pendingGhostResets: nat

    constructor ()
      ensures activeTab == Home && fabMode == Qr && !isGhostActive && depokStatus == Secure
      ensures !showModeLabel && !showQRScanner && !showPrinter && !showBiometric
      ensures longPressTimer.None? && pendingLongPresses == {}
      ensures pendingLabelResets == 0 && pendingGhostResets == 0
    {
      activeTab := Home;
      fabMode := Qr;
      isGhostActive := false;
      depokStatus := Secure;
      showModeLabel := false;
      showQRScanner := false;
      showPrinter := false;
      showBiometric := false;
      longPressTimer := None;
      pendingLongPresses := {};
      pendingLabelResets := 0;
      pendingGhostResets := 0;
    }

    /** The badge the bar shows for the current status. */
    function StatusBadge(): StatusConfig
      reads this
    {
      DepokStatusConfig(depokStatus)
    }

    /** `handleFabPress`: opens the panel of the current mode and no other. */
    method HandleFabPress()
      modifies this
      ensures showQRScanner == (old(showQRScanner) || fabMode == Qr)
      ensures showPrinter == (old(showPrinter) || fabMode == Printer)
      ensures showBiometric == (old(showBiometric) || fabMode == Biometric)
      ensures activeTab == old(activeTab) && fabMode == old(fabMode) && isGhostActive == old(isGhostActive)
      ensures depokStatus == old(depokStatus) && showModeLabel == old(showModeLabel)
      ensures longPressTimer == old(longPressTimer) && pendingLongPresses == old(pendingLongPresses)
      ensures pendingLabelResets == old(pendingLabelResets) && pendingGhostResets == old(pendingGhostResets)
    {
      if fabMode == Qr {
        showQRScanner := true;
      } else if fabMode == Printer {
        showPrinter := true;
      } else if fabMode == Biometric {
        showBiometric := true;
      }
    }

    /**
     * `handleFabLongPressStart` (touch start or mouse down): schedules an
     * 800 ms timer with the fresh handle `timer` and stores it in the ref,
     * overwriting, not clearing, any handle already there.
     */
    method HandleFabLongPressStart(timer: nat)
      requires timer > 0 && timer !in pendingLongPresses
      modifies this
      ensures longPressTimer == Some(timer)
      ensures pendingLongPresses == old(pendingLongPresses) + {timer}
      ensures activeTab == old(activeTab) && fabMode == old(fabMode) && isGhostActive == old(isGhostActive)
      ensures depokStatus == old(depokStatus) && showModeLabel == old(showModeLabel)
      ensures showQRScanner == old(showQRScanner) && showPrinter == old(showPrinter) &&
              showBiometric == old(showBiometric)
      ensures pendingLabelResets == old(pendingLabelResets) && pendingGhostResets == old(pendingGhostResets)
    {
      longPressTimer := Some(timer);
      pendingLongPresses := pendingLongPresses + {timer};
    }

    /**
     * A long-press timer fires: the mode advances one step, the mode label
     * shows and its 1.5 s reset is scheduled. The ref is left as it is.
     */
    method LongPressTimerFired(timer: nat)
      requires timer in pendingLongPresses
      modifies this
      ensures fabMode == NextMode(old(fabMode)) && showModeLabel
      ensures pendingLongPresses == old(pendingLongPresses) - {timer}
      ensures pendingLabelResets == old(pendingLabelResets) + 1
      ensures activeTab == old(activeTab) && isGhostActive == old(isGhostActive) && depokStatus == old(depokStatus)
      ensures showQRScanner == old(showQRScanner) && showPrinter == old(showPrinter) &&
              showBiometric == old(showBiometric)
      ensures longPressTimer == old(longPressTimer) && pendingGhostResets == old(pendingGhostResets)
    {
      fabMode := NextMode(fabMode);
      showModeLabel := true;
      pendingLabelResets := pendingLabelResets + 1;
      pendingLongPresses := pendingLongPresses - {timer};
    }

    /** A mode-label reset fires. */
    method ModeLabelTimerFired()
      requires pendingLabelResets > 0
      modifies this
      ensures !showModeLabel && pendingLabelResets == old(pendingLabelResets) - 1
      ensures activeTab == old(activeTab) && fabMode == old(fabMode) && isGhostActive == old(isGhostActive)
      ensures depokStatus == old(depokStatus)
      ensures showQRScanner == old(showQRScanner) && showPrinter == old(showPrinter) &&
              showBiometric == old(showBiometric)
      ensures longPressTimer == old(longPressTimer) && pendingLongPresses == old(pendingLongPresses)
      ensures pendingGhostResets == old(pendingGhostResets)
    {
      showModeLabel := false;
      pendingLabelResets := pendingLabelResets - 1;
    }

    /**
     * `handleFabLongPressEnd` (touch end, mouse up or mouse leave): cancels
     * the timer in the ref, if any, and empties the ref. A press released
     * within 800 ms therefore never changes the mode, and a second call
     * changes nothing.
     */
    method HandleFabLongPressEnd()
      modifies this
      ensures longPressTimer.None?
      ensures old(longPressTimer).Some? ==> pendingLongPresses == old(pendingLongPresses) - {old(longPressTimer).value}
      ensures old(longPressTimer).None? ==> pendingLongPresses == old(pendingLongPresses)
      ensures activeTab == old(activeTab) && fabMode == old(fabMode) && isGhostActive == old(isGhostActive)
      ensures depokStatus == old(depokStatus) && showModeLabel == old(showModeLabel)
      ensures showQRScanner == old(showQRScanner) && showPrinter == old(showPrinter) &&
              showBiometric == old(showBiometric)
      ensures pendingLabelResets == old(pendingLabelResets) && pendingGhostResets == old(pendingGhostResets)
    {
      if longPressTimer.Some? {
        pendingLongPresses := pendingLongPresses - {longPressTimer.value};
        longPressTimer := None;
      }
    }

    /** `handleBiometricSuccess`: the ghost highlight turns on and a 3 s reset is scheduled. */
    method HandleBiometricSuccess()
      modifies this
      ensures isGhostActive && pendingGhostResets == old(pendingGhostResets) + 1
      ensures activeTab == old(activeTab) && fabMode == old(fabMode) && depokStatus == old(depokStatus)
      ensures showModeLabel == old(showModeLabel)
      ensures showQRScanner == old(showQRScanner) && showPrinter == old(showPrinter) &&
              showBiometric == old(showBiometric)
      ensures longPressTimer == old(longPressTimer) && pendingLongPresses == old(pendingLongPresses)
      ensures pendingLabelResets == old(pendingLabelResets)
    {
      isGhostActive := true;
      pendingGhostResets := pendingGhostResets + 1;
    }

    /** A ghost reset fires, switching the highlight off even if a later success scheduled another. */
    method GhostTimerFired()
      requires pendingGhostResets > 0
      modifies this
      ensures !isGhostActive && pendingGhostResets == old(pendingGhostResets) - 1
      ensures activeTab == old(activeTab) && fabMode == old(fabMode) && depokStatus == old(depokStatus)
      ensures showModeLabel == old(showModeLabel)
      ensures showQRScanner == old(showQRScanner) && showPrinter == old(showPrinter) &&
              showBiometric == old(showBiometric)
      ensures longPressTimer == old(longPressTimer) && pendingLongPresses == old(pendingLongPresses)
      ensures pendingLabelResets == old(pendingLabelResets)
    {
      isGhostActive := false;
      pendingGhostResets := pendingGhostResets - 1;
    }

    /** A tab button. */
    method SelectTab(tab: Tab)
      modifies this
      ensures activeTab == tab
      ensures fabMode == old(fabMode) && isGhostActive == old(isGhostActive) && depokStatus == old(depokStatus)
      ensures showModeLabel == old(showModeLabel)
      ensures showQRScanner == old(showQRScanner) && showPrinter == old(showPrinter) &&
              showBiometric == old(showBiometric)
      ensures longPressTimer == old(longPressTimer) && pendingLongPresses == old(pendingLongPresses)
      ensures pendingLabelResets == old(pendingLabelResets) && pendingGhostResets == old(pendingGhostResets)
    {
      activeTab := tab;
    }

    /**
     * One tick of the 30 s health check, given the status it drew; how the
     * status is drawn at random is not modelled.
     */
    method HealthCheck(status: DepokStatus)
      modifies this
      ensures depokStatus == status && StatusBadge() == DepokStatusConfig(status)
      ensures activeTab == old(activeTab) && fabMode == old(fabMode) && isGhostActive == old(isGhostActive)
      ensures showModeLabel == old(showModeLabel)
      ensures showQRScanner == old(showQRScanner) && showPrinter == old(showPrinter) &&
              showBiometric == old(showBiometric)
      ensures longPressTimer == old(longPressTimer) && pendingLongPresses == old(pendingLongPresses)
      ensures pendingLabelResets == old(pendingLabelResets) && pendingGhostResets == old(pendingGhostResets)
    {
      depokStatus := status;
    }

    /** The QR scanner's `onClose`. */
    method CloseQRScanner()
      modifies this
      ensures !showQRScanner && showPrinter == old(showPrinter) && showBiometric == old(showBiometric)
      ensures activeTab == old(activeTab) && fabMode == old(fabMode) && isGhostActive == old(isGhostActive)
      ensures depokStatus == old(depokStatus) && showModeLabel == old(showModeLabel)
      ensures longPressTimer == old(longPressTimer) && pendingLongPresses == old(pendingLongPresses)
      ensures pendingLabelResets == old(pendingLabelResets) && pendingGhostResets == old(pendingGhostResets)
    {
      showQRScanner := false;
    }

    /** The printer panel's `onClose`. */
    method ClosePrinter()
      modifies this
      ensures !showPrinter && showQRScanner == old(showQRScanner) && showBiometric == old(showBiometric)
      ensures activeTab == old(activeTab) && fabMode == old(fabMode) && isGhostActive == old(isGhostActive)
      ensures depokStatus == old(depokStatus) && showModeLabel == old(showModeLabel)
      ensures longPressTimer == old(longPressTimer) && pendingLongPresses == old(pendingLongPresses)
      ensures pendingLabelResets == old(pendingLabelResets) && pendingGhostResets == old(pendingGhostResets)
    {
      showPrinter := false;
    }

    /** The biometric dialog's `onClose`. */
    method CloseBiometric()
      modifies this
      ensures !showBiometric && showQRScanner == old(showQRScanner) && showPrinter == old(showPrinter)
      ensures activeTab == old(activeTab) && fabMode == old(fabMode) && isGhostActive == old(isGhostActive)
      ensures depokStatus == old(depokStatus) && showModeLabel == old(showModeLabel)
      ensures longPressTimer == old(longPressTimer) && pendingLongPresses == old(pendingLongPresses)
      ensures pendingLabelResets == old(pendingLabelResets) && pendingGhostResets == old(pendingGhostResets)
    {
      showBiometric := false;
    }
  }

  /**
   * A press released before its timer fires leaves the mode, and everything
   * else but the emptied ref, as it was: the start's timer is cancelled by
   * the end, so it can no longer fire.
   */
  method ShortPress(nav: Nav, timer: nat)
    requires timer > 0 && timer !in nav.pendingLongPresses
    modifies nav
    ensures nav.fabMode == old(nav.fabMode) && nav.showModeLabel == old(nav.showModeLabel)
    ensures nav.pendingLongPresses == old(nav.pendingLongPresses) && nav.longPressTimer.None?
    ensures nav.pendingLabelResets == old(nav.pendingLabelResets)
  {
    nav.HandleFabLongPressStart(timer);
    nav.HandleFabLongPressEnd();
  }

  /**
   * Two starts before an end (a second finger's touch start, or a touch and
   * a real mouse press on a device with both): the end cancels only the
   * second timer, so the first still fires and the mode advances anyway.
   */
  method DoubleStartThenEnd(nav: Nav, first: nat, second: nat)
    requires first > 0 && second > 0 && first != second
    requires first !in nav.pendingLongPresses && second !in nav.pendingLongPresses
    modifies nav
    ensures first in nav.pendingLongPresses && second !in nav.pendingLongPresses
    ensures nav.longPressTimer.None? && nav.fabMode == old(nav.fabMode)
  {
    nav.HandleFabLongPressStart(first);
    nav.HandleFabLongPressStart(second);
    nav.HandleFabLongPressEnd();
  }
}
