/**
 * Heated-bed presence check. With the compile-time option
 * HEATED_BED_PRESENT_CHECK the bed is present exactly when BED_AVAIL_PIN
 * reads HIGH, and an absent bed goes to a removal handler that pauses the
 * print at most once per second of back-to-back calls; without the option
 * the bed is always reported present.
 */
module HeatedBed {
  import opened Marlin
  import RateLimit

  /** The handler acts only more than this many ms after its previous call. */
  const RemovedErrorInterval: nat := 1000

  const BedRemovedText := "Heated Bed Removed!"

  /** What an acted-on bed removal does: stop, heaters and steppers off, pause. */
  const PauseEffects: seq<Effect> :=
    [QuickStop, DisableAllHeaters, DisableAllSteppers, HostLine(BedRemovedText), HostLine(ActionPause)]

  /**
   * heatedBedRemovedError called at `now` after a previous call at `last`:
   * the pause sequence when rate-limited through, nothing otherwise. It
   * never kills and never touches `Running`.
   */
  function RemovedErrorEffects(now: nat, last: nat): (e: seq<Effect>)
    ensures KillCount(e) == 0
    ensures e != [] <==> now > last + RemovedErrorInterval
    ensures e != [] ==> |e| == 5 && e[..3] == [QuickStop, DisableAllHeaters, DisableAllSteppers] && e[|e| - 1] == HostLine(ActionPause)
  {
    if RateLimit.Acts(now, last, RemovedErrorInterval) then PauseEffects else []
  }

  /** One presence check: the answer, the handler's new stored time and what it did. */
  datatype CheckOutcome = CheckOutcome(present: bool, last: nat, effects: seq<Effect>)

  /** HeatedBed__PresentCheck, in both compile-time variants. */
  function PresentCheckSpec(checkEnabled: bool, pin: Level, now: nat, last: nat): (r: CheckOutcome)
    ensures !checkEnabled ==> r == CheckOutcome(true, last, [])
    ensures checkEnabled ==> (r.present <==> pin == High)
    ensures r.present ==> r.last == last && r.effects == []
    ensures !r.present ==> r.last == now && r.effects == RemovedErrorEffects(now, last)
  {
    if !checkEnabled then CheckOutcome(true, last, [])
    else if pin == High then CheckOutcome(true, last, [])
    else CheckOutcome(false, now, RemovedErrorEffects(now, last))
  }

  /** A run of presence checks at the given pin readings and times. */
  function CheckRun(checkEnabled: bool, pins: seq<Level>, times: seq<nat>, last: nat): (e: seq<Effect>)
    requires |pins| == |times|
    ensures KillCount(e) == 0
    ensures !checkEnabled ==> e == []
    decreases |pins|
  {
    if pins == [] then []
    else
      var r := PresentCheckSpec(checkEnabled, pins[0], times[0], last);
      var rest := CheckRun(checkEnabled, pins[1..], times[1..], r.last);
      KillCountAppend(r.effects, rest);
      r.effects + rest
  }

  /**
   * A bed held absent and checked at least once a second pauses the print
   * at most once, whatever happened before.
   */
  lemma {:induction false} HeldRemovalPausesAtMostOnce(checkEnabled: bool, times: seq<nat>, last: nat)
    requires forall k :: 0 < k < |times| ==> times[k] <= times[k - 1] + RemovedErrorInterval
    ensures LineCount(CheckRun(checkEnabled, seq(|times|, _ => Low), times, last), ActionPause)
            == (if checkEnabled then RateLimit.ActCount(times, last, RemovedErrorInterval) else 0)
    ensures LineCount(CheckRun(checkEnabled, seq(|times|, _ => Low), times, last), ActionPause) <= 1
  {
    RateLimit.HeldFaultActsAtMostOnce(times, last, RemovedErrorInterval);
    HeldRun(checkEnabled, times, last);
  }

  /** The pause count of a held-absent run follows the rate limit's count. */
  lemma {:induction false} HeldRun(checkEnabled: bool, times: seq<nat>, last: nat)
    ensures LineCount(CheckRun(checkEnabled, seq(|times|, _ => Low), times, last), ActionPause)
            == (if checkEnabled then RateLimit.ActCount(times, last, RemovedErrorInterval) else 0)
    decreases |times|
  {
    var pins := seq(|times|, _ => Low);
    if times != [] {
      var r := PresentCheckSpec(checkEnabled, pins[0], times[0], last);
      assert pins[1..] == seq(|times| - 1, _ => Low);
      HeldRun(checkEnabled, times[1..], r.last);
      LineCountAppend(r.effects, CheckRun(checkEnabled, pins[1..], times[1..], r.last), ActionPause);
      assert LineCount(PauseEffects, ActionPause) == 1 by {
        assert PauseEffects[..4][..3] == PauseEffects[..3];
      }
    }
  }

  /**
   * The bed interlock's state: the compile-time option and the static
   * `timeSinceLastRemoval` of the handler.
   */
  class BedMonitor {
    const checkEnabled: bool
    var lastRemoval: nat

    constructor (checkEnabled: bool)
      ensures this.checkEnabled == checkEnabled && lastRemoval == 0
    {
      this.checkEnabled := checkEnabled;
      lastRemoval := 0;
    }

    /** heatedBedRemovedError, called at `now`. */
    method HeatedBedRemovedError(m: Machine, now: nat)
      modifies this`lastRemoval, m`effects
      ensures lastRemoval == now
      ensures m.effects == old(m.effects) + RemovedErrorEffects(now, old(lastRemoval))
    {
      if now > lastRemoval + RemovedErrorInterval {
        m.effects := m.effects + [QuickStop, DisableAllHeaters, DisableAllSteppers];
        m.effects := m.effects + [HostLine(BedRemovedText)];
        m.effects := m.effects + [HostLine(ActionPause)];
      }
      lastRemoval := now;
    }

    /**
     * HeatedBed__PresentCheck with BED_AVAIL_PIN reading `pin` at `now`;
     * `Running` is never changed.
     */
    method PresentCheck(m: Machine, pin: Level, now: nat) returns (present: bool)
      modifies this`lastRemoval, m`effects
      ensures var r := PresentCheckSpec(checkEnabled, pin, now, old(lastRemoval));
              present == r.present && lastRemoval == r.last && m.effects == old(m.effects) + r.effects
    {
      if checkEnabled {
        present := false;
        if pin == High {
          present := true;
        } else {
          HeatedBedRemovedError(m, now);
        }
      } else {
        present := true;
      }
    }
  }
}
