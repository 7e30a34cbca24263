/**
 * Cartridge presence and removal interlock.
 *
 * Two cartridge slots (0 = FFF, 1 = silver) each carry a status PRESENT,
 * ABSENT or REMOVED, updated from the slot's presence pin. Slot 0's pin is
 * pulled low by default and reads HIGH with a cartridge in; slot 1's is
 * pulled high and reads LOW with a cartridge in. `CartridgeRemoved` reports
 * a removal through a 250-call hysteresis counter, and the removal error
 * handler pauses the print, or kills the machine inside a safety-critical
 * section, at a limited rate.
 */
module Cartridge {
  import opened Marlin
  import RateLimit

  datatype Status = Present | Absent | Removed

  const NumberOfCartridges: nat := 2
  const HysteresisCount: nat := 250
  const FffIndex: nat := 0
  const SilverIndex: nat := 1

  /** Whether slot `slot`'s presence pin, reading `level`, shows a cartridge. */
  function PinShowsPresent(slot: nat, level: Level): (present: bool)
    requires slot < NumberOfCartridges
    ensures slot == FffIndex ==> (present <==> level == High)
    ensures slot == SilverIndex ==> (present <==> level == Low)
  {
    if slot == FffIndex then level == High else level == Low
  }

  /**
   * cartridgeAbsentUpdate's status rule: only a present cartridge becomes
   * removed; absent stays absent and removed stays removed.
   */
  function AfterAbsentRead(s: Status): (t: Status)
    ensures s == Present ==> t == Removed
    ensures s == Absent ==> t == Absent
    ensures s == Removed ==> t == Removed
  {
    if s == Present then Removed else s
  }

  /** cartridgePresentUpdate's status rule: any status becomes present. */
  function AfterPresentRead(s: Status): (t: Status)
    ensures t == Present
  {
    Present
  }

  /** One slot's new status after a pin read. */
  function AfterRead(s: Status, present: bool): Status {
    if present then AfterPresentRead(s) else AfterAbsentRead(s)
  }

  /** updateCartridgeStatus on the two-slot status vector. */
  function Updated(st: seq<Status>, pin0: Level, pin1: Level): (u: seq<Status>)
    requires |st| == NumberOfCartridges
    ensures |u| == NumberOfCartridges
    ensures u[FffIndex] == Present <==> pin0 == High
    ensures u[SilverIndex] == Present <==> pin1 == Low
    ensures forall i :: 0 <= i < NumberOfCartridges && u[i] == Removed && st[i] != Removed ==> st[i] == Present
  {
    [AfterRead(st[0], PinShowsPresent(0, pin0)), AfterRead(st[1], PinShowsPresent(1, pin1))]
  }

  /** What cartridgeAbsentUpdate does outside the status array. */
  function AbsentEffects(slot: nat, s: Status): seq<Effect>
    requires slot < NumberOfCartridges
  {
    if s != Present then []
    else if slot == FffIndex then [HostLine("FFF Cartridge Removed")]
    else [PinWrite(Cart1Sig1, Low), HostLine("Silver Cartridge Removed")]
  }

  /** What cartridgePresentUpdate does outside the status array. */
  function PresentEffects(slot: nat, s: Status): seq<Effect>
    requires slot < NumberOfCartridges
  {
    if s == Present then []
    else if slot == FffIndex then [HostLine("FFF Cartridge Inserted")]
    else [HostLine("Silver Cartridge Inserted")]
  }

  function ReadEffects(slot: nat, s: Status, present: bool): seq<Effect>
    requires slot < NumberOfCartridges
  {
    if present then PresentEffects(slot, s) else AbsentEffects(slot, s)
  }

  /** What updateCartridgeStatus does outside the status array. */
  function UpdateEffects(st: seq<Status>, pin0: Level, pin1: Level): seq<Effect>
    requires |st| == NumberOfCartridges
  {
    ReadEffects(0, st[0], PinShowsPresent(0, pin0)) + ReadEffects(1, st[1], PinShowsPresent(1, pin1))
  }

  /**
   * The condition that re-arms the hysteresis counter: a slot is REMOVED,
   * or the FFF slot is not PRESENT (which also covers a start-up without
   * an FFF cartridge).
   */
  predicate Trigger(st: seq<Status>)
    requires |st| == NumberOfCartridges
  {
    Removed in st || st[FffIndex] != Present
  }

  /**
   * One step of CartridgeRemoved's counter: a trigger reloads it to 250;
   * a positive counter is decremented and the call reports a removal.
   */
  function HysteresisStep(counter: nat, trigger: bool): (r: (nat, bool))
    requires counter <= HysteresisCount
    ensures r.0 < HysteresisCount
    ensures r.1 <==> trigger || counter > 0
    ensures trigger ==> r.0 == HysteresisCount - 1
    ensures !trigger ==> r.0 == if counter > 0 then counter - 1 else 0
  {
    var c := if trigger then HysteresisCount else counter;
    if c > 0 then (c - 1, true) else (c, false)
  }

  /** What successive CartridgeRemoved calls report, given each call's trigger. */
  function HysteresisRun(counter: nat, triggers: seq<bool>): (reports: seq<bool>)
    requires counter <= HysteresisCount
    ensures |reports| == |triggers|
    decreases |triggers|
  {
    if triggers == [] then []
    else
      var (c, report) := HysteresisStep(counter, triggers[0]);
      [report] + HysteresisRun(c, triggers[1..])
  }

  /** `n` calls on which the trigger does not hold. */
  function Quiet(n: nat): (q: seq<bool>)
    ensures |q| == n && forall k :: 0 <= k < n ==> !q[k]
  {
    seq(n, _ => false)
  }

  /**
   * With no trigger, the k-th call reports a removal exactly while the
   * counter it started from still exceeds k: each call lowers it by one.
   */
  lemma {:induction false} QuietCountdown(counter: nat, n: nat)
    requires counter <= HysteresisCount
    ensures forall k :: 0 <= k < n ==> HysteresisRun(counter, Quiet(n))[k] == (k < counter)
  {
    if n > 0 {
      var (c, report) := HysteresisStep(counter, false);
      assert Quiet(n)[1..] == Quiet(n - 1);
      QuietCountdown(c, n - 1);
      forall k | 0 < k < n
        ensures HysteresisRun(counter, Quiet(n))[k] == (k < counter)
      {
        assert HysteresisRun(counter, Quiet(n))[k] == HysteresisRun(c, Quiet(n - 1))[k - 1];
      }
    }
  }

  /**
   * After the last call on which the trigger holds, CartridgeRemoved keeps
   * reporting a removal for exactly 249 more calls (calls 1 to 249 after
   * it) and then stops.
   */
  lemma ReportsForHysteresisWindow(counter: nat, n: nat)
    requires counter <= HysteresisCount
    ensures HysteresisRun(counter, [true] + Quiet(n))[0]
    ensures forall k :: 1 <= k <= n ==> HysteresisRun(counter, [true] + Quiet(n))[k] == (k < HysteresisCount)
  {
    var run := HysteresisRun(counter, [true] + Quiet(n));
    assert ([true] + Quiet(n))[1..] == Quiet(n);
    QuietCountdown(HysteresisCount - 1, n);
    assert run[1..] == HysteresisRun(HysteresisCount - 1, Quiet(n));
    forall k | 1 <= k <= n
      ensures run[k] == (k < HysteresisCount)
    {
      assert run[k] == run[1..][k - 1];
    }
  }

  /**
   * The unit-test scenario: one triggering call, then 248 quiet calls; the
   * next call (index 249) still reports a removal and the one after (index
   * 250) does not.
   */
  lemma HysteresisEdgeScenario(counter: nat)
    requires counter <= HysteresisCount
    ensures var run := HysteresisRun(counter, [true] + Quiet(HysteresisCount));
            run[0] && run[HysteresisCount - 1] && !run[HysteresisCount]
  {
    ReportsForHysteresisWindow(counter, HysteresisCount);
  }

  /**
   * After an update the counter is re-armed exactly when the FFF pin reads
   * LOW, or the silver pin reads HIGH on a slot that has been present since
   * start-up (ABSENT is never promoted to REMOVED).
   */
  lemma TriggerAfterUpdate(st: seq<Status>, pin0: Level, pin1: Level)
    requires |st| == NumberOfCartridges
    ensures Trigger(Updated(st, pin0, pin1)) <==> pin0 == Low || (pin1 == High && st[SilverIndex] != Absent)
  {
    var u := Updated(st, pin0, pin1);
    assert Removed in u <==> u[0] == Removed || u[1] == Removed;
  }

  /**
   * CART1_SIG1_PIN is driven LOW exactly on the silver slot's
   * PRESENT -> REMOVED transition, and no other pin write happens.
   */
  lemma SilverPinDrivenOnlyOnRemoval(st: seq<Status>, pin0: Level, pin1: Level)
    requires |st| == NumberOfCartridges
    ensures PinWrite(Cart1Sig1, Low) in UpdateEffects(st, pin0, pin1)
            <==> st[SilverIndex] == Present && Updated(st, pin0, pin1)[SilverIndex] == Removed
    ensures forall e :: e in UpdateEffects(st, pin0, pin1) && e.PinWrite? ==> e == PinWrite(Cart1Sig1, Low)
  {
    var e0 := ReadEffects(0, st[0], PinShowsPresent(0, pin0));
    var e1 := ReadEffects(1, st[1], PinShowsPresent(1, pin1));
    assert forall e :: e in e0 ==> e.HostLine?;
    assert UpdateEffects(st, pin0, pin1) == e0 + e1;
  }

  /** The state the removal error handler keeps across calls. */
  datatype HandlerState = HandlerState(last: nat, killed: bool, running: bool)

  /**
   * _cartridge_removed_error: outside the rate limit it does nothing; inside
   * a safety-critical section it reports the error while running and kills
   * once; otherwise it pauses. The call time is stored in every case.
   */
  function RemovedErrorStep(interval: nat, s: HandlerState, msg: string, now: nat, critical: bool)
    : (r: (HandlerState, seq<Effect>))
    ensures r.0.last == now
    ensures !RateLimit.Acts(now, s.last, interval) ==> r.1 == [] && r.0.killed == s.killed && r.0.running == s.running
    ensures KillCount(r.1) == if RateLimit.Acts(now, s.last, interval) && critical && !s.killed then 1 else 0
    ensures r.0.killed <==> s.killed || KillCount(r.1) == 1
    ensures r.0.running == (s.running && KillCount(r.1) == 0)
    ensures RateLimit.Acts(now, s.last, interval) && critical ==>
      && (ErrorLine(msg) in r.1 <==> s.running)
      && forall e :: e in r.1 ==> e == ErrorLine(msg) || e == Kill(msg)
    ensures RateLimit.Acts(now, s.last, interval) && !critical ==>
      && |r.1| == 5
      && r.1[..3] == [QuickStop, DisableAllHeaters, DisableAllSteppers]
      && r.1[3] == HostLine(msg)
      && r.1[|r.1| - 1] == HostLine(ActionPause)
  {
    if RateLimit.Acts(now, s.last, interval) then
      if critical then
        var report := if s.running then [ErrorLine(msg)] else [];
        if !s.killed then (HandlerState(now, true, false), report + [Kill(msg)])
        else (HandlerState(now, true, s.running), report)
      else
        (s.(last := now), [QuickStop, DisableAllHeaters, DisableAllSteppers, HostLine(msg), HostLine(ActionPause)])
    else
      (s.(last := now), [])
  }

  /** One call of the removal error handler. */
  datatype RemovalCall = RemovalCall(msg: string, now: nat, critical: bool)

  /** A sequence of removal-handler calls: the final state and everything done. */
  function RemovedErrorRun(interval: nat, s: HandlerState, calls: seq<RemovalCall>): (r: (HandlerState, seq<Effect>))
    ensures r.0.last == if calls == [] then s.last else calls[|calls| - 1].now
    decreases |calls|
  {
    if calls == [] then (s, [])
    else
      var (s', e) := RemovedErrorStep(interval, s, calls[0].msg, calls[0].now, calls[0].critical);
      var (s'', rest) := RemovedErrorRun(interval, s', calls[1..]);
      (s'', e + rest)
  }

  /** The times at which a run of handler calls is made. */
  function CallTimes(calls: seq<RemovalCall>): (t: seq<nat>)
    ensures |t| == |calls|
    ensures forall i :: 0 <= i < |calls| ==> t[i] == calls[i].now
  {
    seq(|calls|, i requires 0 <= i < |calls| => calls[i].now)
  }

  /**
   * Outside safety-critical sections the handler pauses the print on
   * exactly the calls the rate limit lets through. The message is not the
   * pause line itself, so only the pause line is counted.
   */
  lemma {:induction false} PausesFollowRateLimit(interval: nat, s: HandlerState, calls: seq<RemovalCall>)
    requires forall i :: 0 <= i < |calls| ==> !calls[i].critical && calls[i].msg != ActionPause
    ensures LineCount(RemovedErrorRun(interval, s, calls).1, ActionPause)
            == RateLimit.ActCount(CallTimes(calls), s.last, interval)
    decreases |calls|
  {
    if calls != [] {
      var c := calls[0];
      var (s', e) := RemovedErrorStep(interval, s, c.msg, c.now, c.critical);
      var (s'', rest) := RemovedErrorRun(interval, s', calls[1..]);
      PausesFollowRateLimit(interval, s', calls[1..]);
      assert CallTimes(calls)[1..] == CallTimes(calls[1..]);
      LineCountAppend(e, rest, ActionPause);
      if RateLimit.Acts(c.now, s.last, interval) {
        assert e == [QuickStop, DisableAllHeaters, DisableAllSteppers, HostLine(c.msg), HostLine(ActionPause)];
        assert LineCount(e, ActionPause) == 1 by {
          assert e[..4][..3] == e[..3];
        }
      }
    }
  }

  /**
   * A removal reported outside safety-critical sections and polled at least
   * once per interval pauses the print at most once: the handler's promise
   * to act once for calls in quick succession.
   */
  lemma HeldRemovalPausesAtMostOnce(interval: nat, s: HandlerState, calls: seq<RemovalCall>)
    requires forall i :: 0 <= i < |calls| ==> !calls[i].critical && calls[i].msg != ActionPause
    requires forall k :: 0 < k < |calls| ==> calls[k].now <= calls[k - 1].now + interval
    ensures LineCount(RemovedErrorRun(interval, s, calls).1, ActionPause) <= 1
  {
    PausesFollowRateLimit(interval, s, calls);
    RateLimit.HeldFaultActsAtMostOnce(CallTimes(calls), s.last, interval);
  }

  /**
   * Over any sequence of calls the handler calls `kill` at most once, and
   * not at all once the latch is set; the latch records whether it did.
   */
  lemma {:induction false} KillAtMostOnce(interval: nat, s: HandlerState, calls: seq<RemovalCall>)
    ensures KillCount(RemovedErrorRun(interval, s, calls).1) <= if s.killed then 0 else 1
    ensures RemovedErrorRun(interval, s, calls).0.killed
            <==> s.killed || KillCount(RemovedErrorRun(interval, s, calls).1) == 1
    decreases |calls|
  {
    if calls != [] {
      var (s', e) := RemovedErrorStep(interval, s, calls[0].msg, calls[0].now, calls[0].critical);
      var (s'', rest) := RemovedErrorRun(interval, s', calls[1..]);
      KillAtMostOnce(interval, s', calls[1..]);
      KillCountAppend(e, rest);
    }
  }

  /** Outside safety-critical sections the handler never kills and never clears `Running`. */
  lemma {:induction false} NoKillOutsideCriticalSection(interval: nat, s: HandlerState, calls: seq<RemovalCall>)
    requires forall i :: 0 <= i < |calls| ==> !calls[i].critical
    ensures KillCount(RemovedErrorRun(interval, s, calls).1) == 0
    ensures RemovedErrorRun(interval, s, calls).0.running == s.running
    ensures RemovedErrorRun(interval, s, calls).0.killed == s.killed
    decreases |calls|
  {
    if calls != [] {
      var (s', e) := RemovedErrorStep(interval, s, calls[0].msg, calls[0].now, calls[0].critical);
      var (s'', rest) := RemovedErrorRun(interval, s', calls[1..]);
      NoKillOutsideCriticalSection(interval, s', calls[1..]);
      KillCountAppend(e, rest);
    }
  }

  /**
   * The cartridge module's private state: the status array, the hysteresis
   * counter of CartridgeRemoved, and the handler's last-call time and kill
   * latch. `errInterval` is CARTRIDGE_REMOVED_ERR_INTERVAL.
   */
  class CartridgeMonitor {
    const errInterval: nat
    var status: array<Status>
    var hysteresis: nat
    var lastRemoval: nat
    var killed: bool

    ghost predicate Valid()
      reads this
    {
      status.Length == NumberOfCartridges && hysteresis <= HysteresisCount
    }

    /** Both slots start ABSENT, never PRESENT; counter, time and latch start cleared. */
    constructor (errInterval: nat)
      ensures Valid() && fresh(status)
      ensures status[..] == [Absent, Absent]
      ensures hysteresis == 0 && lastRemoval == 0 && !killed
      ensures this.errInterval == errInterval
    {
      this.errInterval := errInterval;
      status := new Status[NumberOfCartridges](_ => Absent);
      hysteresis := 0;
      lastRemoval := 0;
      killed := false;
    }

    /** cartridgeAbsentUpdate */
    method CartridgeAbsentUpdate(m: Machine, cart: nat)
      requires Valid() && cart < NumberOfCartridges
      modifies status, m`effects
      ensures status[..] == old(status[..])[cart := AfterAbsentRead(old(status[cart]))]
      ensures m.effects == old(m.effects) + AbsentEffects(cart, old(status[cart]))
    {
      if status[cart] == Present {
        status[cart] := Removed;
        if cart == FffIndex {
          m.effects := m.effects + [HostLine("FFF Cartridge Removed")];
        } else {
          // Prevents the silver extruder from being lowered unintentionally
          m.effects := m.effects + [PinWrite(Cart1Sig1, Low)];
          m.effects := m.effects + [HostLine("Silver Cartridge Removed")];
        }
      }
    }

    /** cartridgePresentUpdate */
    method CartridgePresentUpdate(m: Machine, cart: nat)
      requires Valid() && cart < NumberOfCartridges
      modifies status, m`effects
      ensures status[..] == old(status[..])[cart := AfterPresentRead(old(status[cart]))]
      ensures m.effects == old(m.effects) + PresentEffects(cart, old(status[cart]))
    {
      if status[cart] != Present {
        if cart == FffIndex {
          m.effects := m.effects + [HostLine("FFF Cartridge Inserted")];
        } else {
          m.effects := m.effects + [HostLine("Silver Cartridge Inserted")];
        }
      }
      status[cart] := Present;
    }

    /** updateCartridgeStatus: `pin0`, `pin1` are CART0_SIG2_PIN and CART1_SIG2_PIN. */
    method UpdateCartridgeStatus(m: Machine, pin0: Level, pin1: Level)
      requires Valid()
      modifies status, m`effects
      ensures status[..] == Updated(old(status[..]), pin0, pin1)
      ensures m.effects == old(m.effects) + UpdateEffects(old(status[..]), pin0, pin1)
    {
      // Cartridge zero is pulled low by default
      if pin0 == High {
        CartridgePresentUpdate(m, 0);
      } else {
        CartridgeAbsentUpdate(m, 0);
      }
      // Cartridge one is pulled high by default
      if pin1 == Low {
        CartridgePresentUpdate(m, 1);
      } else {
        CartridgeAbsentUpdate(m, 1);
      }
    }

    /** cartridgesRemovedCheck: whether any slot is REMOVED. */
    method CartridgesRemovedCheck() returns (found: bool)
      requires Valid()
      ensures found <==> Removed in status[..]
    {
      var i := 0;
      while i < NumberOfCartridges
        invariant 0 <= i <= NumberOfCartridges
        invariant Removed !in status[..i]
      {
        if status[i] == Removed {
          return true;
        }
        i := i + 1;
      }
      assert status[..i] == status[..];
      return false;
    }

    /** cartridgesPresentCheck: whether any slot is PRESENT. */
    method CartridgesPresentCheck() returns (found: bool)
      requires Valid()
      ensures found <==> Present in status[..]
    {
      var i := 0;
      while i < NumberOfCartridges
        invariant 0 <= i <= NumberOfCartridges
        invariant Present !in status[..i]
      {
        if status[i] == Present {
          return true;
        }
        i := i + 1;
      }
      assert status[..i] == status[..];
      return false;
    }

    /**
     * CartridgeRemoved: update from the pins, re-arm the counter on a
     * trigger, and report a removal while the counter is positive.
     */
    method CartridgeRemoved(m: Machine, pin0: Level, pin1: Level) returns (removed: bool)
      requires Valid()
      modifies status, this`hysteresis, m`effects
      ensures Valid()
      ensures status[..] == Updated(old(status[..]), pin0, pin1)
      ensures m.effects == old(m.effects) + UpdateEffects(old(status[..]), pin0, pin1)
      ensures (hysteresis, removed) == HysteresisStep(old(hysteresis), Trigger(status[..]))
    {
      removed := false;
      UpdateCartridgeStatus(m, pin0, pin1);
      var removedCondition := status[FffIndex] != Present;
      var anyRemoved := CartridgesRemovedCheck();
      if anyRemoved || removedCondition {
        hysteresis := HysteresisCount;
      }
      if hysteresis > 0 {
        hysteresis := hysteresis - 1;
        removed := true;
      }
    }

    /**
     * CartridgeRemovedFFF: true exactly when the FFF pin reads LOW; the
     * silver slot never affects the answer.
     */
    method CartridgeRemovedFff(m: Machine, pin0: Level, pin1: Level) returns (removed: bool)
      requires Valid()
      modifies status, m`effects
      ensures status[..] == Updated(old(status[..]), pin0, pin1)
      ensures m.effects == old(m.effects) + UpdateEffects(old(status[..]), pin0, pin1)
      ensures removed <==> pin0 == Low
    {
      UpdateCartridgeStatus(m, pin0, pin1);
      removed := status[FffIndex] != Present;
    }

    /** _cartridge_removed_error, called at time `now` (millis()). */
    method CartridgeRemovedError(m: Machine, msg: string, now: nat)
      requires Valid()
      modifies this`lastRemoval, this`killed, m`running, m`effects
      ensures Valid()
      ensures var (s, e) := RemovedErrorStep(errInterval, HandlerState(old(lastRemoval), old(killed), old(m.running)),
                                             msg, now, m.safetyCritical);
              && lastRemoval == s.last && killed == s.killed && m.running == s.running
              && m.effects == old(m.effects) + e
    {
      if now > lastRemoval + errInterval {
        if m.safetyCritical {
          if m.running {
            m.effects := m.effects + [ErrorLine(msg)];
          }
          if !killed {
            m.running := false;
            killed := true;
            m.effects := m.effects + [Kill(msg)];
          }
        } else {
          m.effects := m.effects + [QuickStop, DisableAllHeaters, DisableAllSteppers];
          m.effects := m.effects + [HostLine(msg)];
          m.effects := m.effects + [HostLine(ActionPause)];
        }
      }
      lastRemoval := now;
    }
  }

  /**
   * The unit-test start-up scenario: with the FFF pin LOW and the silver pin
   * HIGH neither slot is present; after the FFF pin goes HIGH and the silver
   * pin LOW both are.
   */
  method StartupScenario(m: Machine) returns (before: (bool, bool), after: (bool, bool))
    modifies m`effects
    ensures before == (false, false) && after == (true, true)
  {
    var c := new CartridgeMonitor(1000);
    c.UpdateCartridgeStatus(m, Low, High);
    before := (c.status[FffIndex] == Present, c.status[SilverIndex] == Present);
    c.UpdateCartridgeStatus(m, High, Low);
    after := (c.status[FffIndex] == Present, c.status[SilverIndex] == Present);
  }
}
