/**
 * Electronic pressure regulator (E_REGULATOR): turns a pressure setpoint
 * into an MCP4725 DAC code, and a protection poll that compares the
 * measured output pressure with the setpoint. A reading outside the
 * tolerance band for longer than the protection time, or an output above
 * the pump's supply, is a fault: the handler stops motion, zeroes the
 * setpoint, turns heaters and steppers off, cancels the print on the host
 * and deactivates the regulator. Pressure faults never kill.
 *
 * Pressures are reals (psi); `pressureRegulator()` and `pressurePneumatic()`
 * are sampled once per call and passed in, as is `millis()`.
 */
module Regulator {
  import opened Marlin
  import Mcp4725

  /** The DAC counts for a pressure in psi: 33.5 counts per psi. */
  function Counts(psi: real): real {
    33.5 * psi
  }

  /** The configuration constants the regulator uses. */
  datatype Config = Config(
    regOffset: real,        // REG_OFFSET: pressure at DAC code 0
    regHysteresis: real,    // REG_HYSTERESIS: dead band of the regulator
    bandLow: real,          // REGULATOR_PROTECTION_BAND_LOW
    bandHigh: real,         // REGULATOR_PROTECTION_BAND_HIGH
    crossover: real,        // REGULATOR_BAND_CROSSOVER_PSI
    protectionTimeS: nat,   // REGULATOR_PROTECTION_TIME_S
    notPresent: real,       // REGULATOR_NOT_PRESENT_VALUE: reading of a missing regulator
    lowP: real)             // REGULATOR_LOW_P: least pump pressure for the above-pump rule

  /** The hysteresis is a non-negative dead band. */
  predicate ValidConfig(cfg: Config) {
    cfg.regHysteresis >= 0.0
  }

  /** The deviation time after which a band fault fires, in ms. */
  function ProtectionMs(cfg: Config): nat {
    cfg.protectionTimeS * 1000
  }

  /**
   * A `(uint16_t)` cast of a non-negative float: truncation toward zero,
   * kept to 16 bits.
   */
  function Uint16Cast(x: real): (r: nat)
    requires x >= 0.0
    ensures r < 65536
    ensures x < 65536.0 ==> r as real <= x < r as real + 1.0
  {
    x.Floor % 65536
  }

  /**
   * The DAC code Regulator__SetOutputPressure writes for `desired` while the
   * regulator reads `measured`: zero up to REG_OFFSET + REG_HYSTERESIS;
   * above it, the truncated code of the target shifted up by the hysteresis
   * when pressure must rise and down when it must fall; and zero when the
   * target equals the reading, which neither branch covers.
   */
  function DacCode(cfg: Config, desired: real, measured: real): (code: nat)
    requires ValidConfig(cfg)
    ensures code < 65536
    ensures desired <= cfg.regOffset + cfg.regHysteresis ==> code == 0
    ensures desired == measured ==> code == 0
    ensures desired > cfg.regOffset + cfg.regHysteresis && desired > measured
            && Counts(desired - cfg.regOffset + cfg.regHysteresis) < 65536.0
            ==> code as real <= Counts(desired - cfg.regOffset + cfg.regHysteresis) < code as real + 1.0
    ensures desired > cfg.regOffset + cfg.regHysteresis && desired < measured
            && Counts(desired - cfg.regOffset - cfg.regHysteresis) < 65536.0
            ==> code as real <= Counts(desired - cfg.regOffset - cfg.regHysteresis) < code as real + 1.0
  {
    if desired <= cfg.regOffset + cfg.regHysteresis then 0
    else if desired > measured then Uint16Cast(Counts(desired - cfg.regOffset + cfg.regHysteresis))
    else if desired < measured then Uint16Cast(Counts(desired - cfg.regOffset - cfg.regHysteresis))
    else 0
  }

  /**
   * For a fixed reading, a higher target never gives a lower code, as long
   * as neither target equals the reading and the codes stay in 16 bits.
   */
  lemma DacCodeMonotone(cfg: Config, measured: real, d1: real, d2: real)
    requires ValidConfig(cfg)
    requires d1 <= d2 && d1 != measured && d2 != measured
    requires Counts(d2 - cfg.regOffset + cfg.regHysteresis) < 65536.0
    ensures DacCode(cfg, d1, measured) <= DacCode(cfg, d2, measured)
  {
    var thr := cfg.regOffset + cfg.regHysteresis;
    if d1 > thr {
      var x1 := if d1 > measured then Counts(d1 - cfg.regOffset + cfg.regHysteresis)
                else Counts(d1 - cfg.regOffset - cfg.regHysteresis);
      var x2 := if d2 > measured then Counts(d2 - cfg.regOffset + cfg.regHysteresis)
                else Counts(d2 - cfg.regOffset - cfg.regHysteresis);
      assert 0.0 <= x1 <= x2 < 65536.0;
      assert DacCode(cfg, d1, measured) == x1.Floor && DacCode(cfg, d2, measured) == x2.Floor;
    }
  }

  /**
   * The code drops to zero when the target equals the reading: a target a
   * little below the reading gets a positive code, the reading itself none.
   */
  lemma DacCodeZeroAtReading()
    ensures var cfg := Config(0.0, 1.0, 5.0, 5.0, 50.0, 5, 100.0, 10.0);
            DacCode(cfg, 9.5, 10.0) == 284 && DacCode(cfg, 10.0, 10.0) == 0
  {
    var cfg := Config(0.0, 1.0, 5.0, 5.0, 50.0, 5, 100.0, 10.0);
    assert Counts(9.5 - 0.0 - 1.0) == 284.75;
  }

  /** The regulator's state: the file statics and pressure_protection's timer. */
  datatype RegState = RegState(target: real, active: bool, protections: bool, timer: nat)

  /** current_target_pressure = 0, regulator_active = false, protectionsActive = true, regulatorTimer = 0. */
  const InitialState := RegState(0.0, false, true, 0)

  /** Regulator__SetOutputPressure: the new state and the DAC transmission. */
  function SetOutput(cfg: Config, s: RegState, desired: real, measured: real): (r: (RegState, seq<Effect>))
    requires ValidConfig(cfg)
    ensures r.0 == s.(target := desired, active := true)
    ensures r.1 == [Mcp4725.DacWrite(Mcp4725.I2cAddress, DacWord(DacCode(cfg, desired, measured)))]
  {
    (s.(target := desired, active := true),
     [Mcp4725.DacWrite(Mcp4725.I2cAddress, DacWord(DacCode(cfg, desired, measured)))])
  }

  /** The DAC code as the `uint16_t` argument of DAC_write. */
  function DacWord(code: nat): word
    requires code < 65536
  {
    code as word
  }

  /** The fault classes, each with its message. */
  datatype Fault = AbovePump | NotPresent | Runaway | Leak

  /** The language.h message of each fault, by macro name. */
  function FaultMessage(f: Fault): string {
    match f
    case AbovePump => "MSG_T_PNEUMATICS_EREG_ABOVE_PUMP"
    case NotPresent => "MSG_T_PNEUMATICS_REMOVED"
    case Runaway => "MSG_T_PNEUMATICS_RUNAWAY"
    case Leak => "MSG_T_PNEUMATICS_LEAK"
  }

  /** The host line that names a fault. */
  function FaultLine(f: Fault): string {
    ActionMessage + FaultMessage(f)
  }

  /** Each fault has its own line. */
  lemma FaultLinesDistinct(f: Fault, g: Fault)
    ensures FaultLine(f) == FaultLine(g) <==> f == g
  {
    assert FaultLine(f)[|ActionMessage|..] == FaultMessage(f);
    assert FaultLine(g)[|ActionMessage|..] == FaultMessage(g);
  }

  /**
   * _regulator_error_handler: stop, set the output to 0 psi, heaters and
   * steppers off, name the fault (as a removed regulator whenever the
   * reading is at the not-present level), cancel, deactivate.
   */
  function ErrorHandler(cfg: Config, s: RegState, fault: Fault, pressure: real): (r: (RegState, seq<Effect>))
    requires ValidConfig(cfg)
    ensures r.0 == s.(target := 0.0, active := false)
    ensures |r.1| == 6 && r.1[0] == QuickStop && r.1[5] == HostLine(ActionCancel)
  {
    var (s1, dac) := SetOutput(cfg, s, 0.0, pressure);
    var shown := if pressure >= cfg.notPresent then NotPresent else fault;
    (s1.(active := false),
     [QuickStop] + dac + [DisableAllHeaters, DisableAllSteppers, HostLine(FaultLine(shown)), HostLine(ActionCancel)])
  }

  /**
   * What every fault does: it cancels the print exactly once and never
   * kills; it stops motion and turns heaters and steppers off; it names the
   * fault, or a removed regulator at the not-present reading; and, with a
   * non-negative offset plus hysteresis, it writes DAC code 0.
   */
  lemma HandlerStopsAndCancels(cfg: Config, s: RegState, fault: Fault, pressure: real)
    requires ValidConfig(cfg)
    ensures var e := ErrorHandler(cfg, s, fault, pressure).1;
      && KillCount(e) == 0
      && LineCount(e, ActionCancel) == 1
      && (forall i :: 0 <= i < |e| ==> !e[i].PressureReport?)
      && e[0] == QuickStop && DisableAllHeaters in e && DisableAllSteppers in e
      && HostLine(FaultLine(if pressure >= cfg.notPresent then NotPresent else fault)) in e
      && (cfg.regOffset + cfg.regHysteresis >= 0.0 ==> e[1] == Mcp4725.DacWrite(Mcp4725.I2cAddress, 0))
  {
    var e := ErrorHandler(cfg, s, fault, pressure).1;
    var shown := if pressure >= cfg.notPresent then NotPresent else fault;
    assert e[4] == HostLine(FaultLine(shown));
    assert FaultLine(shown)[10] != ActionCancel[10];

    assert e[..5][..4] == e[..4];
    assert LineCount(e[..5], ActionCancel) == 0;
  }

  /**
   * The handler names exactly one fault: the given one, or a removed
   * regulator at the not-present reading.
   */
  lemma HandlerNamesOneFault(cfg: Config, s: RegState, fault: Fault, pressure: real, g: Fault)
    requires ValidConfig(cfg)
    ensures HostLine(FaultLine(g)) in ErrorHandler(cfg, s, fault, pressure).1
            <==> g == (if pressure >= cfg.notPresent then NotPresent else fault)
  {
    var e := ErrorHandler(cfg, s, fault, pressure).1;
    var shown := if pressure >= cfg.notPresent then NotPresent else fault;
    FaultLinesDistinct(g, shown);
    assert FaultLine(g)[10] != ActionCancel[10];
    assert e == [e[0], e[1], e[2], e[3], HostLine(FaultLine(shown)), HostLine(ActionCancel)];
  }

  /** Width of the tolerance band: the narrow one up to the crossover pressure. */
  function BandWidth(cfg: Config, target: real): real {
    if target <= cfg.crossover then cfg.bandLow else cfg.bandHigh
  }

  /** The reading is under the band; the boundary counts as under. */
  predicate Under(cfg: Config, target: real, pressure: real) {
    pressure <= target - BandWidth(cfg, target)
  }

  /** The reading is over the band; the boundary counts as over. */
  predicate Over(cfg: Config, target: real, pressure: real) {
    pressure >= target + BandWidth(cfg, target)
  }

  predicate OutOfBand(cfg: Config, target: real, pressure: real) {
    Under(cfg, target, pressure) || Over(cfg, target, pressure)
  }

  /** The above-pump rule: output at or above a live supply, at the not-present level. */
  predicate AbovePumpCondition(cfg: Config, pressure: real, pump: real) {
    pressure >= pump && pump >= cfg.lowP && pressure >= cfg.notPresent
  }

  /** The class of a band fault. */
  function Classify(cfg: Config, target: real, pressure: real): (f: Fault)
    ensures f == NotPresent <==> pressure >= cfg.notPresent
    ensures f == Runaway <==> pressure < cfg.notPresent && Over(cfg, target, pressure)
    ensures f == Leak <==> pressure < cfg.notPresent && !Over(cfg, target, pressure)
  {
    if pressure >= cfg.notPresent then NotPresent
    else if Over(cfg, target, pressure) then Runaway
    else Leak
  }

  /**
   * The above-pump rule of pressure_protection: it fires at once, without
   * waiting for the timer.
   */
  function PumpRule(cfg: Config, s: RegState, pressure: real, pump: real): (r: (RegState, seq<Effect>))
    requires ValidConfig(cfg)
    ensures r.0.timer == s.timer && r.0.protections == s.protections
    ensures !AbovePumpCondition(cfg, pressure, pump) ==> r == (s, [])
    ensures AbovePumpCondition(cfg, pressure, pump) ==> r == ErrorHandler(cfg, s, AbovePump, pressure)
  {
    if AbovePumpCondition(cfg, pressure, pump) then ErrorHandler(cfg, s, AbovePump, pressure) else (s, [])
  }

  /**
   * The band rule of pressure_protection: a reading inside the band
   * restarts the timer; one outside it faults only once the timer is more
   * than the protection time old, reporting both pressures, and the fault
   * restarts the timer.
   */
  function BandRule(cfg: Config, s: RegState, target: real, pressure: real, now: nat): (r: (RegState, seq<Effect>))
    requires ValidConfig(cfg)
    ensures r.0.protections == s.protections
    ensures !OutOfBand(cfg, target, pressure) ==> r == (s.(timer := now), [])
    ensures OutOfBand(cfg, target, pressure) && now <= s.timer + ProtectionMs(cfg) ==> r == (s, [])
    ensures OutOfBand(cfg, target, pressure) && now > s.timer + ProtectionMs(cfg) ==>
            && r.0 == s.(target := 0.0, active := false, timer := now)
            && r.1 == [PressureReport(target, pressure)] + ErrorHandler(cfg, s, Classify(cfg, target, pressure), pressure).1
  {
    if OutOfBand(cfg, target, pressure) then
      if now > s.timer + ProtectionMs(cfg) then
        var (s1, e1) := ErrorHandler(cfg, s, Classify(cfg, target, pressure), pressure);
        (s1.(timer := now), [PressureReport(target, pressure)] + e1)
      else (s, [])
    else (s.(timer := now), [])
  }

  /**
   * pressure_protection with the target `target` and the reading
   * `pressure` at time `now`, the pump reading `pump`. The timer is first
   * initialised on its first use; an inactive regulator only restarts it.
   * The band check still runs after an above-pump fault in the same call.
   */
  function Protection(cfg: Config, s: RegState, target: real, pressure: real, pump: real, now: nat)
    : (r: (RegState, seq<Effect>))
    requires ValidConfig(cfg)
    ensures r.0.protections == s.protections
    ensures !s.active ==> r == (s.(timer := now), [])
    ensures s.active && !AbovePumpCondition(cfg, pressure, pump) && !OutOfBand(cfg, target, pressure)
            ==> r == (s.(timer := now), [])
    ensures PressureReport(target, pressure) in r.1 ==>
            && s.active && OutOfBand(cfg, target, pressure)
            && now > (if s.timer == 0 then now else s.timer) + ProtectionMs(cfg)
    ensures r.1 != [] ==> !r.0.active && r.0.target == 0.0
  {
    var s0 := s.(timer := if s.timer == 0 then now else s.timer);
    if !s0.active then (s0.(timer := now), [])
    else
      var (s1, e1) := PumpRule(cfg, s0, pressure, pump);
      var (s2, e2) := BandRule(cfg, s1, target, pressure, now);
      HandlerStopsAndCancels(cfg, s0, AbovePump, pressure);
      assert PressureReport(target, pressure) !in e1;
      assert e1 == [] ==> e1 + e2 == e2;
      (s2, e1 + e2)
  }

  /** An active regulator's protection call is the pump rule followed by the band rule. */
  lemma ProtectionComposes(cfg: Config, s: RegState, target: real, pressure: real, pump: real, now: nat)
    requires ValidConfig(cfg)
    requires s.active
    ensures var s0 := s.(timer := if s.timer == 0 then now else s.timer);
            var p := PumpRule(cfg, s0, pressure, pump);
            var b := BandRule(cfg, p.0, target, pressure, now);
            Protection(cfg, s, target, pressure, pump, now) == (b.0, p.1 + b.1)
  {
  }

  /**
   * The above-pump fault never names itself: its rule requires a reading
   * at the not-present level, at which the handler names a removed
   * regulator instead; any band fault in the same call does the same.
   */
  lemma AbovePumpShownAsRemoved(cfg: Config, s: RegState, target: real, pressure: real, pump: real, now: nat)
    requires ValidConfig(cfg)
    requires s.active && AbovePumpCondition(cfg, pressure, pump)
    ensures var e := Protection(cfg, s, target, pressure, pump, now).1;
            HostLine(FaultLine(NotPresent)) in e && HostLine(FaultLine(AbovePump)) !in e
  {
    var s0 := s.(timer := if s.timer == 0 then now else s.timer);
    var p := PumpRule(cfg, s0, pressure, pump);
    var b := BandRule(cfg, p.0, target, pressure, now);
    ProtectionComposes(cfg, s, target, pressure, pump, now);
    HandlerNamesOneFault(cfg, s0, AbovePump, pressure, NotPresent);
    HandlerNamesOneFault(cfg, s0, AbovePump, pressure, AbovePump);
    HandlerNamesOneFault(cfg, p.0, Classify(cfg, target, pressure), pressure, AbovePump);
    assert HostLine(FaultLine(AbovePump)) !in b.1;
  }

  /** Regulator__Update: protection runs only while protections are enabled. */
  function UpdateStep(cfg: Config, s: RegState, pressure: real, pump: real, now: nat): (r: (RegState, seq<Effect>))
    requires ValidConfig(cfg)
    ensures r.0.protections == s.protections
    ensures r.1 != [] ==> s.protections && s.active && !r.0.active && r.0.target == 0.0
  {
    if s.protections then Protection(cfg, s, s.target, pressure, pump, now) else (s, [])
  }

  /**
   * With protections disabled an update does nothing at all (the timer is
   * not touched); with the regulator inactive it only restarts the timer.
   */
  lemma UpdateGating(cfg: Config, s: RegState, pressure: real, pump: real, now: nat)
    requires ValidConfig(cfg)
    ensures !s.protections ==> UpdateStep(cfg, s, pressure, pump, now) == (s, [])
    ensures s.protections && !s.active ==> UpdateStep(cfg, s, pressure, pump, now) == (s.(timer := now), [])
  {
  }

  /** One poll of the regulator: both pressure readings and the time. */
  datatype Sample = Sample(pressure: real, pump: real, now: nat)

  /** Successive Regulator__Update calls with no setpoint in between. */
  function UpdateRun(cfg: Config, s: RegState, samples: seq<Sample>): (r: (RegState, seq<Effect>))
    requires ValidConfig(cfg)
    ensures r.0.protections == s.protections
    decreases |samples|
  {
    if samples == [] then (s, [])
    else
      var (s1, e1) := UpdateStep(cfg, s, samples[0].pressure, samples[0].pump, samples[0].now);
      var (s2, e2) := UpdateRun(cfg, s1, samples[1..]);
      (s2, e1 + e2)
  }

  /**
   * Once the regulator is inactive (after a fault, or before any setpoint)
   * no update does anything but restart the timer, until the next setpoint.
   */
  lemma {:induction false} InactiveRunQuiet(cfg: Config, s: RegState, samples: seq<Sample>)
    requires ValidConfig(cfg)
    requires !s.active
    ensures UpdateRun(cfg, s, samples).1 == []
    ensures !UpdateRun(cfg, s, samples).0.active && UpdateRun(cfg, s, samples).0.target == s.target
    decreases |samples|
  {
    if samples != [] {
      var (s1, e1) := UpdateStep(cfg, s, samples[0].pressure, samples[0].pump, samples[0].now);
      InactiveRunQuiet(cfg, s1, samples[1..]);
    }
  }

  /** A reading kept inside the band, below the pump, never faults however long it lasts. */
  lemma {:induction false} InBandRunQuiet(cfg: Config, s: RegState, samples: seq<Sample>)
    requires ValidConfig(cfg)
    requires forall k :: 0 <= k < |samples| ==>
      !OutOfBand(cfg, s.target, samples[k].pressure) && !AbovePumpCondition(cfg, samples[k].pressure, samples[k].pump)
    ensures UpdateRun(cfg, s, samples).1 == []
    ensures UpdateRun(cfg, s, samples).0.target == s.target
    decreases |samples|
  {
    if samples != [] {
      var (s1, e1) := UpdateStep(cfg, s, samples[0].pressure, samples[0].pump, samples[0].now);
      InBandRunQuiet(cfg, s1, samples[1..]);
    }
  }

  /**
   * No band fault within the protection time of a timer restart: polls
   * between `base` and `base + protection time`, from a timer restarted no
   * earlier than `base` and never above the pump, do nothing but move the
   * timer, whatever the readings.
   */
  lemma {:induction false} DeviationWindowQuiet(cfg: Config, s: RegState, base: nat, samples: seq<Sample>)
    requires ValidConfig(cfg)
    requires s.timer >= base
    requires forall k :: 0 <= k < |samples| ==>
      && base <= samples[k].now <= base + ProtectionMs(cfg)
      && !AbovePumpCondition(cfg, samples[k].pressure, samples[k].pump)
    ensures UpdateRun(cfg, s, samples).1 == []
    decreases |samples|
  {
    if samples != [] {
      var (s1, e1) := UpdateStep(cfg, s, samples[0].pressure, samples[0].pump, samples[0].now);
      assert s1.timer >= base && s1.target == s.target;
      DeviationWindowQuiet(cfg, s1, base, samples[1..]);
    }
  }

  /** Whether some poll comes later than `timer + protection time`. */
  predicate SomeLate(cfg: Config, timer: nat, samples: seq<Sample>) {
    exists k :: 0 <= k < |samples| && samples[k].now > timer + ProtectionMs(cfg)
  }

  /**
   * One poll of a deviation held outside the band: nothing until the timer
   * is older than the protection time, then one fault that cancels once.
   */
  lemma HeldDeviationStep(cfg: Config, s: RegState, x: Sample)
    requires ValidConfig(cfg)
    requires s.protections && s.active && s.timer != 0
    requires OutOfBand(cfg, s.target, x.pressure) && !AbovePumpCondition(cfg, x.pressure, x.pump)
    ensures var r := UpdateStep(cfg, s, x.pressure, x.pump, x.now);
            && (x.now <= s.timer + ProtectionMs(cfg) ==> r == (s, []))
            && (x.now > s.timer + ProtectionMs(cfg) ==> !r.0.active && LineCount(r.1, ActionCancel) == 1)
  {
    if x.now > s.timer + ProtectionMs(cfg) {
      var eh := ErrorHandler(cfg, s, Classify(cfg, s.target, x.pressure), x.pressure).1;
      HandlerStopsAndCancels(cfg, s, Classify(cfg, s.target, x.pressure), x.pressure);
      ProtectionComposes(cfg, s, s.target, x.pressure, x.pump, x.now);
      assert UpdateStep(cfg, s, x.pressure, x.pump, x.now).1 == [] + ([PressureReport(s.target, x.pressure)] + eh);
      LineCountAppend([PressureReport(s.target, x.pressure)], eh, ActionCancel);
    }
  }

  /**
   * A deviation held outside the band (below the pump) from a started timer
   * cancels the print exactly once if some poll comes after the protection
   * time, and never otherwise: the timer does not move while the deviation
   * lasts, and the fault leaves the regulator inactive.
   */
  lemma {:induction false} HeldDeviationFaultsOnce(cfg: Config, s: RegState, samples: seq<Sample>)
    requires ValidConfig(cfg)
    requires s.protections && s.active && s.timer != 0
    requires forall k :: 0 <= k < |samples| ==>
      OutOfBand(cfg, s.target, samples[k].pressure) && !AbovePumpCondition(cfg, samples[k].pressure, samples[k].pump)
    ensures LineCount(UpdateRun(cfg, s, samples).1, ActionCancel) == if SomeLate(cfg, s.timer, samples) then 1 else 0
    ensures SomeLate(cfg, s.timer, samples) ==> !UpdateRun(cfg, s, samples).0.active
    decreases |samples|
  {
    if samples != [] {
      var x := samples[0];
      var (s1, e1) := UpdateStep(cfg, s, x.pressure, x.pump, x.now);
      var (s2, e2) := UpdateRun(cfg, s1, samples[1..]);
      LineCountAppend(e1, e2, ActionCancel);
      HeldDeviationStep(cfg, s, x);
      if x.now > s.timer + ProtectionMs(cfg) {
        InactiveRunQuiet(cfg, s1, samples[1..]);
        assert SomeLate(cfg, s.timer, samples);
      } else {
        HeldDeviationFaultsOnce(cfg, s1, samples[1..]);
        assert SomeLate(cfg, s.timer, samples) <==> SomeLate(cfg, s.timer, samples[1..]) by {
          if SomeLate(cfg, s.timer, samples) {
            var k :| 0 <= k < |samples| && samples[k].now > s.timer + ProtectionMs(cfg);
            assert k > 0 && samples[1..][k - 1] == samples[k];
          }
          if SomeLate(cfg, s.timer, samples[1..]) {
            var k :| 0 <= k < |samples[1..]| && samples[1..][k].now > s.timer + ProtectionMs(cfg);
            assert samples[k + 1] == samples[1..][k];
          }
        }
      }
    }
  }

  /**
   * The runaway scenario: a 50 psi target held at 50 + band + 1 psi, below
   * the not-present level, cancels the print once, naming a runaway, as soon
   * as a poll comes after the protection time.
   */
  lemma HeldRunawayScenario(cfg: Config, s: RegState, late: Sample)
    requires ValidConfig(cfg)
    requires s == RegState(50.0, true, true, s.timer) && s.timer != 0
    requires late.pressure == 50.0 + BandWidth(cfg, 50.0) + 1.0 < cfg.notPresent
    requires late.now > s.timer + ProtectionMs(cfg)
    ensures var (s', e) := UpdateRun(cfg, s, [late]);
            && LineCount(e, ActionCancel) == 1
            && HostLine(FaultLine(Runaway)) in e
            && !s'.active && s'.target == 0.0
  {
    assert !AbovePumpCondition(cfg, late.pressure, late.pump);
    HeldDeviationFaultsOnce(cfg, s, [late]);
    assert SomeLate(cfg, s.timer, [late]);
    var (s1, e1) := UpdateStep(cfg, s, late.pressure, late.pump, late.now);
    assert UpdateRun(cfg, s, [late]).1 == e1 + [];
  }

  /**
   * The above-pump rule fires without waiting for the timer, and the band
   * check that follows in the same call can fire a second fault: two
   * cancels from one poll.
   */
  lemma AbovePumpAndBandFaultInOnePoll()
    ensures var cfg := Config(0.0, 1.0, 5.0, 5.0, 50.0, 5, 100.0, 10.0);
            var (s', e) := UpdateStep(cfg, RegState(50.0, true, true, 1), 120.0, 110.0, 10000);
            LineCount(e, ActionCancel) == 2 && HostLine(FaultLine(AbovePump)) !in e
  {
    var cfg := Config(0.0, 1.0, 5.0, 5.0, 50.0, 5, 100.0, 10.0);
    var s := RegState(50.0, true, true, 1);
    var p := PumpRule(cfg, s, 120.0, 110.0);
    var b := BandRule(cfg, p.0, 50.0, 120.0, 10000);
    ProtectionComposes(cfg, s, 50.0, 120.0, 110.0, 10000);
    AbovePumpShownAsRemoved(cfg, s, 50.0, 120.0, 110.0, 10000);
    var eb := ErrorHandler(cfg, p.0, NotPresent, 120.0).1;
    assert b.1 == [PressureReport(50.0, 120.0)] + eb;
    HandlerStopsAndCancels(cfg, s, AbovePump, 120.0);
    HandlerStopsAndCancels(cfg, p.0, NotPresent, 120.0);
    LineCountAppend(p.1, b.1, ActionCancel);
    LineCountAppend([PressureReport(50.0, 120.0)], eb, ActionCancel);
  }

  /**
   * The regulator's statics. `cfg` holds the configuration constants.
   * prev_target_pressure is declared by the source but never read.
   */
  class PressureRegulator {
    const cfg: Config
    var currentTarget: real
    var active: bool
    var protectionsActive: bool
    var timer: nat

    function State(): RegState
      reads this
    {
      RegState(currentTarget, active, protectionsActive, timer)
    }

    constructor (cfg: Config)
      requires ValidConfig(cfg)
      ensures this.cfg == cfg && State() == InitialState
    {
      this.cfg := cfg;
      currentTarget := 0.0;
      active := false;
      protectionsActive := true;
      timer := 0;
    }

    /** Regulator__SetOutputPressure while the regulator reads `measured`. */
    method SetOutputPressure(m: Machine, desired: real, measured: real)
      requires ValidConfig(cfg)
      modifies this`currentTarget, this`active, m`effects
      ensures State() == SetOutput(cfg, old(State()), desired, measured).0
      ensures m.effects == old(m.effects) + SetOutput(cfg, old(State()), desired, measured).1
    {
      var digital: nat := 0;
      active := true;
      currentTarget := desired;
      if desired <= cfg.regOffset + cfg.regHysteresis {
        digital := 0;
      } else if desired > measured {
        digital := Uint16Cast(Counts(desired - cfg.regOffset + cfg.regHysteresis));
      } else if desired < measured {
        digital := Uint16Cast(Counts(desired - cfg.regOffset - cfg.regHysteresis));
      }
      m.effects := m.effects + [Mcp4725.DacWrite(Mcp4725.I2cAddress, DacWord(digital))];
    }

    /** Regulator__SetPressureProtections */
    method SetPressureProtections(value: bool)
      modifies this`protectionsActive
      ensures State() == old(State()).(protections := value)
    {
      protectionsActive := value;
    }

    /** _regulator_error_handler */
    method RegulatorErrorHandler(m: Machine, fault: Fault, pressure: real)
      requires ValidConfig(cfg)
      modifies this`currentTarget, this`active, m`effects
      ensures State() == ErrorHandler(cfg, old(State()), fault, pressure).0
      ensures m.effects == old(m.effects) + ErrorHandler(cfg, old(State()), fault, pressure).1
    {
      m.effects := m.effects + [QuickStop];
      SetOutputPressure(m, 0.0, pressure);
      m.effects := m.effects + [DisableAllHeaters, DisableAllSteppers];
      var shown := fault;
      if pressure >= cfg.notPresent {
        shown := NotPresent;
      }
      m.effects := m.effects + [HostLine(ActionMessage + FaultMessage(shown)), HostLine(ActionCancel)];
      active := false;
    }

    /** The above-pump rule of pressure_protection. */
    method AbovePumpCheck(m: Machine, pressure: real, pump: real)
      requires ValidConfig(cfg)
      modifies this`currentTarget, this`active, m`effects
      ensures State() == PumpRule(cfg, old(State()), pressure, pump).0
      ensures m.effects == old(m.effects) + PumpRule(cfg, old(State()), pressure, pump).1
    {
      if pressure >= pump && pump >= cfg.lowP && pressure >= cfg.notPresent {
        RegulatorErrorHandler(m, AbovePump, pressure);
      }
    }

    /** The band rule of pressure_protection. */
    method BandCheck(m: Machine, target: real, pressure: real, now: nat)
      requires ValidConfig(cfg)
      modifies this`currentTarget, this`active, this`timer, m`effects
      ensures State() == BandRule(cfg, old(State()), target, pressure, now).0
      ensures m.effects == old(m.effects) + BandRule(cfg, old(State()), target, pressure, now).1
    {
      var band := if target <= cfg.crossover then cfg.bandLow else cfg.bandHigh;
      var under := pressure <= target - band;
      var over := pressure >= target + band;
      if over || under {
        if now > timer + cfg.protectionTimeS * 1000 {
          m.effects := m.effects + [PressureReport(target, pressure)];
          var fault := if pressure >= cfg.notPresent then NotPresent else if over then Runaway else Leak;
          assert fault == Classify(cfg, target, pressure);
          RegulatorErrorHandler(m, fault, pressure);
          timer := now;
        }
      } else {
        timer := now;
      }
    }

    /** pressure_protection */
    method PressureProtection(m: Machine, target: real, pressure: real, pump: real, now: nat)
      requires ValidConfig(cfg)
      modifies this`currentTarget, this`active, this`timer, m`effects
      ensures State() == Protection(cfg, old(State()), target, pressure, pump, now).0
      ensures m.effects == old(m.effects) + Protection(cfg, old(State()), target, pressure, pump, now).1
    {
      if timer == 0 {
        timer := now;
      }
      if active {
        ProtectionComposes(cfg, old(State()), target, pressure, pump, now);
        AbovePumpCheck(m, pressure, pump);
        BandCheck(m, target, pressure, now);
      } else {
        timer := now;
      }
    }

    /** Regulator__Update with the readings and time of this poll. */
    method Update(m: Machine, pressure: real, pump: real, now: nat)
      requires ValidConfig(cfg)
      modifies this`currentTarget, this`active, this`timer, m`effects
      ensures State() == UpdateStep(cfg, old(State()), pressure, pump, now).0
      ensures m.effects == old(m.effects) + UpdateStep(cfg, old(State()), pressure, pump, now).1
    {
      if protectionsActive {
        PressureProtection(m, currentTarget, pressure, pump, now);
      }
    }
  }
}
