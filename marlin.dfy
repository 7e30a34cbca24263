/**
 * The firmware globals and the outside world that the interlocks act on.
 *
 * Everything the interlocks do to the machine (motion stop, heater and
 * stepper shutdown, kill, pin writes, I2C traffic, lines to the host) is
 * recorded as an `Effect` appended to the log of a `Machine`; the globals
 * `Running` and `SafetyCriticalSection` are its two flags.
 */
module Marlin {

  /** A digital pin level as `READ` returns it. */
  datatype Level = Low | High

  datatype Option<T> = None | Some(value: T)

  /** `uint8_t` and `uint16_t` of the source. */
  type byte = bv8
  type word = bv16

  /** The output pins the interlocks write. */
  datatype Pin = Cart1Sig1

  /** One externally observable action of the firmware. */
  datatype Effect =
    | QuickStop                                // quickStop(): flush the planner
    | DisableAllHeaters                        // disable_all_heaters()
    | DisableAllSteppers                       // disable_all_steppers()
    | Kill(reason: string)                     // kill(msg): halt until power cycle
    | HostLine(text: string)                   // one line on the serial port
    | ErrorLine(text: string)                  // SERIAL_ERROR_START, text, end of line
    | PressureReport(target: real, actual: real) // " Target Pressure .. Actual Pressure .."
    | PinWrite(pin: Pin, level: Level)         // WRITE(pin, level)
    | I2cWrite(address: byte, data: seq<byte>) // one Wire transmission
    | I2cRequest(address: byte, count: nat)    // Wire.requestFrom(address, count)
    | Delay(ms: nat)                           // delay(ms)

  /** The host protocol's action lines. */
  const ActionPause := "// action:pause"
  const ActionCancel := "// action:cancel"
  const ActionMessage := "// action:message "

  /** Number of `kill` calls in a log. */
  function KillCount(log: seq<Effect>): (n: nat)
    ensures n <= |log|
    ensures n == 0 <==> forall i :: 0 <= i < |log| ==> !log[i].Kill?
  {
    if log == [] then 0
    else KillCount(log[..|log| - 1]) + (if log[|log| - 1].Kill? then 1 else 0)
  }

  /** Number of times a given host line was sent. */
  function LineCount(log: seq<Effect>, text: string): (n: nat)
    ensures n <= |log|
    ensures n == 0 <==> HostLine(text) !in log
  {
    if log == [] then 0
    else LineCount(log[..|log| - 1], text) + (if log[|log| - 1] == HostLine(text) then 1 else 0)
  }

  lemma {:induction false} KillCountAppend(a: seq<Effect>, b: seq<Effect>)
    ensures KillCount(a + b) == KillCount(a) + KillCount(b)
    decreases |b|
  {
    if b == [] {
      assert a + b == a;
    } else {
      var b' := b[..|b| - 1];
      assert (a + b)[..|a + b| - 1] == a + b';
      KillCountAppend(a, b');
    }
  }

  lemma {:induction false} LineCountAppend(a: seq<Effect>, b: seq<Effect>, text: string)
    ensures LineCount(a + b, text) == LineCount(a, text) + LineCount(b, text)
    decreases |b|
  {
    if b == [] {
      assert a + b == a;
    } else {
      var b' := b[..|b| - 1];
      assert (a + b)[..|a + b| - 1] == a + b';
      LineCountAppend(a, b', text);
    }
  }

  /**
   * The globals `Running` (true at start-up) and `SafetyCriticalSection`
   * (false at start-up), and the log of everything the firmware did.
   */
  class Machine {
    var running: bool
    var safetyCritical: bool
    var effects: seq<Effect>

    constructor ()
      ensures running && !safetyCritical && effects == []
    {
      running := true;
      safetyCritical := false;
      effects := [];
    }
  }
}
