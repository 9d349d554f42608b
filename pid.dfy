/**
 * The PID controllers (`simple_pid.PID`, a library not part of this model).
 * The control law itself is opaque: what the controller remembers is the
 * list of readings since its last reset, and the law maps that list to a raw
 * output that is then clamped to the output limits `(0, 1)` both controllers
 * are built with.
 */
module Pid {

  /** Proportional, integral and derivative gains (`tunings`). */
  datatype Gains = Gains(kp: real, ki: real, kd: real)

  /** One sample fed to the controller, with the gains and setpoint in force at that moment. */
  datatype Reading = Reading(gains: Gains, setpoint: real, input: real)

  /** The control law: the raw (unclamped) output after a run of readings since a reset. */
  type ControlLaw = seq<Reading> -> real

  /** `output_limits=(0, 1)`. */
  const OutputLower: real := 0.0
  const OutputUpper: real := 1.0

  /** Clamping to the output limits. */
  function Clamp(x: real, lo: real, hi: real): (r: real)
    requires lo <= hi
    ensures lo <= r <= hi
    ensures lo <= x <= hi ==> r == x
    ensures x < lo ==> r == lo
    ensures x > hi ==> r == hi
  {
    if x > hi then hi else if x < lo then lo else x
  }

  /** The controller's output after `history`: always within the output limits. */
  function LawOutput(law: ControlLaw, history: seq<Reading>): (out: real)
    ensures OutputLower <= out <= OutputUpper
  {
    Clamp(law(history), OutputLower, OutputUpper)
  }

  class PidController {
    var gains: Gains
    var setpoint: real
    /** Readings since the last reset: stands for the integral term, the last input and the last output. */
    var history: seq<Reading>
    const law: ControlLaw

    constructor (gains: Gains, setpoint: real, law: ControlLaw)
      ensures this.gains == gains && this.setpoint == setpoint && this.law == law
      ensures history == []
    {
      this.gains := gains;
      this.setpoint := setpoint;
      this.law := law;
      history := [];
    }

    /** `pid(input)`: record the reading and return the clamped output. */
    method Update(input: real) returns (out: real)
      modifies this`history
      ensures history == old(history) + [Reading(gains, setpoint, input)]
      ensures out == LawOutput(law, history)
      ensures OutputLower <= out <= OutputUpper
    {
      history := history + [Reading(gains, setpoint, input)];
      out := LawOutput(law, history);
    }

    /** `pid.reset()`: forget the integral and error history; setpoint and gains stay. */
    method Reset()
      modifies this`history
      ensures history == []
    {
      history := [];
    }
  }
}
