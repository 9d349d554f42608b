/**
 * Wire-tension routing: which of the two wire actuators the automatic
 * tension loop drives, which accept a manual feed command, and how the loop
 * output becomes an actuator speed.
 */
module Wire {
  import opened Wrappers
  import opened Rounding

  /** The two wire actuators. */
  datatype Actuator = Sender | Receiver

  /** The other actuator. */
  function OtherOf(a: Actuator): (b: Actuator)
    ensures b != a
  {
    match a
    case Sender => Receiver
    case Receiver => Sender
  }

  /** The primary actuator, fixed by the `sender_is_primary` option. */
  function PrimaryOf(senderIsPrimary: bool): (a: Actuator)
    ensures a == Sender <==> senderIsPrimary
  {
    if senderIsPrimary then Sender else Receiver
  }

  /** The actuator the automatic tension loop drives: the non-primary one. */
  function AutoTarget(senderIsPrimary: bool): (a: Actuator)
    ensures a != PrimaryOf(senderIsPrimary)
    ensures a == Receiver <==> senderIsPrimary
  {
    OtherOf(PrimaryOf(senderIsPrimary))
  }

  /**
   * The actuators a manual `SET_WIRE_FEED` sets: both while the tension loop
   * is off, only the primary one while it runs.
   */
  function ManualTargets(loopEnabled: bool, senderIsPrimary: bool): (s: set<Actuator>)
    ensures !loopEnabled ==> Sender in s && Receiver in s
    ensures loopEnabled ==> s == {PrimaryOf(senderIsPrimary)}
  {
    if loopEnabled then {PrimaryOf(senderIsPrimary)} else {Sender, Receiver}
  }

  /**
   * While the loop runs, the automatic output and the manual command never
   * drive the same actuator, and between them they cover both.
   */
  lemma SourcesNeverShareAnActuator(senderIsPrimary: bool, a: Actuator)
    ensures a !in ManualTargets(true, senderIsPrimary) <==> a == AutoTarget(senderIsPrimary)
  {
  }

  /** Loop output in `[0, 1]` scaled to the actuator's `0..255` range and rounded. */
  function TensionCommand(output: real): (speed: int)
    requires 0.0 <= output <= 1.0
    ensures 0 <= speed <= 255
    ensures output == 0.0 ==> speed == 0
    ensures output == 1.0 ==> speed == 255
  {
    var scaled := output * 255.0;
    RoundHalfEvenWithin(scaled, 0, 255);
    RoundHalfEvenOfInt(0);
    RoundHalfEvenOfInt(255);
    RoundHalfEven(scaled)
  }

  /**
   * `WireMover.set_speed` for an actuator with or without an executor: it
   * first asks the executor for the last move time (line 413) and only then
   * sets the pin; without one it raises there and records nothing.
   */
  function SetSpeedAsWritten(hasExecutor: bool, commands: seq<real>, speed: real): (r: Option<seq<real>>)
    ensures r.Some? <==> hasExecutor
    ensures r.Some? ==> r.value == commands + [speed]
  {
    if hasExecutor then Some(commands + [speed]) else None
  }

  /** A wire actuator (`WireMover`), as a sink recording each speed it was set to. */
  class WireMover {
    var commands: seq<real>

    constructor ()
      ensures commands == []
    {
      commands := [];
    }

    /** `set_speed`: the actuator's newest command is `speed`. */
    method SetSpeed(speed: real)
      modifies this`commands
      ensures commands == old(commands) + [speed]
    {
      commands := commands + [speed];
    }
  }
}
