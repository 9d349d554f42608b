/**
 * The `PowerCore` object: the feed-scaling session and its move routing,
 * the feed range, and the wire-tension loop with its two actuators.
 */
module PowerCoreModel {
  import opened Wrappers
  import opened Segmentation
  import opened Pid
  import opened Motion
  import opened Wire

  /** The configuration options the core reads at start-up. */
  datatype Config = Config(
    targetDutyCycle: real,
    minFeedrate: real,           // mm/min
    maxFeedrate: real,           // mm/min
    adjustmentAccel: real,
    feedrateGains: Gains,
    moveSplitDist: real,         // mm
    moveOverlapTime: real,       // s
    defaultWireTensionTarget: real,
    wireGains: Gains,
    senderIsPrimary: bool)

  /** The option defaults. */
  const DefaultConfig: Config := Config(
    0.75, 6.0, 120.0, 5000.0, Gains(0.1, 0.0, 0.0),
    0.1, 0.001, 0.0, Gains(0.1, 0.0, 0.0), true)

  /** The bounds the option parser enforces (`minval`, `maxval`, `above`). */
  predicate ValidConfig(c: Config)
  {
    0.0 <= c.targetDutyCycle <= 1.0 &&
    1.0 <= c.minFeedrate <= c.maxFeedrate &&
    c.adjustmentAccel > 0.0 &&
    c.moveSplitDist > 0.0
  }

  /** What the core reports to the operator and the rest of the machine. */
  datatype Notice =
    | FeedRangeRejected(minFeedrate: real, maxFeedrate: real)  // `respond_error` of SET_POWERCORE_FEED_RANGE
    | MoveErrorReported                                         // `_respond_error` in `execute_moves`
    | CommandErrorEvent                                         // the `gcode:command_error` event

  /** The command dispatcher and printer, as a sink recording what the core reported to them. */
  class Reporter {
    var notices: seq<Notice>

    constructor ()
      ensures notices == []
    {
      notices := [];
    }

    /** Report `ns`, in order. */
    method Emit(ns: seq<Notice>)
      modifies this`notices
      ensures notices == old(notices) + ns
    {
      notices := notices + ns;
    }
  }

  /** How a move request ends: normally, or with an exception that escapes `move`. */
  datatype MoveOutcome = Done | Raised(fault: Fault)

  /** A feed range `(min_feedrate, max_feedrate)`, mm/min. */
  datatype FeedRange = FeedRange(minFeedrate: real, maxFeedrate: real)

  /**
   * SET_POWERCORE_FEED_RANGE: each missing argument defaults to the current
   * value; the new pair is refused exactly when MIN > MAX.
   */
  function UpdateFeedRange(cur: FeedRange, min: Option<real>, max: Option<real>): (r: Result<FeedRange, FeedRange>)
    ensures var asked := FeedRange(min.GetOr(cur.minFeedrate), max.GetOr(cur.maxFeedrate));
      (r.Success? <==> asked.minFeedrate <= asked.maxFeedrate) &&
      (r.Success? ==> r.value == asked) &&
      (r.Failure? ==> r.error == asked)
  {
    var lo := min.GetOr(cur.minFeedrate);
    var hi := max.GetOr(cur.maxFeedrate);
    if lo > hi then Failure(FeedRange(lo, hi)) else Success(FeedRange(lo, hi))
  }

  /** The feed range stays ordered: an accepted update is ordered, a refused one keeps `cur`. */
  lemma FeedRangeStaysOrdered(cur: FeedRange, min: Option<real>, max: Option<real>)
    requires cur.minFeedrate <= cur.maxFeedrate
    ensures var next := match UpdateFeedRange(cur, min, max)
                        case Success(range) => range
                        case Failure(_) => cur;
      next.minFeedrate <= next.maxFeedrate
  {
  }

  /** How `execute_moves` reports the end of a run: only a `gcode.error` is caught. */
  function ReportedOutcome(o: RunOutcome): (r: MoveOutcome)
    ensures r.Raised? <==> o.Stopped? && o.fault != KinematicError
  {
    match o
    case Completed => Done
    case Stopped(_, KinematicError) => Done
    case Stopped(_, f) => Raised(f)
  }

  /** The notices `execute_moves` emits for a run: an error reply and the event, on a caught error only. */
  function RunNotices(o: RunOutcome): (ns: seq<Notice>)
    ensures ns != [] <==> o.Stopped? && o.fault == KinematicError
  {
    match o
    case Stopped(_, KinematicError) => [MoveErrorReported, CommandErrorEvent]
    case _ => []
  }

  // ---------------------------------------------------------------- feedrate loop during a run

  /** The duty-cycle samples delivered while `execute_moves` pauses after its `i`-th sub-move. */
  type PauseSamples = nat -> seq<real>

  /** What the duty-cycle callback reads and changes: the scaling flag, the feedrate PID and the stored output. */
  datatype FeedrateLoop = FeedrateLoop(enabled: bool, law: ControlLaw, gains: Gains, setpoint: real,
                                       history: seq<Reading>, output: Option<real>)

  /** The readings the feedrate PID records for `samples`, at the gains and setpoint in force. */
  function Readings(gains: Gains, setpoint: real, samples: seq<real>): (rs: seq<Reading>)
    ensures |rs| == |samples|
  {
    seq(|samples|, i requires 0 <= i < |samples| => Reading(gains, setpoint, samples[i]))
  }

  /**
   * The loop after one callback per sample: while scaling is on each sample
   * is recorded and the output becomes the PID output after the last one;
   * while it is off nothing changes.
   */
  function LoopAfter(s: FeedrateLoop, samples: seq<real>): (t: FeedrateLoop)
    ensures t.enabled == s.enabled && t.law == s.law && t.gains == s.gains && t.setpoint == s.setpoint
  {
    if s.enabled && |samples| > 0 then
      var h := s.history + Readings(s.gains, s.setpoint, samples);
      s.(history := h, output := Some(LawOutput(s.law, h)))
    else s
  }

  /** Readings of consecutive batches are the readings of their concatenation. */
  lemma ReadingsAppend(gains: Gains, setpoint: real, a: seq<real>, b: seq<real>)
    ensures Readings(gains, setpoint, a + b) == Readings(gains, setpoint, a) + Readings(gains, setpoint, b)
  {
    var ab := Readings(gains, setpoint, a + b);
    var ra := Readings(gains, setpoint, a);
    var rb := Readings(gains, setpoint, b);
    forall i | 0 <= i < |ab|
      ensures ab[i] == (ra + rb)[i]
    {
      if i >= |a| {
        assert (a + b)[i] == b[i - |a|];
      }
    }
  }

  /** Two batches of callbacks in a row act as one batch of their concatenation. */
  lemma {:induction false} LoopAfterAppend(s: FeedrateLoop, a: seq<real>, b: seq<real>)
    ensures LoopAfter(LoopAfter(s, a), b) == LoopAfter(s, a + b)
  {
    if s.enabled && |b| > 0 {
      ReadingsAppend(s.gains, s.setpoint, a, b);
      if |a| > 0 {
        assert s.history + Readings(s.gains, s.setpoint, a) + Readings(s.gains, s.setpoint, b)
          == s.history + Readings(s.gains, s.setpoint, a + b);
      } else {
        assert a + b == b;
      }
    } else if |b| == 0 {
      assert a + b == a;
    }
  }

  /** The samples delivered in the pauses after the first `k` sub-moves, in order. */
  function Delivered(pauses: PauseSamples, k: nat): (samples: seq<real>)
  {
    if k == 0 then [] else Delivered(pauses, k - 1) + pauses(k - 1)
  }

  /** The output stored when each of the first `n` sub-moves is checked. */
  function SeenOutputs(s: FeedrateLoop, pauses: PauseSamples, n: nat): (outs: seq<Option<real>>)
    ensures |outs| == n
  {
    seq(n, k requires 0 <= k < n => LoopAfter(s, Delivered(pauses, k)).output)
  }

  /**
   * Where a run of `execute_moves` started: the check view, the feedrate
   * loop, the executor's position and queue, the notices so far, and the
   * reference run `Execute` defines for it.
   */
  datatype RunContext = RunContext(view: ScalingView, loop: FeedrateLoop, position: Position,
                                   queued: seq<MoveRequest>, notices: seq<Notice>, target: Run)

  /**
   * Where a run stands after `done` was queued with `pending` still to go,
   * against the reference run `target` that started from executor position
   * `pos0` and queue `queued0`, with check view `v` and the outputs `outs`
   * stored at the submissions: the queue and the position reached so far,
   * and the rest of the reference run.
   */
  ghost predicate RunState(moves: seq<Segment>, outs: seq<Option<real>>, v: ScalingView,
                           pos0: Position, queued0: seq<MoveRequest>, target: Run,
                           done: seq<MoveRequest>, pending: seq<Segment>,
                           queued: seq<MoveRequest>, pos: Position, accepts: (Position, Position) -> bool)
  {
    |done| <= |moves| == |outs| && pending == moves[|done|..] &&
    queued == queued0 + done && pos == LastEnd(pos0, done) &&
    target == Prepend(done, Execute(v, accepts, pos, pending, outs[|done|..]))
  }

  /**
   * The next sub-move is checked against the output stored at its
   * submission; a failure is where the reference run stops, a success moves
   * the run one sub-move on.
   */
  lemma RunStep(moves: seq<Segment>, outs: seq<Option<real>>, v: ScalingView,
                pos0: Position, queued0: seq<MoveRequest>, target: Run,
                done: seq<MoveRequest>, pending: seq<Segment>,
                queued: seq<MoveRequest>, pos: Position, accepts: (Position, Position) -> bool)
    requires RunState(moves, outs, v, pos0, queued0, target, done, pending, queued, pos, accepts)
    requires |pending| > 0
    ensures var m := pending[0];
      match CheckMove(v.(output := outs[|done|]), accepts(pos, m.end), MoveRequest(pos, m.end, m.speed, None))
      case Failure(f) => target == Run(done, Stopped(|done|, f))
      case Success(q) =>
        RunState(moves, outs, v, pos0, queued0, target, done + [q], pending[1..], queued + [q], m.end, accepts)
  {
    var k := |done|;
    var m := pending[0];
    ExecuteAdvance(v, accepts, target, done, pos, pending, outs[k..]);
    match CheckMove(v.(output := outs[k]), accepts(pos, m.end), MoveRequest(pos, m.end, m.speed, None))
    case Failure(f) =>
    case Success(q) =>
      DropOneMore(outs, k);
      DropOneMore(moves, k);
      assert LastEnd(pos0, done + [q]) == q.end;
      assert queued + [q] == queued0 + (done + [q]);
  }

  /** Dropping one more element after dropping `k`. */
  lemma DropOneMore<T>(xs: seq<T>, k: nat)
    requires k < |xs|
    ensures xs[k..][1..] == xs[k + 1..]
  {
  }

  /** The pause after the `k`-th sub-move brings the loop from `Delivered(pauses, k)` to `Delivered(pauses, k + 1)`. */
  lemma LoopAfterNext(s: FeedrateLoop, pauses: PauseSamples, k: nat)
    ensures LoopAfter(LoopAfter(s, Delivered(pauses, k)), pauses(k)) == LoopAfter(s, Delivered(pauses, k + 1))
  {
    LoopAfterAppend(s, Delivered(pauses, k), pauses(k));
  }

  /**
   * The output a sub-move is checked against is always within the output
   * limits, and once the PID has produced an output one stays stored for
   * every later sub-move.
   */
  lemma SeenOutputsWithinLimits(s: FeedrateLoop, pauses: PauseSamples, n: nat)
    requires s.output.Some? ==> OutputLower <= s.output.value <= OutputUpper
    ensures var outs := SeenOutputs(s, pauses, n);
      (forall k :: 0 <= k < n && outs[k].Some? ==> OutputLower <= outs[k].value <= OutputUpper) &&
      (s.output.Some? ==> forall k :: 0 <= k < n ==> outs[k].Some?)
  {
  }

  /**
   * With scaling on and an ordered feed range, a run whose outputs come
   * from the duty-cycle callbacks queues every sub-move at the feedrate
   * scaled from the output stored when it was checked, within
   * `[min/60, max/60]`; this holds however many samples arrive in each
   * pause and however the run ends.
   */
  lemma RunStaysInFeedRange(v: ScalingView, accepts: (Position, Position) -> bool, pos: Position,
                            moves: seq<Segment>, s: FeedrateLoop, pauses: PauseSamples)
    requires v.enabled && v.minFeedrate <= v.maxFeedrate
    requires s.output.Some? ==> OutputLower <= s.output.value <= OutputUpper
    ensures var outs := SeenOutputs(s, pauses, |moves|);
      var r := Execute(v, accepts, pos, moves, outs);
      forall i :: 0 <= i < |r.queued| ==>
        r.queued[i].speed == ScaledFeedrate(outs[i].value, v.minFeedrate, v.maxFeedrate) &&
        v.minFeedrate / 60.0 <= r.queued[i].speed <= v.maxFeedrate / 60.0
  {
    SeenOutputsWithinLimits(s, pauses, |moves|);
    ExecuteScaled(v, accepts, pos, moves, SeenOutputs(s, pauses, |moves|));
  }

  // ---------------------------------------------------------------- wire actuators as written

  /**
   * Whether the wire actuators hold an executor to ask for the print time.
   * As written they never do: `__init__` builds them (lines 122-135) while
   * the core's `toolhead` is still `None` (line 26), and the connect
   * handler (line 237) rebinds only the core's own reference.
   */
  const ActuatorsHaveExecutorAsWritten: bool := false

  /** A load-cell batch's effect: the wire PID's readings, the automatic target's commands, and whether it raised. */
  datatype TensionEffect = TensionEffect(history: seq<Reading>, commands: seq<real>, raised: bool)

  /**
   * `wire_tension_callback` for actuators with or without an executor:
   * ignored while the loop is off; `samples[-1]` raises on an empty batch;
   * otherwise the wire PID takes the last sample and then the automatic
   * target's `set_speed` runs.
   */
  function WireTensionCallbackAsWritten(hasExecutor: bool, loopEnabled: bool, law: ControlLaw, gains: Gains, setpoint: real,
                                        history: seq<Reading>, commands: seq<real>, samples: seq<real>): (e: TensionEffect)
    ensures e.raised ==> e.commands == commands
    ensures !loopEnabled ==> e == TensionEffect(history, commands, false)
  {
    if !loopEnabled then TensionEffect(history, commands, false)
    else if |samples| == 0 then TensionEffect(history, commands, true)
    else
      var h := history + [Reading(gains, setpoint, samples[|samples| - 1])];
      match SetSpeedAsWritten(hasExecutor, commands, TensionCommand(LawOutput(law, h)) as real)
      case Some(c) => TensionEffect(h, c, false)
      case None => TensionEffect(h, commands, true)
  }

  /**
   * As written, every load-cell batch with the loop on raises, after the
   * wire PID has already taken the sample; the actuator is never set.
   */
  lemma WireTensionCallbackRaisesAsWritten(law: ControlLaw, gains: Gains, setpoint: real,
                                           history: seq<Reading>, commands: seq<real>, samples: seq<real>)
    requires |samples| > 0
    ensures var e := WireTensionCallbackAsWritten(ActuatorsHaveExecutorAsWritten, true, law, gains, setpoint,
                                                  history, commands, samples);
      e.raised && e.commands == commands &&
      e.history == history + [Reading(gains, setpoint, samples[|samples| - 1])]
  {
  }

  /**
   * With an executor the same callback completes: the wire PID takes the
   * last sample and the automatic target is set to `round(output * 255)`,
   * which is what `PowerCore.WireTensionCallback` does.
   */
  lemma WireTensionCallbackWithExecutor(law: ControlLaw, gains: Gains, setpoint: real,
                                        history: seq<Reading>, commands: seq<real>, samples: seq<real>)
    requires |samples| > 0
    ensures var e := WireTensionCallbackAsWritten(true, true, law, gains, setpoint, history, commands, samples);
      !e.raised &&
      e.history == history + [Reading(gains, setpoint, samples[|samples| - 1])] &&
      e.commands == commands + [TensionCommand(LawOutput(law, e.history)) as real]
  {
  }

  /** The `set_speed` calls of `SET_WIRE_FEED`, in order: sender then receiver with the loop off, the primary with it on. */
  function ManualFeedCalls(loopEnabled: bool, senderIsPrimary: bool): (calls: seq<Actuator>)
    ensures forall a :: a in calls <==> a in ManualTargets(loopEnabled, senderIsPrimary)
  {
    if loopEnabled then [PrimaryOf(senderIsPrimary)] else [Sender, Receiver]
  }

  /**
   * `set_speed` on each actuator of `calls` in turn: the actuators that got
   * the speed, and whether a call raised, which ends the command.
   */
  function SetSpeedsAsWritten(hasExecutor: bool, calls: seq<Actuator>): (r: (set<Actuator>, bool))
    ensures r.1 <==> !hasExecutor && |calls| > 0
    decreases |calls|
  {
    if |calls| == 0 then ({}, false)
    else if !hasExecutor then ({}, true)
    else
      var rest := SetSpeedsAsWritten(hasExecutor, calls[1..]);
      ({calls[0]} + rest.0, rest.1)
  }

  /**
   * As written, `SET_WIRE_FEED` raises at its first `set_speed` and sets no
   * actuator, although `ManualTargets` always names at least one.
   */
  lemma SetWireFeedSetsNothingAsWritten(loopEnabled: bool, senderIsPrimary: bool)
    ensures var r := SetSpeedsAsWritten(ActuatorsHaveExecutorAsWritten, ManualFeedCalls(loopEnabled, senderIsPrimary));
      r.0 == {} && r.1 &&
      PrimaryOf(senderIsPrimary) in ManualTargets(loopEnabled, senderIsPrimary)
  {
  }

  /** With an executor, `SET_WIRE_FEED` sets exactly the actuators of `ManualTargets`, as `PowerCore.SetWireFeed` does. */
  lemma {:induction false} SetWireFeedWithExecutor(loopEnabled: bool, senderIsPrimary: bool)
    ensures var r := SetSpeedsAsWritten(true, ManualFeedCalls(loopEnabled, senderIsPrimary));
      r.0 == ManualTargets(loopEnabled, senderIsPrimary) && !r.1
  {
    if loopEnabled {
      assert [PrimaryOf(senderIsPrimary)][1..] == [];
    } else {
      assert [Sender, Receiver][1..] == [Receiver];
      assert [Receiver][1..] == [];
    }
  }

  class PowerCore {
    const toolhead: Toolhead
    const reporter: Reporter
    const feedratePid: PidController
    const wirePid: PidController
    const sender: WireMover
    const receiver: WireMover
    const adjustmentAccel: real
    const moveSplitDist: real
    const moveOverlapTime: real
    const senderIsPrimary: bool

    var targetDutyCycle: real
    var minFeedrate: real
    var maxFeedrate: real
    var scalingEnabled: bool
    /** The last feedrate PID output; unset until the first sample while scaling is enabled. */
    var output: Option<real>
    var wireTensionLoopEnabled: bool

    ghost predicate Valid()
      reads this
    {
      minFeedrate <= maxFeedrate &&
      adjustmentAccel > 0.0 &&
      moveSplitDist > 0.0 &&
      (output.Some? ==> OutputLower <= output.value <= OutputUpper) &&
      feedratePid != wirePid &&
      sender != receiver
    }

    /** What `check_move` reads. */
    function View(): ScalingView
      reads this
    {
      ScalingView(scalingEnabled, output, minFeedrate, maxFeedrate, adjustmentAccel)
    }

    /** What the duty-cycle callback reads and changes. */
    ghost function Loop(): FeedrateLoop
      reads this, feedratePid
    {
      FeedrateLoop(scalingEnabled, feedratePid.law, feedratePid.gains, feedratePid.setpoint, feedratePid.history, output)
    }

    /** The actuator object standing for `a`. */
    function Mover(a: Actuator): WireMover
    {
      if a == Sender then sender else receiver
    }

    constructor (cfg: Config, toolhead: Toolhead, reporter: Reporter, feedrateLaw: ControlLaw, wireLaw: ControlLaw)
      requires ValidConfig(cfg)
      ensures Valid()
      ensures this.toolhead == toolhead && this.reporter == reporter
      ensures targetDutyCycle == cfg.targetDutyCycle
      ensures minFeedrate == cfg.minFeedrate && maxFeedrate == cfg.maxFeedrate
      ensures adjustmentAccel == cfg.adjustmentAccel && moveSplitDist == cfg.moveSplitDist
      ensures moveOverlapTime == cfg.moveOverlapTime && senderIsPrimary == cfg.senderIsPrimary
      ensures !scalingEnabled && output == None && wireTensionLoopEnabled
      ensures fresh(feedratePid) && feedratePid.history == [] && feedratePid.law == feedrateLaw
      ensures feedratePid.gains == cfg.feedrateGains && feedratePid.setpoint == cfg.targetDutyCycle
      ensures fresh(wirePid) && wirePid.history == [] && wirePid.law == wireLaw
      ensures wirePid.gains == cfg.wireGains && wirePid.setpoint == cfg.defaultWireTensionTarget
      ensures fresh(sender) && fresh(receiver) && sender.commands == [] && receiver.commands == []
    {
      this.toolhead := toolhead;
      this.reporter := reporter;
      targetDutyCycle := cfg.targetDutyCycle;
      minFeedrate := cfg.minFeedrate;
      maxFeedrate := cfg.maxFeedrate;
      adjustmentAccel := cfg.adjustmentAccel;
      feedratePid := new PidController(cfg.feedrateGains, cfg.targetDutyCycle, feedrateLaw);
      moveSplitDist := cfg.moveSplitDist;
      moveOverlapTime := cfg.moveOverlapTime;
      scalingEnabled := false;
      output := None;
      wirePid := new PidController(cfg.wireGains, cfg.defaultWireTensionTarget, wireLaw);
      wireTensionLoopEnabled := true;
      sender := new WireMover();
      receiver := new WireMover();
      senderIsPrimary := cfg.senderIsPrimary;
    }

    // ---------------------------------------------------------------- wire tension loop

    /**
     * A load-cell batch: ignored while the loop is off; otherwise only its
     * last sample goes to the wire PID, and the non-primary actuator is set
     * to the rounded output. An empty batch fails (`samples[-1]`) before
     * anything changes.
     */
    method WireTensionCallback(samples: seq<real>) returns (ok: bool)
      requires Valid()
      modifies wirePid`history, sender`commands, receiver`commands
      ensures ok <==> !wireTensionLoopEnabled || samples != []
      ensures !(wireTensionLoopEnabled && ok) ==>
        unchanged(wirePid) && unchanged(sender) && unchanged(receiver)
      ensures wireTensionLoopEnabled && ok ==>
        var auto := Mover(AutoTarget(senderIsPrimary));
        wirePid.history == old(wirePid.history) + [Reading(wirePid.gains, wirePid.setpoint, samples[|samples| - 1])] &&
        auto.commands == old(auto.commands) + [TensionCommand(LawOutput(wirePid.law, wirePid.history)) as real] &&
        0.0 <= auto.commands[|auto.commands| - 1] <= 255.0 &&
        unchanged(Mover(PrimaryOf(senderIsPrimary)))
    {
      if !wireTensionLoopEnabled {
        return true;
      }
      if samples == [] {
        return false;
      }
      var sample := samples[|samples| - 1];
      var out := wirePid.Update(sample);
      var speed := TensionCommand(out);
      if senderIsPrimary {
        receiver.SetSpeed(speed as real);
      } else {
        sender.SetSpeed(speed as real);
      }
      ok := true;
    }

    /** SET_WIRE_FEED: both actuators while the loop is off, only the primary while it runs. */
    method SetWireFeed(speed: real)
      requires Valid()
      modifies sender`commands, receiver`commands
      ensures forall a :: a in ManualTargets(wireTensionLoopEnabled, senderIsPrimary) ==>
        Mover(a).commands == old(Mover(a).commands) + [speed]
      ensures forall a :: a !in ManualTargets(wireTensionLoopEnabled, senderIsPrimary) ==>
        Mover(a).commands == old(Mover(a).commands)
    {
      if !wireTensionLoopEnabled {
        sender.SetSpeed(speed);
        receiver.SetSpeed(speed);
      } else {
        if senderIsPrimary {
          sender.SetSpeed(speed);
        } else {
          receiver.SetSpeed(speed);
        }
      }
    }

    /** SET_WIRE_TENSION_TARGET: a new setpoint for the wire PID, without a reset. */
    method SetWireTensionTarget(target: real)
      modifies wirePid`setpoint
      ensures wirePid.setpoint == target
    {
      wirePid.setpoint := target;
    }

    /** ENABLE_WIRE_TENSION_LOOP: any non-zero ENABLE turns the loop on and resets the wire PID. */
    method EnableWireTensionLoop(enable: int)
      requires Valid()
      ensures Valid()
      modifies this`wireTensionLoopEnabled, wirePid`history
      ensures wireTensionLoopEnabled == (enable != 0)
      ensures wireTensionLoopEnabled ==> wirePid.history == []
      ensures !wireTensionLoopEnabled ==> unchanged(wirePid)
    {
      wireTensionLoopEnabled := enable != 0;
      if wireTensionLoopEnabled {
        wirePid.Reset();
      }
    }

    /** RESET_WIRE_TENSION_PID. */
    method ResetWireTensionPid()
      modifies wirePid`history
      ensures wirePid.history == []
    {
      wirePid.Reset();
    }

    // ---------------------------------------------------------------- feed scaling session

    /** Enabling scaling resets the feedrate PID, so no stale history carries into the new episode. */
    method EnableScaling()
      requires Valid()
      ensures Valid()
      modifies this`scalingEnabled, feedratePid`history
      ensures scalingEnabled
      ensures feedratePid.history == []
    {
      feedratePid.Reset();
      scalingEnabled := true;
    }

    /** Disabling scaling only clears the flag. */
    method DisableScaling()
      requires Valid()
      ensures Valid()
      modifies this`scalingEnabled
      ensures !scalingEnabled
    {
      scalingEnabled := false;
    }

    /** A duty-cycle sample: ignored while scaling is off, otherwise fed to the feedrate PID. */
    method PwmInCallback(dutyCycle: real)
      requires Valid()
      modifies this`output, feedratePid`history
      ensures Valid()
      ensures !scalingEnabled ==> output == old(output) && unchanged(feedratePid)
      ensures scalingEnabled ==>
        feedratePid.history == old(feedratePid.history) + [Reading(feedratePid.gains, feedratePid.setpoint, dutyCycle)] &&
        output == Some(LawOutput(feedratePid.law, feedratePid.history))
    {
      if !scalingEnabled {
        return;
      }
      var out := feedratePid.Update(dutyCycle);
      output := Some(out);
    }

    /** RESET_POWERCORE_PID. */
    method ResetFeedratePid()
      modifies feedratePid`history
      ensures feedratePid.history == []
    {
      feedratePid.Reset();
    }

    /** SET_POWERCORE_TARGET_DUTY_CYCLE: the new target is the feedrate PID's setpoint (not range-checked). */
    method SetTargetDutyCycle(dutyCycle: Option<real>)
      requires Valid()
      ensures Valid()
      modifies this`targetDutyCycle, feedratePid`setpoint
      ensures targetDutyCycle == dutyCycle.GetOr(old(targetDutyCycle))
      ensures feedratePid.setpoint == targetDutyCycle
    {
      targetDutyCycle := dutyCycle.GetOr(targetDutyCycle);
      feedratePid.setpoint := targetDutyCycle;
    }

    /** SET_POWERCORE_PID: each missing gain keeps its current value. */
    method SetPidParams(kp: Option<real>, ki: Option<real>, kd: Option<real>)
      modifies feedratePid`gains
      ensures feedratePid.gains ==
        Gains(kp.GetOr(old(feedratePid.gains.kp)), ki.GetOr(old(feedratePid.gains.ki)), kd.GetOr(old(feedratePid.gains.kd)))
    {
      var g := feedratePid.gains;
      feedratePid.gains := Gains(kp.GetOr(g.kp), ki.GetOr(g.ki), kd.GetOr(g.kd));
    }

    /** SET_POWERCORE_FEED_RANGE: an inconsistent pair is reported and leaves the range as it was. */
    method SetFeedRange(min: Option<real>, max: Option<real>) returns (accepted: bool)
      requires Valid()
      modifies this`minFeedrate, this`maxFeedrate, reporter`notices
      ensures Valid()
      ensures var r := UpdateFeedRange(FeedRange(old(minFeedrate), old(maxFeedrate)), min, max);
        accepted == r.Success? &&
        (accepted ==> FeedRange(minFeedrate, maxFeedrate) == r.value && reporter.notices == old(reporter.notices)) &&
        (!accepted ==> minFeedrate == old(minFeedrate) && maxFeedrate == old(maxFeedrate) &&
                       reporter.notices == old(reporter.notices) + [FeedRangeRejected(r.error.minFeedrate, r.error.maxFeedrate)])
    {
      match UpdateFeedRange(FeedRange(minFeedrate, maxFeedrate), min, max)
      case Success(range) =>
        minFeedrate, maxFeedrate := range.minFeedrate, range.maxFeedrate;
        accepted := true;
      case Failure(asked) =>
        reporter.Emit([FeedRangeRejected(asked.minFeedrate, asked.maxFeedrate)]);
        accepted := false;
    }

    // ---------------------------------------------------------------- move routing

    /**
     * One call into the executor (`toolhead.move(newpos, speed)`): the move
     * from the commanded position goes through `check_move` and is queued if
     * that succeeds.
     */
    method SubmitMove(newpos: Position, speed: real) returns (outcome: MoveOutcome)
      modifies toolhead`position, toolhead`queued
      ensures var c := CheckMove(old(View()), toolhead.accepts(old(toolhead.position), newpos),
                                 MoveRequest(old(toolhead.position), newpos, speed, None));
        match c
        case Success(m) => outcome == Done && toolhead.queued == old(toolhead.queued) + [m] && toolhead.position == newpos
        case Failure(f) => outcome == Raised(f) && unchanged(toolhead)
    {
      var req := MoveRequest(toolhead.position, newpos, speed, None);
      match CheckMove(View(), toolhead.accepts(toolhead.position, newpos), req)
      case Success(m) =>
        toolhead.Queue(m);
        outcome := Done;
      case Failure(f) =>
        outcome := Raised(f);
    }

    /** The `except` clause of `execute_moves`: a `gcode.error` is reported and raises the event; others escape. */
    method ReportFault(f: Fault, ghost at: nat) returns (outcome: MoveOutcome)
      modifies reporter`notices
      ensures outcome == ReportedOutcome(Stopped(at, f))
      ensures reporter.notices == old(reporter.notices) + RunNotices(Stopped(at, f))
    {
      if f == KinematicError {
        reporter.Emit([MoveErrorReported, CommandErrorEvent]);
        outcome := Done;
      } else {
        outcome := Raised(f);
      }
    }

    /**
     * The duty-cycle callbacks that run while `execute_moves` waits for the
     * executor (`reactor.pause`), one per sample, in order.
     */
    method Pause(samples: seq<real>)
      requires Valid()
      modifies this`output, feedratePid`history
      ensures Valid()
      ensures Loop() == LoopAfter(old(Loop()), samples)
    {
      var i := 0;
      while i < |samples|
        invariant 0 <= i <= |samples|
        invariant Valid()
        invariant Loop() == LoopAfter(old(Loop()), samples[..i])
      {
        LoopAfterAppend(old(Loop()), samples[..i], [samples[i]]);
        assert samples[..i + 1] == samples[..i] + [samples[i]];
        ghost var before := Loop();
        assert Readings(before.gains, before.setpoint, [samples[i]]) == [Reading(before.gains, before.setpoint, samples[i])];
        PwmInCallback(samples[i]);
        assert Loop() == LoopAfter(before, [samples[i]]);
        i := i + 1;
      }
      assert samples[..|samples|] == samples;
    }

    /**
     * The body of the `try` in `execute_moves`: one sub-move goes to the
     * executor; if it is queued, the run pauses and the duty-cycle samples
     * `samples` arrive.
     */
    method SubmitAndPause(m: Segment, samples: seq<real>) returns (res: MoveOutcome)
      requires Valid()
      modifies toolhead`position, toolhead`queued, this`output, feedratePid`history
      ensures Valid()
      ensures var c := CheckMove(old(View()), toolhead.accepts(old(toolhead.position), m.end),
                                 MoveRequest(old(toolhead.position), m.end, m.speed, None));
        match c
        case Success(q) =>
          res == Done && toolhead.queued == old(toolhead.queued) + [q] && toolhead.position == m.end &&
          Loop() == LoopAfter(old(Loop()), samples)
        case Failure(f) =>
          res == Raised(f) && unchanged(toolhead) && Loop() == old(Loop())
    {
      res := SubmitMove(m.end, m.speed);
      if res == Done {
        Pause(samples);
      }
    }

    /**
     * Where a run of `execute_moves` stands, started in context `c`:
     * `RunState` for the queue and the position, and the loop state after
     * the pauses so far.
     */
    ghost predicate RunningAt(moves: seq<Segment>, pauses: PauseSamples, c: RunContext,
                              done: seq<MoveRequest>, pending: seq<Segment>)
      reads this, toolhead, reporter, feedratePid
    {
      Valid() && View() == c.view.(output := output) && reporter.notices == c.notices &&
      RunState(moves, SeenOutputs(c.loop, pauses, |moves|), c.view, c.position, c.queued, c.target, done, pending,
               toolhead.queued, toolhead.position, toolhead.accepts) &&
      Loop() == LoopAfter(c.loop, Delivered(pauses, |done|))
    }

    /**
     * One pass of the loop in `execute_moves`: the front sub-move is
     * submitted; a failure leaves the run where the reference run stops, a
     * success moves it one sub-move on.
     */
    method SubmitNext(moves: seq<Segment>, pauses: PauseSamples, ghost c: RunContext,
                      ghost done: seq<MoveRequest>, pending: seq<Segment>, sent: nat)
      returns (res: MoveOutcome, ghost done': seq<MoveRequest>)
      requires RunningAt(moves, pauses, c, done, pending)
      requires |pending| > 0 && sent == |done|
      modifies toolhead`position, toolhead`queued, this`output, feedratePid`history
      ensures res.Raised? ==>
        Valid() && c.target == Run(done, Stopped(sent, res.fault)) &&
        toolhead.queued == c.queued + done && toolhead.position == LastEnd(c.position, done) &&
        reporter.notices == c.notices && Loop() == LoopAfter(c.loop, Delivered(pauses, sent))
      ensures !res.Raised? ==>
        |done'| == sent + 1 && RunningAt(moves, pauses, c, done', pending[1..])
    {
      ghost var outs := SeenOutputs(c.loop, pauses, |moves|);
      assert output == outs[sent];
      RunStep(moves, outs, c.view, c.position, c.queued, c.target, done, pending,
              toolhead.queued, toolhead.position, toolhead.accepts);
      LoopAfterNext(c.loop, pauses, sent);
      ghost var checked := CheckMove(View(), toolhead.accepts(toolhead.position, pending[0].end),
                                     MoveRequest(toolhead.position, pending[0].end, pending[0].speed, None));
      res := SubmitAndPause(pending[0], pauses(sent));
      done' := done;
      if !res.Raised? {
        done' := done + [checked.value];
      }
    }

    /**
     * `execute_moves`: sub-moves are taken from the front of the list and
     * submitted one by one, each checked against the output stored at that
     * moment; after each queued sub-move the run pauses and the duty-cycle
     * samples `pauses(i)` arrive. An executor error is reported, raises the
     * command-error event and ends the run; any other error escapes.
     */
    method ExecuteMoves(moves: seq<Segment>, pauses: PauseSamples) returns (outcome: MoveOutcome)
      requires Valid()
      modifies toolhead`position, toolhead`queued, reporter`notices, this`output, feedratePid`history
      ensures Valid()
      ensures var r := Execute(old(View()), toolhead.accepts, old(toolhead.position), moves,
                               SeenOutputs(old(Loop()), pauses, |moves|));
        toolhead.queued == old(toolhead.queued) + r.queued &&
        toolhead.position == LastEnd(old(toolhead.position), r.queued) &&
        outcome == ReportedOutcome(r.outcome) &&
        reporter.notices == old(reporter.notices) + RunNotices(r.outcome) &&
        Loop() == LoopAfter(old(Loop()), Delivered(pauses, |r.queued|))
    {
      ghost var outs := SeenOutputs(Loop(), pauses, |moves|);
      ghost var c := RunContext(View(), Loop(), toolhead.position, toolhead.queued, reporter.notices,
                                Execute(View(), toolhead.accepts, toolhead.position, moves, outs));
      ghost var done: seq<MoveRequest> := [];
      assert moves[0..] == moves && outs[0..] == outs;
      var pending := moves;
      var sent := 0;
      while |pending| > 0
        invariant sent == |done|
        invariant RunningAt(moves, pauses, c, done, pending)
        decreases |pending|
      {
        var res;
        res, done := SubmitNext(moves, pauses, c, done, pending, sent);
        if res.Raised? {
          outcome := ReportFault(res.fault, sent);
          return;
        }
        pending := pending[1..];
        sent := sent + 1;
      }
      assert c.target == Run(done, Completed);
      outcome := Done;
    }

    /**
     * `move`: with scaling off, the request goes to the executor unchanged
     * in a single call; with scaling on, it is split into sub-moves from the
     * commanded position and those are executed, with `pauses` delivering
     * the duty-cycle samples between them. `moveD` and `dir` are the move's
     * length and unit direction as the executor's move object computes them.
     */
    method Move(newpos: Position, speed: real, moveD: real, dir: seq<real>, pauses: PauseSamples) returns (outcome: MoveOutcome)
      requires Valid()
      requires moveD >= 0.0 && |dir| == |toolhead.position|
      modifies toolhead`position, toolhead`queued, reporter`notices, this`output, feedratePid`history
      ensures Valid()
      ensures !scalingEnabled ==>
        reporter.notices == old(reporter.notices) && Loop() == old(Loop()) &&
        if toolhead.accepts(old(toolhead.position), newpos) then
          outcome == Done && toolhead.position == newpos &&
          toolhead.queued == old(toolhead.queued) + [MoveRequest(old(toolhead.position), newpos, speed, None)]
        else
          outcome == Raised(KinematicError) && unchanged(toolhead)
      ensures scalingEnabled && moveD == 0.0 ==>
        outcome == Raised(ZeroDistance) && unchanged(toolhead) && reporter.notices == old(reporter.notices) &&
        Loop() == old(Loop())
      ensures scalingEnabled && moveD > 0.0 ==>
        var r := Execute(old(View()), toolhead.accepts, old(toolhead.position),
                         Segments(old(toolhead.position), newpos, moveD, dir, moveSplitDist, speed),
                         SeenOutputs(old(Loop()), pauses, SegmentCount(moveD, moveSplitDist)));
        toolhead.queued == old(toolhead.queued) + r.queued &&
        toolhead.position == LastEnd(old(toolhead.position), r.queued) &&
        outcome == ReportedOutcome(r.outcome) &&
        reporter.notices == old(reporter.notices) + RunNotices(r.outcome) &&
        Loop() == LoopAfter(old(Loop()), Delivered(pauses, |r.queued|))
    {
      if scalingEnabled {
        if moveD == 0.0 {
          return Raised(ZeroDistance);
        }
        var segs := SplitMove(toolhead.position, newpos, moveD, dir, moveSplitDist, speed);
        outcome := ExecuteMoves(segs, pauses);
      } else {
        outcome := SubmitMove(newpos, speed);
      }
    }
  }
}
