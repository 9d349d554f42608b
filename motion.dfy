/**
 * The motion side of feed scaling: the feedrate mapping of `scale_move`, the
 * move check (`check_move`), the abstract motion executor (the toolhead) and
 * a reference definition of what `execute_moves` submits.
 */
module Motion {
  import opened Wrappers
  import opened Segmentation

  /** A move as the executor queues it; `accel` is `None` unless `set_speed` overrode it. */
  datatype MoveRequest = MoveRequest(start: Position, end: Position, speed: real, accel: Option<real>)

  /** What can go wrong while a move is submitted. */
  datatype Fault =
    | KinematicError  // the executor's move check raised `gcode.error`
    | OutputUnset     // `self.output` read before the first PID update (AttributeError)
    | ZeroDistance    // a zero-length move divided 0 by 0 in `split_move`

  /** The part of the controller's state that `check_move` reads. */
  datatype ScalingView = ScalingView(
    enabled: bool,
    output: Option<real>,
    minFeedrate: real,
    maxFeedrate: real,
    accel: real)

  /**
   * `scale_move`: the PID output mapped linearly into `[min, max]` (mm/min),
   * then divided by 60 for mm/s.
   */
  function ScaledFeedrate(output: real, minFeedrate: real, maxFeedrate: real): (speed: real)
    ensures output == 0.0 ==> speed == minFeedrate / 60.0
    ensures output == 1.0 ==> speed == maxFeedrate / 60.0
  {
    (minFeedrate + output * (maxFeedrate - minFeedrate)) / 60.0
  }

  /** An output within `[0, 1]` and an ordered range give a speed within `[min/60, max/60]`. */
  lemma ScaledFeedrateInRange(output: real, minFeedrate: real, maxFeedrate: real)
    requires 0.0 <= output <= 1.0 && minFeedrate <= maxFeedrate
    ensures minFeedrate / 60.0 <= ScaledFeedrate(output, minFeedrate, maxFeedrate) <= maxFeedrate / 60.0
  {
    var span := maxFeedrate - minFeedrate;
    MulNonNegative(output, span);
    MulNonNegative(1.0 - output, span);
    assert output * span + (1.0 - output) * span == span;
  }

  /** A larger PID output never gives a slower feedrate. */
  lemma ScaledFeedrateMonotone(o1: real, o2: real, minFeedrate: real, maxFeedrate: real)
    requires o1 <= o2 && minFeedrate <= maxFeedrate
    ensures ScaledFeedrate(o1, minFeedrate, maxFeedrate) <= ScaledFeedrate(o2, minFeedrate, maxFeedrate)
  {
    var span := maxFeedrate - minFeedrate;
    MulNonNegative(o2 - o1, span);
    assert o2 * span - o1 * span == (o2 - o1) * span;
  }

  /** The product of two non-negative reals is non-negative. */
  lemma MulNonNegative(a: real, b: real)
    requires a >= 0.0 && b >= 0.0
    ensures a * b >= 0.0
  {
  }

  /**
   * `check_move`: the executor's own check first (`accepted`), then, only
   * while scaling is enabled, the speed and acceleration are replaced by the
   * scaled feedrate and the adjustment acceleration; a queued move keeps its
   * geometry. The remaining cases are stated by `CheckMoveCases`.
   */
  function CheckMove(v: ScalingView, accepted: bool, m: MoveRequest): (r: Result<MoveRequest, Fault>)
    ensures r.Success? ==> accepted && r.value.start == m.start && r.value.end == m.end
  {
    if !accepted then Failure(KinematicError)
    else if !v.enabled then Success(m)
    else if v.output.None? then Failure(OutputUnset)
    else Success(m.(speed := ScaledFeedrate(v.output.value, v.minFeedrate, v.maxFeedrate), accel := Some(v.accel)))
  }

  /**
   * A refused move fails with the executor's error; with scaling off an
   * accepted move passes through untouched; with scaling on it fails exactly
   * when no PID output exists yet, and otherwise keeps its geometry and gets
   * the scaled feedrate, within `[min/60, max/60]`, and the adjustment
   * acceleration.
   */
  lemma CheckMoveCases(v: ScalingView, accepted: bool, m: MoveRequest)
    ensures var r := CheckMove(v, accepted, m);
      (!accepted ==> r == Failure(KinematicError)) &&
      (accepted && !v.enabled ==> r == Success(m)) &&
      (accepted && v.enabled ==> (r.Failure? <==> v.output.None?)) &&
      (r.Success? ==> r.value.start == m.start && r.value.end == m.end) &&
      (r.Success? && v.enabled ==>
         r.value.accel == Some(v.accel) &&
         r.value.speed == ScaledFeedrate(v.output.value, v.minFeedrate, v.maxFeedrate)) &&
      (r.Success? && v.enabled && 0.0 <= v.output.value <= 1.0 && v.minFeedrate <= v.maxFeedrate ==>
         v.minFeedrate / 60.0 <= r.value.speed <= v.maxFeedrate / 60.0)
  {
    if accepted && v.enabled && v.output.Some? && 0.0 <= v.output.value <= 1.0 && v.minFeedrate <= v.maxFeedrate {
      ScaledFeedrateInRange(v.output.value, v.minFeedrate, v.maxFeedrate);
    }
  }

  /** How a run of sub-moves ended: all submitted, or stopped at index `at`. */
  datatype RunOutcome = Completed | Stopped(at: nat, fault: Fault)

  /** The moves a run queued, in order, and how it ended. */
  datatype Run = Run(queued: seq<MoveRequest>, outcome: RunOutcome)

  /** `done` queued in front of `r`. */
  function Prepend(done: seq<MoveRequest>, r: Run): Run
  {
    Run(done + r.queued,
        match r.outcome
        case Completed => Completed
        case Stopped(k, f) => Stopped(|done| + k, f))
  }

  /**
   * Reference definition of `execute_moves`: each sub-move is sent to the
   * executor from the executor's current position to the sub-move's end at
   * the sub-move's speed, and checked against the PID output stored at that
   * moment (`outputs[i]` for the `i`-th sub-move, since the duty-cycle
   * callbacks run while the run pauses between sub-moves); the first failure
   * stops the run.
   */
  function Execute(v: ScalingView, accepts: (Position, Position) -> bool, pos: Position,
                   moves: seq<Segment>, outputs: seq<Option<real>>): (r: Run)
    requires |outputs| == |moves|
    ensures |r.queued| <= |moves|
    ensures r.outcome.Completed? <==> |r.queued| == |moves|
    ensures r.outcome.Stopped? ==> r.outcome.at == |r.queued|
    decreases |moves|
  {
    if |moves| == 0 then Run([], Completed)
    else
      var m := moves[0];
      match CheckMove(v.(output := outputs[0]), accepts(pos, m.end), MoveRequest(pos, m.end, m.speed, None))
      case Failure(f) => Run([], Stopped(0, f))
      case Success(q) => Prepend([q], Execute(v, accepts, m.end, moves[1..], outputs[1..]))
  }

  /**
   * One sub-move taken off the front of a run that so far queued `done`:
   * a failure ends the whole run there, a success adds the move to `done`.
   */
  lemma ExecuteAdvance(v: ScalingView, accepts: (Position, Position) -> bool, target: Run,
                       done: seq<MoveRequest>, pos: Position, pending: seq<Segment>, outputs: seq<Option<real>>)
    requires |pending| > 0 && |outputs| == |pending|
    requires target == Prepend(done, Execute(v, accepts, pos, pending, outputs))
    ensures var m := pending[0];
      match CheckMove(v.(output := outputs[0]), accepts(pos, m.end), MoveRequest(pos, m.end, m.speed, None))
      case Failure(f) => target == Run(done, Stopped(|done|, f))
      case Success(q) => q.end == m.end && target == Prepend(done + [q], Execute(v, accepts, m.end, pending[1..], outputs[1..]))
  {
    var m := pending[0];
    match CheckMove(v.(output := outputs[0]), accepts(pos, m.end), MoveRequest(pos, m.end, m.speed, None))
    case Failure(f) =>
    case Success(q) =>
      PrependPrepend(done, [q], Execute(v, accepts, m.end, pending[1..], outputs[1..]));
  }

  /** Prepending twice is prepending the concatenation. */
  lemma PrependPrepend(a: seq<MoveRequest>, b: seq<MoveRequest>, r: Run)
    ensures Prepend(a, Prepend(b, r)) == Prepend(a + b, r)
  {
    assert a + (b + r.queued) == (a + b) + r.queued;
  }

  /** Where the executor stands when the `k`-th sub-move is sent, if all before it were queued. */
  function StartOf(pos: Position, moves: seq<Segment>, k: nat): Position
    requires k <= |moves|
  {
    if k == 0 then pos else moves[k - 1].end
  }

  /**
   * Sub-moves are submitted front first: the `i`-th queued move is the
   * `i`-th sub-move, sent from where the previous one ended.
   */
  lemma {:induction false} ExecuteInOrder(v: ScalingView, accepts: (Position, Position) -> bool, pos: Position,
                                          moves: seq<Segment>, outputs: seq<Option<real>>)
    requires |outputs| == |moves|
    ensures var r := Execute(v, accepts, pos, moves, outputs);
      forall i :: 0 <= i < |r.queued| ==>
        r.queued[i].end == moves[i].end && r.queued[i].start == StartOf(pos, moves, i)
    decreases |moves|
  {
    if |moves| > 0 {
      var m := moves[0];
      var c := CheckMove(v.(output := outputs[0]), accepts(pos, m.end), MoveRequest(pos, m.end, m.speed, None));
      if c.Success? {
        var tail := moves[1..];
        ExecuteInOrder(v, accepts, m.end, tail, outputs[1..]);
        var rest := Execute(v, accepts, m.end, tail, outputs[1..]);
        var r := Execute(v, accepts, pos, moves, outputs);
        assert r.queued == [c.value] + rest.queued;
        forall i | 1 <= i < |r.queued|
          ensures r.queued[i].end == moves[i].end && r.queued[i].start == StartOf(pos, moves, i)
        {
          assert r.queued[i] == rest.queued[i - 1];
          assert tail[i - 1] == moves[i];
          if i > 1 {
            assert tail[i - 2] == moves[i - 1];
          }
        }
      }
    }
  }

  /**
   * A stopped run names the first sub-move the check refused, sent from
   * where the previous one ended and checked against the output stored at
   * that moment; nothing after it was queued.
   */
  lemma {:induction false} ExecuteStopsAtFirstFailure(v: ScalingView, accepts: (Position, Position) -> bool, pos: Position,
                                                      moves: seq<Segment>, outputs: seq<Option<real>>)
    requires |outputs| == |moves|
    ensures var r := Execute(v, accepts, pos, moves, outputs);
      r.outcome.Stopped? ==>
        var k := r.outcome.at;
        k == |r.queued| < |moves| &&
        CheckMove(v.(output := outputs[k]), accepts(StartOf(pos, moves, k), moves[k].end),
                  MoveRequest(StartOf(pos, moves, k), moves[k].end, moves[k].speed, None))
          == Failure(r.outcome.fault)
    decreases |moves|
  {
    if |moves| > 0 {
      var m := moves[0];
      var c := CheckMove(v.(output := outputs[0]), accepts(pos, m.end), MoveRequest(pos, m.end, m.speed, None));
      if c.Success? {
        var tail := moves[1..];
        ExecuteStopsAtFirstFailure(v, accepts, m.end, tail, outputs[1..]);
        var rest := Execute(v, accepts, m.end, tail, outputs[1..]);
        var r := Execute(v, accepts, pos, moves, outputs);
        if r.outcome.Stopped? {
          var k := rest.outcome.at;
          assert r.outcome.at == k + 1;
          assert tail[k] == moves[k + 1];
          assert outputs[1..][k] == outputs[k + 1];
          if k > 0 {
            assert tail[k - 1] == moves[k];
          }
        }
      }
    }
  }

  /**
   * With scaling enabled, every queued sub-move found an output when it was
   * checked and got the feedrate scaled from that output, and the
   * adjustment acceleration; an output in `[0, 1]` puts it within
   * `[min/60, max/60]`. This holds for completed and stopped runs alike.
   */
  lemma {:induction false} ExecuteScaled(v: ScalingView, accepts: (Position, Position) -> bool, pos: Position,
                                         moves: seq<Segment>, outputs: seq<Option<real>>)
    requires |outputs| == |moves| && v.enabled
    ensures var r := Execute(v, accepts, pos, moves, outputs);
      forall i :: 0 <= i < |r.queued| ==>
        outputs[i].Some? &&
        r.queued[i].speed == ScaledFeedrate(outputs[i].value, v.minFeedrate, v.maxFeedrate) &&
        r.queued[i].accel == Some(v.accel) &&
        (0.0 <= outputs[i].value <= 1.0 && v.minFeedrate <= v.maxFeedrate ==>
           v.minFeedrate / 60.0 <= r.queued[i].speed <= v.maxFeedrate / 60.0)
    decreases |moves|
  {
    if |moves| > 0 {
      var m := moves[0];
      var c := CheckMove(v.(output := outputs[0]), accepts(pos, m.end), MoveRequest(pos, m.end, m.speed, None));
      if c.Success? {
        if 0.0 <= outputs[0].value <= 1.0 && v.minFeedrate <= v.maxFeedrate {
          ScaledFeedrateInRange(outputs[0].value, v.minFeedrate, v.maxFeedrate);
        }
        ExecuteScaled(v, accepts, m.end, moves[1..], outputs[1..]);
        var rest := Execute(v, accepts, m.end, moves[1..], outputs[1..]);
        var r := Execute(v, accepts, pos, moves, outputs);
        forall i | 1 <= i < |r.queued|
          ensures r.queued[i] == rest.queued[i - 1] && outputs[i] == outputs[1..][i - 1]
        {
        }
      }
    }
  }

  /**
   * A run completes when the executor accepts each of its sub-moves, sent
   * from where the previous one ended, and, with scaling enabled, an output
   * is stored for every sub-move.
   */
  lemma ExecuteCompletes(v: ScalingView, accepts: (Position, Position) -> bool, pos: Position,
                         moves: seq<Segment>, outputs: seq<Option<real>>)
    requires |outputs| == |moves|
    requires forall i :: 0 <= i < |moves| ==> accepts(StartOf(pos, moves, i), moves[i].end)
    requires v.enabled ==> forall i :: 0 <= i < |outputs| ==> outputs[i].Some?
    ensures Execute(v, accepts, pos, moves, outputs).outcome == Completed
  {
    ExecuteStopsAtFirstFailure(v, accepts, pos, moves, outputs);
  }

  /** The executor's commanded position after queueing `queued` from `pos`. */
  function LastEnd(pos: Position, queued: seq<MoveRequest>): Position
  {
    if |queued| == 0 then pos else queued[|queued| - 1].end
  }

  /**
   * End to end with scaling enabled, an output in `[0, 1]` stored at every
   * submission and an executor that accepts each sub-move: a move of length `moveD > 0` becomes
   * `ceil(moveD / splitDist)` queued moves, the first from the current
   * position, each from where the previous one ended, the last exactly at
   * the requested end, each at the feedrate scaled from its own output.
   */
  lemma ScaledMoveQueuesChain(v: ScalingView, accepts: (Position, Position) -> bool,
                              pos: Position, end: Position, moveD: real, dir: seq<real>, splitDist: real, speed: real,
                              outputs: seq<Option<real>>)
    requires v.enabled && v.minFeedrate <= v.maxFeedrate
    requires moveD > 0.0 && splitDist > 0.0 && |pos| == |dir|
    requires var segs := Segments(pos, end, moveD, dir, splitDist, speed);
      forall i :: 0 <= i < |segs| ==> accepts(StartOf(pos, segs, i), segs[i].end)
    requires |outputs| == SegmentCount(moveD, splitDist)
    requires forall i :: 0 <= i < |outputs| ==> outputs[i].Some? && 0.0 <= outputs[i].value <= 1.0
    ensures var r := Execute(v, accepts, pos, Segments(pos, end, moveD, dir, splitDist, speed), outputs);
      var n := SegmentCount(moveD, splitDist);
      r.outcome == Completed && |r.queued| == n &&
      r.queued[0].start == pos &&
      r.queued[n - 1].end == end &&
      LastEnd(pos, r.queued) == end &&
      (forall i :: 0 <= i < n - 1 ==> r.queued[i + 1].start == r.queued[i].end) &&
      (forall i :: 0 <= i < n ==>
         r.queued[i].speed == ScaledFeedrate(outputs[i].value, v.minFeedrate, v.maxFeedrate) &&
         v.minFeedrate / 60.0 <= r.queued[i].speed <= v.maxFeedrate / 60.0)
  {
    var segs := Segments(pos, end, moveD, dir, splitDist, speed);
    SegmentsFormChain(pos, end, moveD, dir, splitDist, speed);
    ExecuteCompletes(v, accepts, pos, segs, outputs);
    ExecuteInOrder(v, accepts, pos, segs, outputs);
    ExecuteScaled(v, accepts, pos, segs, outputs);
  }

  /**
   * The motion executor (the toolhead), as a sink that records the moves it
   * queued. `accepts` stands for the kinematics' own move check.
   */
  class Toolhead {
    var position: Position
    var queued: seq<MoveRequest>
    const accepts: (Position, Position) -> bool

    constructor (position: Position, accepts: (Position, Position) -> bool)
      ensures this.position == position && this.accepts == accepts && queued == []
    {
      this.position := position;
      this.accepts := accepts;
      queued := [];
    }

    /** Queue an already checked move; the commanded position becomes its end. */
    method Queue(m: MoveRequest)
      modifies this`position, this`queued
      ensures queued == old(queued) + [m]
      ensures position == m.end
    {
      queued := queued + [m];
      position := m.end;
    }
  }
}
