/**
 * Client scenarios: what a caller can conclude about the controller from
 * the contracts alone, for a few end-to-end situations.
 */
module Scenarios {
  import opened Wrappers
  import opened Rounding
  import opened Segmentation
  import opened Pid
  import opened Motion
  import opened Wire
  import opened PowerCoreModel

  /**
   * Scaling off: a 10 mm move along X at speed 50 is one unmodified executor
   * call. Tension loop off: SET_WIRE_FEED 40 sets both actuators to 40.
   * MIN above MAX is refused and reported.
   */
  method PassThroughScenario(feedrateLaw: ControlLaw, wireLaw: ControlLaw)
  {
    var origin := [0.0, 0.0, 0.0, 0.0];
    var target := [10.0, 0.0, 0.0, 0.0];
    var toolhead := new Toolhead(origin, (p: Position, q: Position) => true);
    var reporter := new Reporter();
    var core := new PowerCore(DefaultConfig, toolhead, reporter, feedrateLaw, wireLaw);

    var outcome := core.Move(target, 50.0, 10.0, [1.0, 0.0, 0.0, 0.0], (i: nat) => []);
    assert outcome == Done;
    assert toolhead.queued == [MoveRequest(origin, target, 50.0, None)];

    core.EnableWireTensionLoop(0);
    core.SetWireFeed(40.0);
    assert core.Mover(Sender) == core.sender && core.Mover(Receiver) == core.receiver;
    assert Sender in ManualTargets(false, true) && Receiver in ManualTargets(false, true);
    assert core.sender.commands == [40.0] && core.receiver.commands == [40.0];

    var accepted := core.SetFeedRange(Some(200.0), None);
    assert !accepted;
    assert core.minFeedrate == 6.0 && core.maxFeedrate == 120.0;
    assert reporter.notices == [FeedRangeRejected(200.0, 120.0)];
  }

  /**
   * Scaling on, split distance 2 mm: a 10 mm move along X is submitted as
   * five sub-moves from the origin, ending at 2, 4, 6, 8 and exactly 10 mm,
   * each at the feedrate scaled from the output stored when it was sent,
   * within the configured range.
   */
  lemma TenMillimetreMoveInFiveSubMoves(v: ScalingView, accepts: (Position, Position) -> bool, speed: real,
                                        outputs: seq<Option<real>>)
    requires v.enabled && v.minFeedrate <= v.maxFeedrate
    requires forall p, q :: accepts(p, q)
    requires |outputs| == 5 && forall i :: 0 <= i < 5 ==> outputs[i].Some? && 0.0 <= outputs[i].value <= 1.0
    ensures var origin := [0.0, 0.0, 0.0, 0.0];
      var target := [10.0, 0.0, 0.0, 0.0];
      var r := Execute(v, accepts, origin, Segments(origin, target, 10.0, [1.0, 0.0, 0.0, 0.0], 2.0, speed), outputs);
      r.outcome == Completed && |r.queued| == 5 &&
      r.queued[0].start == origin && r.queued[4].end == target &&
      (forall i :: 0 <= i < 4 ==> r.queued[i].end == [2.0 * (i + 1) as real, 0.0, 0.0, 0.0]) &&
      forall i :: 0 <= i < 5 ==>
        r.queued[i].speed == ScaledFeedrate(outputs[i].value, v.minFeedrate, v.maxFeedrate) &&
        v.minFeedrate / 60.0 <= r.queued[i].speed <= v.maxFeedrate / 60.0
  {
    assert SegmentCount(10.0, 2.0) == 5;
    ScaledMoveQueuesChain(v, accepts, [0.0, 0.0, 0.0, 0.0], [10.0, 0.0, 0.0, 0.0], 10.0, [1.0, 0.0, 0.0, 0.0], 2.0, speed, outputs);
    FiveSubMoveEnds(v, accepts, speed, outputs);
  }

  /** The inner sub-moves of the 10 mm move end on the rounded 2 mm waypoints. */
  lemma FiveSubMoveEnds(v: ScalingView, accepts: (Position, Position) -> bool, speed: real, outputs: seq<Option<real>>)
    requires |outputs| == 5
    ensures var origin := [0.0, 0.0, 0.0, 0.0];
      var r := Execute(v, accepts, origin, Segments(origin, [10.0, 0.0, 0.0, 0.0], 10.0, [1.0, 0.0, 0.0, 0.0], 2.0, speed), outputs);
      forall i :: 0 <= i < 4 && i < |r.queued| ==> r.queued[i].end == [2.0 * (i + 1) as real, 0.0, 0.0, 0.0]
  {
    var origin := [0.0, 0.0, 0.0, 0.0];
    var segs := Segments(origin, [10.0, 0.0, 0.0, 0.0], 10.0, [1.0, 0.0, 0.0, 0.0], 2.0, speed);
    TenMillimetreSegmentEnds(speed);
    ExecuteInOrder(v, accepts, origin, segs, outputs);
  }

  /** The inner segments of the 10 mm move end on the rounded 2 mm waypoints. */
  lemma TenMillimetreSegmentEnds(speed: real)
    ensures var segs := Segments([0.0, 0.0, 0.0, 0.0], [10.0, 0.0, 0.0, 0.0], 10.0, [1.0, 0.0, 0.0, 0.0], 2.0, speed);
      |segs| == 5 && forall i :: 0 <= i < 4 ==> segs[i].end == [2.0 * (i + 1) as real, 0.0, 0.0, 0.0]
  {
    var origin := [0.0, 0.0, 0.0, 0.0];
    var dir := [1.0, 0.0, 0.0, 0.0];
    assert SegmentCount(10.0, 2.0) == 5;
    SegmentsFormChain(origin, [10.0, 0.0, 0.0, 0.0], 10.0, dir, 2.0, speed);
    assert 10.0 / 5 as real == 2.0;
    forall k | 1 <= k <= 4
      ensures Waypoint(origin, 2.0, dir, k) == [2.0 * k as real, 0.0, 0.0, 0.0]
    {
      XAxisWaypoints(k);
    }
  }

  /** Rounded 2 mm steps along X from the origin land exactly on the even millimetres. */
  lemma {:induction false} XAxisWaypoints(k: nat)
    ensures Waypoint([0.0, 0.0, 0.0, 0.0], 2.0, [1.0, 0.0, 0.0, 0.0], k) == [2.0 * k as real, 0.0, 0.0, 0.0]
  {
    if k > 0 {
      XAxisWaypoints(k - 1);
      AdvanceAlongX(2.0 * (k - 1) as real);
      Round3OfInt(2 * k);
      Round3OfInt(0);
    }
  }

  /** One rounded 2 mm step along X. */
  lemma AdvanceAlongX(x: real)
    ensures Advance([x, 0.0, 0.0, 0.0], 2.0, [1.0, 0.0, 0.0, 0.0]) == [Round3(x + 2.0), Round3(0.0), Round3(0.0), Round3(0.0)]
  {
    var q := Advance([x, 0.0, 0.0, 0.0], 2.0, [1.0, 0.0, 0.0, 0.0]);
    assert q[0] == StepCoordinate(x, 2.0, 1.0) && q[1] == StepCoordinate(0.0, 2.0, 0.0);
    assert q[2] == StepCoordinate(0.0, 2.0, 0.0) && q[3] == StepCoordinate(0.0, 2.0, 0.0);
  }

  /** Rounding a whole number to three decimals leaves it as it is. */
  lemma Round3OfInt(n: int)
    ensures Round3(n as real) == n as real
  {
    RoundHalfEvenOfInt(1000 * n);
    assert n as real * 1000.0 == (1000 * n) as real;
  }
}
