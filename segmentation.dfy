/**
 * Move segmentation (`PowerCore.split_move`): one commanded linear move is
 * chopped into `ceil(move_d / move_split_dist)` sub-moves that form a chain
 * from the current position to the requested end point.
 */
module Segmentation {
  import opened Rounding

  /** A machine coordinate (X, Y, Z, extruder in the source). */
  type Position = seq<real>

  /** One sub-move: start, end and the commanded speed. */
  datatype Segment = Segment(start: Position, end: Position, speed: real)

  /** Number of sub-moves for a move of length `moveD` cut into pieces of at most `splitDist`. */
  function SegmentCount(moveD: real, splitDist: real): (n: nat)
    requires moveD > 0.0 && splitDist > 0.0
    ensures n >= 1
    ensures (n - 1) as real * splitDist < moveD <= n as real * splitDist
  {
    var c := Ceil(moveD / splitDist);
    CeilScaled(moveD, splitDist, c);
    c
  }

  /** `c = ceil(d / l)` means `(c - 1) * l < d <= c * l` once both sides are multiplied by `l`. */
  lemma CeilScaled(d: real, l: real, c: int)
    requires d > 0.0 && l > 0.0
    requires d / l <= c as real < d / l + 1.0
    ensures c >= 1
    ensures (c - 1) as real * l < d <= c as real * l
  {
    var q := d / l;
    assert q * l == d;
    assert q > 0.0;
    assert c as real * l >= q * l;
    assert (c - 1) as real * l < q * l;
  }

  /** One step of `len` along `dir` from `p`, each coordinate rounded to three decimals. */
  function Advance(p: Position, len: real, dir: seq<real>): (q: Position)
    requires |p| == |dir|
    ensures |q| == |dir|
    ensures forall i :: 0 <= i < |q| ==>
      p[i] + len * dir[i] - 1.0 / 2000.0 <= q[i] <= p[i] + len * dir[i] + 1.0 / 2000.0
  {
    seq(|dir|, i requires 0 <= i < |dir| => StepCoordinate(p[i], len, dir[i]))
  }

  /** One coordinate of one step, rounded as `round(x, 3)` does. */
  function StepCoordinate(x: real, len: real, v: real): (y: real)
    ensures x + len * v - 1.0 / 2000.0 <= y <= x + len * v + 1.0 / 2000.0
  {
    Round3(x + len * v)
  }

  /** The position reached after `k` rounded steps from `start`. */
  function Waypoint(start: Position, len: real, dir: seq<real>, k: nat): (w: Position)
    requires |start| == |dir|
    ensures |w| == |dir|
  {
    if k == 0 then start else Advance(Waypoint(start, len, dir, k - 1), len, dir)
  }

  /** Coordinate `i` of the exact (unrounded) point `k` steps from `start`. */
  function ExactWaypoint(start: Position, len: real, dir: seq<real>, k: nat, i: nat): real
    requires |start| == |dir| && i < |dir|
  {
    start[i] + k as real * (len * dir[i])
  }

  /** Consecutive exact waypoints are one step apart. */
  lemma ExactWaypointStep(start: Position, len: real, dir: seq<real>, k: nat, i: nat)
    requires |start| == |dir| && i < |dir| && k > 0
    ensures ExactWaypoint(start, len, dir, k, i) == ExactWaypoint(start, len, dir, k - 1, i) + len * dir[i]
  {
    var step := len * dir[i];
    assert k as real * step == (k - 1) as real * step + step;
  }

  /**
   * Rounding drift: after `k` steps each coordinate lies within `k / 2000` of
   * the exact point `start + k * len * dir`. This is the error the source
   * discards by forcing the last sub-move to end at the requested point.
   */
  lemma {:induction false} WaypointDrift(start: Position, len: real, dir: seq<real>, k: nat, i: nat)
    requires |start| == |dir| && i < |dir|
    ensures var exact := ExactWaypoint(start, len, dir, k, i);
      exact - k as real / 2000.0 <= Waypoint(start, len, dir, k)[i] <= exact + k as real / 2000.0
  {
    if k > 0 {
      WaypointDrift(start, len, dir, k - 1, i);
      ExactWaypointStep(start, len, dir, k, i);
      var prev := Waypoint(start, len, dir, k - 1)[i];
      var here := Waypoint(start, len, dir, k)[i];
      assert here == StepCoordinate(prev, len, dir[i]);
      assert (k - 1) as real / 2000.0 + 1.0 / 2000.0 == k as real / 2000.0;
    }
  }

  /**
   * The sub-moves `split_move` returns: sub-move `i` runs from waypoint `i`
   * to waypoint `i + 1`, except that the last one ends at `end`.
   */
  function Segments(start: Position, end: Position, moveD: real, dir: seq<real>, splitDist: real, speed: real): (segs: seq<Segment>)
    requires moveD > 0.0 && splitDist > 0.0 && |start| == |dir|
    ensures |segs| == SegmentCount(moveD, splitDist)
  {
    var n := SegmentCount(moveD, splitDist);
    var len := moveD / n as real;
    seq(n, i requires 0 <= i < n =>
      Segment(Waypoint(start, len, dir, i),
              if i == n - 1 then end else Waypoint(start, len, dir, i + 1),
              speed))
  }

  /** The sub-moves form a chain from `start` to exactly `end`, all at the commanded speed. */
  predicate IsChain(segs: seq<Segment>, start: Position, end: Position, speed: real)
  {
    |segs| >= 1 &&
    segs[0].start == start &&
    (forall i :: 0 <= i < |segs| - 1 ==> segs[i + 1].start == segs[i].end) &&
    segs[|segs| - 1].end == end &&
    (forall i :: 0 <= i < |segs| ==> segs[i].speed == speed)
  }

  /**
   * `ceil(d / L)` sub-moves that chain from the start to exactly the end,
   * every one at the commanded speed and every intermediate joint on the
   * rounded waypoint grid.
   */
  lemma SegmentsFormChain(start: Position, end: Position, moveD: real, dir: seq<real>, splitDist: real, speed: real)
    requires moveD > 0.0 && splitDist > 0.0 && |start| == |dir|
    ensures var segs := Segments(start, end, moveD, dir, splitDist, speed);
      |segs| == SegmentCount(moveD, splitDist) &&
      IsChain(segs, start, end, speed) &&
      forall i :: 0 <= i < |segs| - 1 ==>
        segs[i].end == Waypoint(start, moveD / |segs| as real, dir, i + 1)
  {
  }

  /**
   * `split_move`: the first sub-move, then `n - 1` more appended in a loop,
   * each starting where the previous one ended; finally the last sub-move's
   * end is overwritten with the requested end point.
   */
  method SplitMove(start: Position, end: Position, moveD: real, dir: seq<real>, splitDist: real, speed: real)
    returns (segs: seq<Segment>)
    requires moveD > 0.0 && splitDist > 0.0 && |start| == |dir|
    ensures segs == Segments(start, end, moveD, dir, splitDist, speed)
    ensures |segs| == SegmentCount(moveD, splitDist)
    ensures IsChain(segs, start, end, speed)
  {
    var n := SegmentCount(moveD, splitDist);
    var len := moveD / n as real;
    var firstEnd := Advance(start, len, dir);
    segs := [Segment(start, firstEnd, speed)];
    var k := 1;
    while k < n
      invariant 1 <= k <= n
      invariant |segs| == k
      invariant forall i :: 0 <= i < k ==>
        segs[i] == Segment(Waypoint(start, len, dir, i), Waypoint(start, len, dir, i + 1), speed)
    {
      var from := segs[|segs| - 1].end;
      assert from == Waypoint(start, len, dir, k);
      segs := segs + [Segment(from, Advance(from, len, dir), speed)];
      k := k + 1;
    }
    segs := segs[n - 1 := segs[n - 1].(end := end)];
    ghost var spec := Segments(start, end, moveD, dir, splitDist, speed);
    assert forall i :: 0 <= i < n ==> segs[i] == spec[i];
    SegmentsFormChain(start, end, moveD, dir, splitDist, speed);
  }
}
