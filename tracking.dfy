// Properties of the angle tracker over sequences of reads: the unwrapped count
// follows the shaft as long as it moves less than a fifth of a revolution
// between reads, so the angle and the velocity are those of the true motion;
// and what the calibration calls do to the next angle.

module Tracking {
  import opened Ssi
  import opened As5045

  /** The largest move, in counts, below 0.2 of a revolution (5 * 819 < 4096). */
  const MAX_STEP: int := 819

  /** The turn count and previous raw count after getAngle has read each of `raws` in turn. */
  function Track(turns: int, prev: int, raws: seq<int>): (state: (int, int))
    ensures Abs(state.0 - turns) <= |raws|
    ensures raws == [] ==> state == (turns, prev)
    ensures raws != [] ==> state.1 == raws[|raws| - 1]
    decreases |raws|
  {
    if raws == [] then (turns, prev)
    else
      var (t, r) := TrackStep(turns, prev, raws[0]);
      Track(t, r, raws[1..])
  }

  /** The raw counts the sensor reports at the unbounded positions `ps` (in counts). */
  function Counts(ps: seq<int>): (raws: seq<int>)
    ensures |raws| == |ps|
    ensures forall i :: 0 <= i < |ps| ==> raws[i] == ps[i] % CPR
  {
    seq(|ps|, i requires 0 <= i < |ps| => ps[i] % CPR)
  }

  /**
   * One read: if the tracked count `turns * CPR + prev` is the shaft position
   * `p` and the shaft moves by less than a fifth of a revolution, the tracked
   * count after the read is the new position.
   */
  lemma UnwrapStep(turns: int, prev: int, p: int, m: int)
    requires 0 <= prev < CPR && turns * CPR + prev == p
    requires Abs(m) <= MAX_STEP
    ensures TrackStep(turns, prev, (p + m) % CPR).0 * CPR + (p + m) % CPR == p + m
  {
    var raw := (p + m) % CPR;
    var q := (p + m) / CPR;
    assert p + m == q * CPR + raw;
    var k := q - turns;
    assert raw - prev == m - k * CPR;
    if k > 1 || k < -1 {
      assert false;
    }
  }

  /** Every read of a trajectory that never moves a fifth of a revolution between reads. */
  lemma {:induction false} TrackFollowsMotion(turns: int, prev: int, ps: seq<int>)
    requires 0 <= prev < CPR
    requires |ps| >= 1 && turns * CPR + prev == ps[0]
    requires forall i :: 0 <= i < |ps| - 1 ==> Abs(ps[i + 1] - ps[i]) <= MAX_STEP
    ensures Track(turns, prev, Counts(ps[1..])).0 * CPR + Track(turns, prev, Counts(ps[1..])).1
         == ps[|ps| - 1]
    decreases |ps|
  {
    if |ps| > 1 {
      var p, m := ps[0], ps[1] - ps[0];
      UnwrapStep(turns, prev, p, m);
      var (t, r) := TrackStep(turns, prev, ps[1] % CPR);
      var rest := ps[1..];
      assert Counts(ps[1..])[1..] == Counts(rest[1..]);
      assert forall i :: 0 <= i < |rest| - 1 ==> rest[i + 1] - rest[i] == ps[i + 2] - ps[i + 1];
      TrackFollowsMotion(t, r, rest);
    }
  }

  /** The angle is the tracked count, less the zero offset, as a fraction of a revolution. */
  lemma AngleOfCount(turns: int, raw: int, zeroOffset: int, direction: int)
    requires direction == 1 || direction == -1
    ensures AngleOf(turns, raw, zeroOffset, direction)
         == direction as real * ((turns * CPR + raw - zeroOffset) as real / CPR as real * TWO_PI)
  {
  }

  /**
   * The angle a read returns after a small move is the angle of the new shaft
   * position: the unwrapped angle is continuous whatever the zero offset.
   */
  lemma AngleFollowsMotion(turns: int, prev: int, p: int, m: int, zeroOffset: int, direction: int)
    requires 0 <= prev < CPR && turns * CPR + prev == p
    requires Abs(m) <= MAX_STEP
    requires direction == 1 || direction == -1
    ensures AngleOf(TrackStep(turns, prev, (p + m) % CPR).0, (p + m) % CPR, zeroOffset, direction)
         == direction as real * ((p + m - zeroOffset) as real / CPR as real * TWO_PI)
  {
    UnwrapStep(turns, prev, p, m);
    AngleOfCount(TrackStep(turns, prev, (p + m) % CPR).0, (p + m) % CPR, zeroOffset, direction);
  }

  /**
   * The velocity getVelocity returns after a small move is the move, in
   * radians, over the sample time.
   */
  lemma VelocityFollowsMotion(turns: int, prev: int, p: int, m: int, zeroOffset: int,
                              direction: int, ts: real)
    requires 0 <= prev < CPR && turns * CPR + prev == p
    requires Abs(m) <= MAX_STEP
    requires direction == 1 || direction == -1
    requires ts > 0.0
    ensures (AngleOf(TrackStep(turns, prev, (p + m) % CPR).0, (p + m) % CPR, zeroOffset, direction)
             - AngleOf(turns, prev, zeroOffset, direction)) / ts
         == direction as real * (m as real / CPR as real * TWO_PI) / ts
  {
    AngleFollowsMotion(turns, prev, p, m, zeroOffset, direction);
    AngleOfCount(turns, prev, zeroOffset, direction);
    var before := AngleOf(turns, prev, zeroOffset, direction);
    var after := AngleOf(TrackStep(turns, prev, (p + m) % CPR).0, (p + m) % CPR, zeroOffset, direction);
    assert after - before == direction as real * (m as real / CPR as real * TWO_PI);
  }

  /** With the direction reversed, angle and velocity change sign. */
  lemma DirectionReverses(turns: int, raw: int, turns0: int, raw0: int, zeroOffset: int, ts: real)
    requires ts > 0.0
    ensures AngleOf(turns, raw, zeroOffset, -1) == -AngleOf(turns, raw, zeroOffset, 1)
    ensures (AngleOf(turns, raw, zeroOffset, -1) - AngleOf(turns0, raw0, zeroOffset, -1)) / ts
         == -((AngleOf(turns, raw, zeroOffset, 1) - AngleOf(turns0, raw0, zeroOffset, 1)) / ts)
  {
    var a, a0 := AngleOf(turns, raw, zeroOffset, 1), AngleOf(turns0, raw0, zeroOffset, 1);
    assert AngleOf(turns, raw, zeroOffset, -1) - AngleOf(turns0, raw0, zeroOffset, -1) == -(a - a0);
  }

  /**
   * initRelativeZero followed by a read of the same raw count: with the
   * natural direction +1 the angle is 0; with -1 the zero offset has the
   * wrong sign and the angle is minus twice the raw count's angle.
   */
  lemma RelativeZeroThenAngle(raw: int, direction: int)
    requires 0 <= raw < CPR
    requires direction == 1 || direction == -1
    ensures TrackStep(0, raw, raw) == (0, raw)
    ensures direction == 1 ==> AngleOf(0, raw, direction * raw, direction) == 0.0
    ensures direction == -1 ==>
      AngleOf(0, raw, direction * raw, direction) == -2.0 * (raw as real / CPR as real * TWO_PI)
  {
  }

  /**
   * After initRelativeZero at raw count `raw` (natural direction +1, both
   * reads equal), a move of less than a fifth of a revolution reads as that
   * move, also when it crosses the sensor's wrap point.
   */
  lemma RelativeZeroThenMotion(raw: int, m: int)
    requires 0 <= raw < CPR
    requires Abs(m) <= MAX_STEP
    ensures AngleOf(TrackStep(0, raw, (raw + m) % CPR).0, (raw + m) % CPR, raw, 1)
         == m as real / CPR as real * TWO_PI
  {
    AngleFollowsMotion(0, raw, raw, m, raw, 1);
  }

  /**
   * Clearing the zero offset, as initAbsoluteZero does, adds minus the
   * direction times its result to the angle of the current raw count (with
   * the turn count already reset). The old angle less the new is the
   * direction times (the result plus the full turns that were cleared); so
   * with direction +1 and no full turns tracked, the result is the old angle
   * less the new.
   */
  lemma AbsoluteZeroShift(turns: int, raw: int, zeroOffset: int, direction: int)
    requires direction == 1 || direction == -1
    ensures AngleOf(0, raw, 0, direction)
         == AngleOf(0, raw, zeroOffset, direction)
            - direction as real * (-zeroOffset as real / CPR as real * TWO_PI)
    ensures AngleOf(turns, raw, zeroOffset, direction) - AngleOf(0, raw, 0, direction)
         == direction as real * (-zeroOffset as real / CPR as real * TWO_PI + turns as real * TWO_PI)
  {
  }

  /**
   * initRelativeZero whose two reads straddle the wrap point: from previous
   * count 4095 the first read is 4095 and the second 1, so the zero offset
   * is 1 while the previous count stays 4095. A next read of 1 (the shaft has
   * moved 2 counts) counts a wrap and returns a full turn, not 0.
   */
  lemma RelativeZeroStraddlesWrap()
    ensures TrackStep(0, CPR - 1, CPR - 1) == (0, CPR - 1)
    ensures TrackStep(0, CPR - 1, 1) == (1, 1)
    ensures AngleOf(1, 1, 1, 1) == TWO_PI
  {
  }

  /**
   * init leaves the previous angle at 0, not at the angle of its read. If
   * getVelocity reads the same count as init, with no time elapsed, the
   * velocity is the whole angle of that count over the 1 ms fallback.
   */
  lemma FirstVelocityAfterInit(now: int, raw: int)
    requires 0 <= now < ULONG_MOD && 0 <= raw < CPR
    ensures TrackStep(0, raw, raw) == (0, raw)
    ensures (AngleOf(0, raw, 0, 1) - 0.0) / SampleTime(ElapsedMicros(now, now))
         == raw as real / CPR as real * TWO_PI / FALLBACK_TS
  {
  }

  /**
   * The reads 0, 1024, 2048, 3072, 4090, 5 from a fresh tracker: a single
   * forward wrap, at the last read.
   */
  lemma ForwardWrapScenario()
    ensures Track(0, 0, [1024, 2048, 3072, 4090]) == (0, 4090)
    ensures Track(0, 0, [1024, 2048, 3072, 4090, 5]) == (1, 5)
    ensures AngleOf(1, 5, 0, 1) == TWO_PI + 5.0 / 4096.0 * TWO_PI
  {
  }

  /** Reads alternating across the wrap point count a turn each way. */
  lemma AlternatingWrapScenario()
    ensures Track(0, CPR - 1, [0]) == (1, 0)
    ensures Track(0, CPR - 1, [0, CPR - 1]) == (0, CPR - 1)
    ensures Track(0, CPR - 1, [0, CPR - 1, 0]) == (1, 0)
  {
  }
}
