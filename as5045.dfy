// The angle tracker of the AS5045 SSI sensor: successive 12-bit raw counts are
// unwrapped into a multi-turn angle, differentiated into a velocity, and
// re-zeroed by the two calibration calls.

module As5045 {
  import opened Ssi

  /** Counts per revolution, set by the constructor. */
  const CPR: int := 4096

  /** SimpleFOC's `_2PI`, taken as an exact real. */
  const TWO_PI: real := 6.28318530718

  /** `unsigned long` wraps modulo 2^32 on the targets of this driver. */
  const ULONG_MOD: int := 0x1_0000_0000

  /** Velocity sample time used when the measured one is not in (0, 0.5] seconds. */
  const FALLBACK_TS: real := 0.001
  const MAX_TS: real := 0.5

  function Abs(x: int): nat {
    if x < 0 then -x else x
  }

  /**
   * The change of the turn count when the raw count moves by `delta`: a jump
   * of more than 0.8 of a revolution is read as the count wrapping, backwards
   * (one turn less) when the jump is upwards and forwards when downwards.
   * As raw counts are integers, the test `|delta| > 3276.8` is `|delta| >= 3277`.
   */
  function WrapStep(delta: int): (turns: int)
    ensures -1 <= turns <= 1
    ensures turns == -1 <==> delta >= 3277
    ensures turns == 1 <==> delta <= -3277
  {
    if Abs(delta) as real > 0.8 * CPR as real then
      (if delta > 0 then -1 else 1)
    else 0
  }

  /**
   * The angle getAngle returns: `direction * (turns * 2pi + (raw - zeroOffset) / cpr * 2pi)`,
   * with no reduction of `raw - zeroOffset` into one revolution.
   */
  function AngleOf(turns: int, raw: int, zeroOffset: int, direction: int): (angle: real) {
    direction as real * (turns as real * TWO_PI + (raw - zeroOffset) as real / CPR as real * TWO_PI)
  }

  /** `now - stamp` computed in 32-bit `unsigned long`. */
  function ElapsedMicros(now: int, stamp: int): (us: nat)
    requires 0 <= now < ULONG_MOD && 0 <= stamp < ULONG_MOD
    ensures us < ULONG_MOD
    ensures stamp <= now ==> us == now - stamp
    ensures now < stamp ==> us == now + ULONG_MOD - stamp
  {
    (now - stamp) % ULONG_MOD
  }

  /** The velocity sample time in seconds, with the fallback for strange intervals. */
  function SampleTime(elapsedUs: nat): (ts: real)
    ensures 0.0 < ts <= MAX_TS
    ensures 0 < elapsedUs <= 500000 ==> ts * 1000000.0 == elapsedUs as real
    ensures elapsedUs == 0 || elapsedUs > 500000 ==> ts == FALLBACK_TS
  {
    var t := elapsedUs as real * 0.000001;
    if t <= 0.0 || t > MAX_TS then FALLBACK_TS else t
  }

  /** The two fields one getAngle call updates: (turn count, previous raw count). */
  function TrackStep(turns: int, prev: int, raw: int): (next: (int, int))
    ensures next.1 == raw
    ensures -1 <= next.0 - turns <= 1
    ensures Abs(raw - prev) < 3277 ==> next.0 == turns
  {
    (turns + WrapStep(raw - prev), raw)
  }

  class As5045Ssi {
    var chipSelectPin: int
    var dataOutPin: int
    var clockPin: int
    var cpr: int

    /** full_rotation_offset divided by 2pi: the number of full turns tracked. */
    var fullRotations: int
    /** The raw count seen by the last getAngle. */
    var angleDataPrev: int
    /** The angle seen by the last getVelocity. */
    var anglePrev: real
    /** The clock, in microseconds, at the last getVelocity. */
    var velocityCalcTimestamp: int
    /** The raw count subtracted before conversion to radians. */
    var zeroOffset: int
    /** The sign of positive rotation, +1 or -1, owned by the motor framework. */
    var naturalDirection: int

    ghost predicate Valid()
      reads this
    {
      && cpr == CPR
      && (naturalDirection == 1 || naturalDirection == -1)
      && 0 <= angleDataPrev < CPR
      && 0 <= velocityCalcTimestamp < ULONG_MOD
    }

    constructor (cs: int, dout: int, clk: int)
      ensures Valid()
      ensures chipSelectPin == cs && dataOutPin == dout && clockPin == clk
      ensures cpr == 4096 && naturalDirection == 1
    {
      chipSelectPin, dataOutPin, clockPin := cs, dout, clk;
      cpr := 4096;
      fullRotations, angleDataPrev, anglePrev := 0, 0, 0.0;
      velocityCalcTimestamp, zeroOffset := 0, 0;
      naturalDirection := 1;
    }

    /** Seeds the tracker from one raw read; `now` is the microsecond clock. */
    method Init(now: int, frame: seq<int>)
      requires Valid() && 0 <= now < ULONG_MOD && IsFrame(frame)
      modifies this`anglePrev, this`velocityCalcTimestamp, this`fullRotations,
               this`angleDataPrev, this`zeroOffset
      ensures Valid()
      ensures anglePrev == 0.0 && velocityCalcTimestamp == now
      ensures fullRotations == 0 && zeroOffset == 0
      ensures angleDataPrev == FramePosition(frame)
    {
      anglePrev := 0.0;
      velocityCalcTimestamp := now;
      fullRotations := 0;
      angleDataPrev := GetRawCount(frame);
      zeroOffset := 0;
    }

    /** Reads one raw count from `frame` and returns the multi-turn angle in radians. */
    method GetAngle(frame: seq<int>) returns (angle: real)
      requires Valid() && IsFrame(frame)
      modifies this`fullRotations, this`angleDataPrev
      ensures Valid()
      ensures (fullRotations, angleDataPrev)
           == TrackStep(old(fullRotations), old(angleDataPrev), FramePosition(frame))
      ensures angle == AngleOf(fullRotations, angleDataPrev, zeroOffset, naturalDirection)
    {
      var angleData := GetRawCount(frame);
      var dAngle := angleData - angleDataPrev;
      if Abs(dAngle) as real > 0.8 * cpr as real {
        fullRotations := fullRotations + (if dAngle > 0 then -1 else 1);
      }
      angleDataPrev := angleData;
      var adjusted := angleData - zeroOffset;
      angle := naturalDirection as real
        * (fullRotations as real * TWO_PI + adjusted as real / cpr as real * TWO_PI);
    }

    /**
     * Differentiates the angle over the time since the previous call; `now` is
     * the microsecond clock read at entry, `frame` the raw read of getAngle.
     */
    method GetVelocity(now: int, frame: seq<int>) returns (velocity: real)
      requires Valid() && 0 <= now < ULONG_MOD && IsFrame(frame)
      modifies this`fullRotations, this`angleDataPrev, this`anglePrev, this`velocityCalcTimestamp
      ensures Valid()
      ensures (fullRotations, angleDataPrev)
           == TrackStep(old(fullRotations), old(angleDataPrev), FramePosition(frame))
      ensures anglePrev == AngleOf(fullRotations, angleDataPrev, zeroOffset, naturalDirection)
      ensures velocity
           == (anglePrev - old(anglePrev)) / SampleTime(ElapsedMicros(now, old(velocityCalcTimestamp)))
      ensures velocityCalcTimestamp == now
    {
      var elapsed := (now - velocityCalcTimestamp) % ULONG_MOD;
      var ts := elapsed as real * 0.000001;
      if ts <= 0.0 || ts > 0.5 {
        ts := 0.001;
      }
      var angleC := GetAngle(frame);
      velocity := (angleC - anglePrev) / ts;
      anglePrev := angleC;
      velocityCalcTimestamp := now;
    }

    /**
     * Declares the current shaft position as zero: `first` is the read made
     * by getAngle, `second` the read that sets the zero offset.
     */
    method InitRelativeZero(first: seq<int>, second: seq<int>) returns (angleOffset: real)
      requires Valid() && IsFrame(first) && IsFrame(second)
      modifies this`fullRotations, this`angleDataPrev, this`zeroOffset
      ensures Valid()
      ensures angleDataPrev == FramePosition(first)
      ensures angleOffset
           == -AngleOf(old(fullRotations) + WrapStep(FramePosition(first) - old(angleDataPrev)),
                       FramePosition(first), old(zeroOffset), naturalDirection)
      ensures zeroOffset == naturalDirection * FramePosition(second)
      ensures fullRotations == 0
    {
      var angle := GetAngle(first);
      angleOffset := -angle;
      var raw := GetRawCount(second);
      zeroOffset := naturalDirection * raw;
      fullRotations := 0;
    }

    /** Returns to the sensor's own zero; the result is the old offset in radians, negated. */
    method InitAbsoluteZero() returns (rotation: real)
      requires Valid()
      modifies this`zeroOffset, this`fullRotations
      ensures Valid()
      ensures rotation == -old(zeroOffset) as real / CPR as real * TWO_PI
      ensures zeroOffset == 0 && fullRotations == 0
    {
      var r := -zeroOffset;
      zeroOffset := 0;
      fullRotations := 0;
      rotation := r as real / cpr as real * TWO_PI;
    }

    /** The sensor reports an absolute zero (a magnetic sensor): always 1. */
    function HasAbsoluteZero(): (has: int)
      ensures has == 1
    {
      1
    }

    /** No search for the absolute zero is needed (a magnetic sensor): always 0. */
    function NeedsAbsoluteZeroSearch(): (needs: int)
      ensures needs == 0
    {
      0
    }
  }
}
