# AS5045 SSI sensor driver — Dafny model

This project models the core of a SimpleFOC sensor driver for the AS5045
magnetic rotary encoder read over SSI (synchronous serial interface). The
driver has two parts, both proved here.

- **Transport** (module `Ssi`, file `ssi.dfy`). One read transaction clocks
  18 bits out of the sensor and shifts each one into an accumulator, first bit
  most significant. `getRawCount` shifts the frame right by 6 to drop the
  status and parity bits, which leaves the 12-bit position. The levels sampled
  from the data line come in as a sequence of 18 values, each 0 or 1.
  `Read` is proved to return the big-endian value of those bits, reduced
  modulo the accumulator width. `GetRawCount` is proved to return the frame's
  first 12 bits, which lie in [0, 4096).
- **Angle tracker** (module `As5045`, file `as5045.dfy`). Class `As5045Ssi`
  holds the driver's state:
  - the number of full turns (the source's `full_rotation_offset` divided by 2π);
  - the previous raw count;
  - the previous angle and timestamp for the velocity;
  - the zero offset;
  - the natural direction.

  Its methods update these fields as `init`, `getAngle`, `getVelocity`,
  `initRelativeZero` and `initAbsoluteZero` do. Each method's postcondition
  ties the new state and the result to specification functions:
  - `WrapStep`: the wrap rule, where a jump of more than 0.8·cpr counts ∓1 turn;
  - `TrackStep`: one getAngle update of the turn count and the previous raw count;
  - `AngleOf`: the angle formula;
  - `ElapsedMicros` and `SampleTime`: the velocity sample time, with its fallback.

  Raw counts are integers and angles are reals.
- **Properties** (module `Tracking`, file `tracking.dfy`). The tracker
  unwraps correctly. Suppose the shaft moves less than a fifth of a revolution
  (at most 819 counts) between two reads. Then the tracked count
  `turns·4096 + previous raw count` equals the true unbounded shaft position
  after every read. This holds for one read (`UnwrapStep`) and for whole
  trajectories (`TrackFollowsMotion`). As a result:
  - the returned angle is the true position's angle, whatever the zero offset;
  - the velocity is the true move over the sample time;
  - reversing the natural direction flips the sign of both.

  This module also holds the calibration lemmas and two worked sequences of
  reads.

The model keeps these behaviours of the code as they are:

- `initRelativeZero` takes a second raw read for the zero offset. It does not
  reuse the sample `getAngle` just took, so `InitRelativeZero` takes two frames.
- The angle is not reduced into one revolution after the zero offset is
  subtracted. Since zero_offset is ± a raw count, `raw − zero_offset` may lie
  anywhere in [−4095, 8190]. When both reads of `initRelativeZero` return the
  same count, the turn count keeps the angle continuous after a calibration
  near the wrap point, for moves under a fifth of a turn
  (`RelativeZeroThenMotion`).
- When the two reads of `initRelativeZero` straddle the wrap point, the angle
  jumps by a full turn. For example, from previous count 4095 the reads are
  4095 and then 1. The zero offset becomes 1 while the previous count stays
  4095, and the next read of 1 returns 2π (`RelativeZeroStraddlesWrap`).
- After `init` the previous angle is 0, not the current angle. The first
  `getVelocity` therefore returns the whole current angle over Ts
  (`FirstVelocityAfterInit`).
- The velocity timestamp need not increase. The elapsed time is an unsigned
  32-bit difference, and a wrapped clock yields the modular difference.
- The two calibration calls return their "angle difference" with opposite
  conventions. With direction +1 and no full turns tracked,
  `initAbsoluteZero` returns the old angle less the new (`AbsoluteZeroShift`).
  Full turns it clears are left out of its result. `initRelativeZero` returns
  minus the old angle, which is the new angle (0) less the old.
- With natural direction −1, `initRelativeZero` sets the zero offset to
  −raw. The next read of the same count then returns −2·(raw/4096)·2π, not 0
  (`RelativeZeroThenAngle`).

## Model

| member | source | states |
|---|---|---|
| Ssi.BigEndian | AS5045_SSI.cpp:150-158 | the value built from n sampled bits, first bit most significant, is below 2^n |
| Ssi.Read | AS5045_SSI.cpp:141-163 | after exactly 18 samples the accumulator holds the big-endian value of the samples modulo 2^wordBits; with a word of at least 18 bits it holds that value exactly, Σ bitᵢ·2^(17−i) (`BitSum`) |
| Ssi.BigEndianIsBitSum | AS5045_SSI.cpp:150-158 | the value the shift-and-add recurrence builds is first bit·2^(n−1) plus the value of the remaining bits, hence Σ bitᵢ·2^(n−1−i) |
| Ssi.FramePosition | AS5045_SSI.cpp:123-126 | the position field, the frame's first 12 sampled bits, is below 2^12 |
| Ssi.FrameShift | AS5045_SSI.cpp:123-126 | shifting an 18-bit frame right by 6 leaves its first 12 sampled bits, a count in [0, 4096) |
| Ssi.GetRawCount | AS5045_SSI.cpp:123-126 | with a 32-bit `word`, the raw count is the frame's 12 position bits and lies in [0, 4096) |
| Ssi.NarrowWordDropsTopBits | AS5045_SSI.cpp:141-155 | with a 16-bit `word` the first two samples are shifted out, so `read() >> 6` is the 3rd to 12th sampled bits, below 1024; it differs from the position exactly when either lost bit is set |
| As5045.WrapStep | AS5045_SSI.cpp:47-50 | the turn count moves by at most one per read: −1 exactly when the raw count jumps up by ≥ 3277 (> 0.8·4096), +1 exactly when it jumps down by ≥ 3277, otherwise 0 |
| As5045.TrackStep | AS5045_SSI.cpp:47-53 | one getAngle update: the previous raw count becomes the new one whether or not a wrap occurred, the turn count changes by at most one, and not at all for a jump below 3277 |
| As5045.ElapsedMicros | AS5045_SSI.cpp:66-67 | the unsigned 32-bit elapsed time is `now − stamp` when the clock has not wrapped, `now + 2^32 − stamp` when it has |
| As5045.SampleTime | AS5045_SSI.cpp:67-70 | the sample time is always in (0, 0.5] s: elapsed µs·10⁻⁶ for 1..500000 µs, and the 1 ms fallback for 0 µs or more than 0.5 s |
| As5045.As5045Ssi.constructor | AS5045_SSI.cpp:9-15 | stores the three pin numbers and sets cpr to 4096 |
| As5045.As5045Ssi.Init | AS5045_SSI.cpp:17-35 | seeds the tracker: previous angle 0, timestamp = clock at init, no full turns, zero offset 0, previous raw count = one raw read |
| As5045.As5045Ssi.GetAngle | AS5045_SSI.cpp:39-60 | applies the wrap rule to the turn count, always stores the new raw count, and returns `AngleOf`: direction·(turns·2π + (raw − zero_offset)/cpr·2π) |
| As5045.As5045Ssi.GetVelocity | AS5045_SSI.cpp:63-81 | calls getAngle once and returns (new angle − previous angle)/Ts, with Ts the sample time and its fallback; afterwards the previous angle is the new angle and the timestamp is `now` |
| As5045.As5045Ssi.InitRelativeZero | AS5045_SSI.cpp:85-93 | returns minus the angle of the first read (which updates the tracker as getAngle does), sets zero_offset = direction·(second raw read), resets the turn count to 0 |
| As5045.As5045Ssi.InitAbsoluteZero | AS5045_SSI.cpp:96-106 | returns −zero_offset/cpr·2π, clears zero_offset and the turn count, leaves the previous raw count untouched |
| As5045.As5045Ssi.HasAbsoluteZero | AS5045_SSI.cpp:107-113 | the sensor always reports an absolute zero (1) |
| As5045.As5045Ssi.NeedsAbsoluteZeroSearch | AS5045_SSI.cpp:114-120 | the sensor never needs a search for the absolute zero (0) |
| Tracking.Track | AS5045_SSI.cpp:44-53 | after k reads the turn count has moved by at most k and the previous raw count is the last count read |
| Tracking.UnwrapStep | AS5045_SSI.cpp:44-53 | if the tracked count equals the shaft position and the shaft moves less than 0.2 revolution, the tracked count after the read equals the new position |
| Tracking.TrackFollowsMotion | AS5045_SSI.cpp:44-53 | along any trajectory whose steps are all below 0.2 revolution, the tracked count after the last read is the final shaft position |
| Tracking.AngleOfCount | AS5045_SSI.cpp:55-59 | the angle is direction·(tracked count − zero_offset)/cpr·2π |
| Tracking.AngleFollowsMotion | AS5045_SSI.cpp:44-59 | after a move below 0.2 revolution the angle is the angle of the true new position, so it is continuous across the wrap point |
| Tracking.VelocityFollowsMotion | AS5045_SSI.cpp:72-75 | after a move of m counts below 0.2 revolution the velocity is direction·(m/cpr·2π)/Ts |
| Tracking.DirectionReverses | AS5045_SSI.cpp:59 | natural direction −1 gives exactly the negated angle and velocity of direction +1 |
| Tracking.RelativeZeroThenAngle | AS5045_SSI.cpp:83-92 | after initRelativeZero and a read of the same count, the angle is 0 with direction +1, and −2·(raw/cpr·2π) with direction −1 |
| Tracking.RelativeZeroThenMotion | AS5045_SSI.cpp:83-92 | after initRelativeZero with direction +1, a move of m counts below 0.2 revolution reads as m/cpr·2π, also across the wrap point |
| Tracking.AbsoluteZeroShift | AS5045_SSI.cpp:94-105 | clearing the zero offset adds −direction × (the value initAbsoluteZero returns) to the angle of the current raw count; old angle − new angle = direction × (result + cleared turns·2π), so with direction +1 and no full turns the result is the old angle less the new |
| Tracking.RelativeZeroStraddlesWrap | AS5045_SSI.cpp:85-92 | when the two reads of initRelativeZero are 4095 and 1 (from previous count 4095), the next read of 1 counts a wrap and returns 2π: a full-turn jump after a 2-count move |
| Tracking.FirstVelocityAfterInit | AS5045_SSI.cpp:28-34 | init leaves the previous angle at 0: a getVelocity with no time elapsed that reads init's own count returns that count's whole angle over the 1 ms fallback |
| Tracking.ForwardWrapScenario | AS5045_SSI.cpp:47-59 | the reads 0, 1024, 2048, 3072, 4090, 5 count exactly one forward turn, at the last read, and end at angle 2π + 5/4096·2π |
| Tracking.AlternatingWrapScenario | AS5045_SSI.cpp:47-53 | reads alternating between 4095 and 0 count +1 and −1 turn in turn |

## Left out

- Pin I/O (`pinMode`, `digitalWrite`, `digitalRead`) and `close()`, which only reconfigures pins. The levels `digitalRead` returns are the `samples` / `frame` inputs, one value (0 or 1) per clock cycle.
- `ssi_delay`, its optimisation pragmas and `delayMicroseconds`: timing only.
- `_micros()`: the clock reading is the `now` parameter of `Init` and `GetVelocity`.
- The SimpleFOC `Sensor` base class and Arduino headers. `natural_direction` and `zero_offset` are plain fields. The natural direction starts at +1 (assumed to be the base class's default); the motor framework may assign it, keeping it at ±1.
- As5045.As5045Ssi.constructor: the C++ constructor leaves the tracker fields uninitialised; the model starts them at 0.
- IEEE single-precision rounding: angle, velocity and sample-time arithmetic is exact `real` arithmetic. `_2PI` is the real 6.28318530718. Raw counts, which the source stores in `float`, are exact integers.
- `zero_offset` is an integer. The `(int)` cast in `getAngle` and `initAbsoluteZero` is then the identity. A non-integer offset written by other code is not modelled.
- Integer widths: `unsigned long` and `long` are taken as 32 bits. `velocity_calc_timestamp` is a signed `long`; the model stores its unsigned reinterpretation, a value in [0, 2^32). Its only use converts it back to `unsigned long` for the subtraction, so the elapsed time, the difference modulo 2^32, is the same. `word` is taken as 32 bits for the tracker (`WORD_BITS`). The 16-bit `word` of AVR targets is covered only by `Ssi.NarrowWordDropsTopBits`.
- Frame parity and status bits are not checked, as in the source.
