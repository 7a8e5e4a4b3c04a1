// The SSI transport of the AS5045 driver: one 18-bit frame is clocked out of
// the sensor most significant bit first, and the 12-bit position field is the
// frame's top 12 bits (the last 6 bits are status and parity).

module Ssi {

  const FRAME_BITS: nat := 18
  const POSITION_BITS: nat := 12
  const STATUS_BITS: nat := 6

  /** Width of Arduino's `word` (`unsigned int`) on the 32-bit targets this model assumes. */
  const WORD_BITS: nat := 32

  function Pow2(n: nat): (r: nat)
    ensures r >= 1
  {
    if n == 0 then 1 else 2 * Pow2(n - 1)
  }

  /** A level sampled from the data line: digitalRead yields LOW (0) or HIGH (1). */
  predicate IsBit(b: int) {
    b == 0 || b == 1
  }

  predicate AllBits(bits: seq<int>) {
    forall i :: 0 <= i < |bits| ==> IsBit(bits[i])
  }

  /** The 18 levels sampled during one read transaction, in clock order. */
  predicate IsFrame(bits: seq<int>) {
    |bits| == FRAME_BITS && AllBits(bits)
  }

  /** The number whose binary digits are `bits`, first bit most significant. */
  function BigEndian(bits: seq<int>): (r: nat)
    requires AllBits(bits)
    ensures r < Pow2(|bits|)
  {
    if bits == [] then 0
    else 2 * BigEndian(bits[..|bits| - 1]) + bits[|bits| - 1]
  }

  /** The position field of a frame: its first 12 sampled bits. */
  function FramePosition(bits: seq<int>): (pos: nat)
    requires IsFrame(bits)
    ensures pos < Pow2(POSITION_BITS)
  {
    BigEndian(bits[..POSITION_BITS])
  }

  lemma MulAtLeast(k: int, m: int)
    requires k >= 1 && m >= 0
    ensures k * m >= m
  {
  }

  lemma DivModUnique(x: int, q: int, r: int, m: int)
    requires m > 0 && 0 <= r < m && x == q * m + r
    ensures x / m == q && x % m == r
  {
    var q0, r0 := x / m, x % m;
    if q0 != q {
      var k := if q0 > q then q0 - q else q - q0;
      MulAtLeast(k, m);
      assert false;
    }
  }

  /** Shifting one bit into an accumulator that wraps modulo `m` commutes with the wrap. */
  lemma ShiftInWraps(x: int, acc: int, b: int, m: int)
    requires m > 0 && acc == x % m
    ensures (acc * 2 % m + b) % m == (2 * x + b) % m
  {
    var q := x / m;
    var s, t := (acc * 2) / m, (acc * 2) % m;
    var u, v := (t + b) / m, (t + b) % m;
    assert 2 * x + b == (2 * q + s + u) * m + v;
    DivModUnique(2 * x + b, 2 * q + s + u, v, m);
  }

  lemma {:induction false} Pow2Monotone(a: nat, b: nat)
    requires a <= b
    ensures Pow2(a) <= Pow2(b)
  {
    if a < b {
      Pow2Monotone(a, b - 1);
    }
  }

  /** Kept apart: the solver does not find this step inside BigEndianAppend's larger context. */
  lemma MulTwice(x: int, p: int)
    ensures x * (2 * p) == 2 * (x * p)
  {
  }

  lemma {:induction false} BigEndianAppend(a: seq<int>, b: seq<int>)
    requires AllBits(a) && AllBits(b)
    ensures AllBits(a + b)
    ensures BigEndian(a + b) == BigEndian(a) * Pow2(|b|) + BigEndian(b)
  {
    if b == [] {
      assert a + b == a;
    } else {
      var front := b[..|b| - 1];
      assert (a + b)[..|a + b| - 1] == a + front;
      BigEndianAppend(a, front);
      var x, p, y, last := BigEndian(a), Pow2(|front|), BigEndian(front), b[|b| - 1];
      assert BigEndian(a + b) == 2 * BigEndian(a + front) + last;
      assert BigEndian(b) == 2 * y + last;
      assert Pow2(|b|) == 2 * p;
      MulTwice(x, p);
    }
  }

  /** The sum of each bit times its weight, the first bit weighing 2^(n-1). */
  function BitSum(bits: seq<int>): int {
    if bits == [] then 0 else bits[0] * Pow2(|bits| - 1) + BitSum(bits[1..])
  }

  /** The accumulated value is the weighted sum of the bits, first bit most significant. */
  lemma {:induction false} BigEndianIsBitSum(bits: seq<int>)
    requires AllBits(bits)
    ensures bits != [] ==> BigEndian(bits) == bits[0] * Pow2(|bits| - 1) + BigEndian(bits[1..])
    ensures BigEndian(bits) == BitSum(bits)
    decreases |bits|
  {
    if bits != [] {
      assert bits == [bits[0]] + bits[1..];
      BigEndianAppend([bits[0]], bits[1..]);
      assert [bits[0]][..0] == [];
      assert BigEndian([bits[0]]) == bits[0];
      BigEndianIsBitSum(bits[1..]);
    }
  }

  /**
   * Shifting a frame right past its 6 status bits leaves its first 12 sampled
   * bits, a count below 4096.
   */
  lemma FrameShift(bits: seq<int>)
    requires IsFrame(bits)
    ensures BigEndian(bits) / Pow2(STATUS_BITS) == FramePosition(bits)
    ensures FramePosition(bits) < 4096
  {
    var head, status := bits[..POSITION_BITS], bits[POSITION_BITS..];
    assert bits == head + status;
    BigEndianAppend(head, status);
    assert Pow2(STATUS_BITS) == 64;
    assert Pow2(POSITION_BITS) == 4096;
    DivModUnique(BigEndian(bits), BigEndian(head), BigEndian(status), 64);
  }

  /**
   * The bit-accumulation loop of a read transaction: 18 samples are shifted
   * into an accumulator of `wordBits` bits, first sample most significant.
   * `samples` stands for the levels digitalRead returns on each clock cycle.
   */
  method Read(samples: seq<int>, wordBits: nat) returns (rawValue: nat)
    requires IsFrame(samples)
    ensures rawValue == BigEndian(samples) % Pow2(wordBits)
    ensures FRAME_BITS <= wordBits ==> rawValue == BigEndian(samples) == BitSum(samples)
  {
    var m := Pow2(wordBits);
    rawValue := 0;
    var c := 0;
    assert samples[..c] == [];
    DivModUnique(0, 0, 0, m);
    while c < FRAME_BITS
      invariant 0 <= c <= FRAME_BITS
      invariant rawValue == BigEndian(samples[..c]) % m
    {
      var inputStream := samples[c];
      ghost var done := samples[..c];
      assert samples[..c + 1] == done + [inputStream];
      assert (done + [inputStream])[..|done|] == done;
      ghost var next := BigEndian(samples[..c + 1]);
      assert next == 2 * BigEndian(done) + inputStream;
      ShiftInWraps(BigEndian(done), rawValue, inputStream, m);
      rawValue := ((rawValue * 2) % m + inputStream) % m;
      assert rawValue == next % m;
      c := c + 1;
    }
    assert samples[..FRAME_BITS] == samples;
    BigEndianIsBitSum(samples);
    if FRAME_BITS <= wordBits {
      Pow2Monotone(FRAME_BITS, wordBits);
      DivModUnique(BigEndian(samples), 0, BigEndian(samples), m);
    }
  }

  /**
   * getRawCount: the frame read into a 32-bit word, shifted right by 6. The
   * count is the position field of the frame and so lies in [0, 4096).
   */
  method GetRawCount(samples: seq<int>) returns (count: int)
    requires IsFrame(samples)
    ensures count == FramePosition(samples)
    ensures 0 <= count < 4096
  {
    var frame := Read(samples, WORD_BITS);
    Pow2Monotone(FRAME_BITS, WORD_BITS);
    DivModUnique(BigEndian(samples), 0, BigEndian(samples), Pow2(WORD_BITS));
    FrameShift(samples);
    count := frame / Pow2(STATUS_BITS);
  }

  /**
   * Where `word` is 16 bits wide (AVR), the accumulator drops the first two
   * sampled bits, so the shifted value holds the 3rd to 12th sampled bits: a count
   * below 1024 that misses the position whenever either dropped bit is set.
   */
  lemma {:induction false} NarrowWordDropsTopBits(bits: seq<int>)
    requires IsFrame(bits)
    ensures BigEndian(bits) % Pow2(16) / Pow2(STATUS_BITS) == BigEndian(bits[2..POSITION_BITS])
    ensures BigEndian(bits) % Pow2(16) / Pow2(STATUS_BITS) < 1024
    ensures (bits[0] == 1 || bits[1] == 1) <==> BigEndian(bits) % Pow2(16) / Pow2(STATUS_BITS) != FramePosition(bits)
  {
    var top, rest := bits[..2], bits[2..];
    var mid, status := bits[2..POSITION_BITS], bits[POSITION_BITS..];
    assert bits == top + rest;
    assert rest == mid + status;
    assert bits[..POSITION_BITS] == top + mid;
    BigEndianAppend(top, rest);
    BigEndianAppend(mid, status);
    BigEndianAppend(top, mid);
    assert Pow2(6) == 64;
    assert Pow2(10) == 1024;
    assert Pow2(16) == 65536;
    assert |rest| == 16;
    DivModUnique(BigEndian(bits), BigEndian(top), BigEndian(rest), 65536);
    DivModUnique(BigEndian(rest), BigEndian(mid), BigEndian(status), 64);
    assert top == [bits[0], bits[1]];
    assert top[..1] == [bits[0]];
    assert [bits[0]][..0] == [];
    assert BigEndian(top) == 2 * bits[0] + bits[1];
  }
}
