/**
 * The voltage-offset field of the S2MU004 coulomb counter, as the two
 * "surge" routines read, correct and rewrite it: a 12-bit two's-complement
 * number split across register 0x4F (bits 3:0, the high nibble of the
 * field) and register 0x4E (the low byte), scaled by 10000/8192 into
 * 0.1 mV, corrected by a measured delta and clamped to +/-249.0 mV.
 */
module OffsetCodec {
  import opened CArith

  /** The largest correction magnitude the routines allow, in 0.1 mV. */
  const OFFSET_LIMIT := 2490

  /** The signed value of a 12-bit two's-complement field. */
  function Signed12(a: int): (s: int)
    requires 0 <= a < 4096
    ensures -2048 <= s < 2048 && s % 4096 == a
  {
    if a >= 2048 then a - 4096 else a
  }

  /** The 12-bit field held by registers 0x4F (bits 3:0) and 0x4E. */
  function RawField(v4f: bv8, v4e: bv8): (a: int)
    ensures 0 <= a < 4096
    ensures a / 256 == (v4f & 0x0F) as int && a % 256 == v4e as int
  {
    (v4f & 0x0F) as int * 256 + v4e as int
  }

  /**
   * The field decoded into 0.1 mV: when bit 11 is set the magnitude is
   * `(a ^ 0xFFF) + 1` and the negative product is shifted right by 13 (an
   * arithmetic shift, so a floor division by 8192); otherwise the product
   * `10000 * a` is shifted.  Either way the result is the floor of the
   * signed field times 10000/8192.
   */
  function Decode(a: int): (d: int)
    requires 0 <= a < 4096
    ensures d * 8192 <= Signed12(a) * 10000 < (d + 1) * 8192
  {
    if a >= 2048 then (-10000 * (XorLow12(a) + 1)) / 8192
    else (10000 * a) / 8192
  }

  /** The limit applied to the corrected offset before it is re-encoded. */
  function Clamp(x: int): (c: int)
    ensures -OFFSET_LIMIT <= c <= OFFSET_LIMIT
    ensures -OFFSET_LIMIT <= x <= OFFSET_LIMIT ==> c == x
    ensures x > OFFSET_LIMIT ==> c == OFFSET_LIMIT
    ensures x < -OFFSET_LIMIT ==> c == -OFFSET_LIMIT
  {
    var hi := if x > OFFSET_LIMIT then OFFSET_LIMIT else x;
    if hi < -OFFSET_LIMIT then -OFFSET_LIMIT else hi
  }

  /**
   * Re-encoding a clamped offset: `(v << 13) / 10000` truncates toward
   * zero; a negative quotient `q` becomes `-((q ^ 0xFFF) + 1)`, and the
   * result is masked with 0xFFF.  The field holds the truncated quotient in
   * 12-bit two's complement, so bit 11 is set exactly when the quotient is
   * negative, which is when `v <= -2`.
   */
  function Encode(v: int): (a: int)
    requires -OFFSET_LIMIT <= v <= OFFSET_LIMIT
    ensures 0 <= a < 4096
    ensures Signed12(a) == Div(v * 8192, 10000)
    ensures (a >= 2048) <==> v <= -2
  {
    var q := Div(v * 8192, 10000);
    assert -2040 < q < 2040;
    assert q < 0 <==> v <= -2;
    var shifted := if q < 0 then -1 * (XorLow12(q) + 1) else q;
    assert q < 0 ==> shifted == q + 4096;
    shifted % 4096
  }

  /**
   * Splitting a field back over the two registers: 0x4F keeps its high
   * nibble and takes bits 11:8 of the field in its low nibble; 0x4E takes
   * bits 7:0.
   */
  function Split(v4f: bv8, a: int): (regs: (bv8, bv8))
    requires 0 <= a < 4096
    ensures regs.0 & 0xF0 == v4f & 0xF0
    ensures RawField(regs.0, regs.1) == a
  {
    var hi, lo := (a / 256) as bv8, (a % 256) as bv8;
    ByteRoundTrip(a / 256);
    ByteRoundTrip(a % 256);
    NibbleMerge(v4f, hi);
    ((v4f & 0xF0) | hi, lo)
  }

  /** Or-ing a nibble into a byte whose low nibble was cleared. */
  lemma NibbleMerge(x: bv8, h: bv8)
    requires h < 16
    ensures ((x & 0xF0) | h) & 0xF0 == x & 0xF0
    ensures ((x & 0xF0) | h) & 0x0F == h
  {
  }

  /** The outcome of one offset correction. */
  datatype Correction = Correction(value: int, field: int, v4f: bv8, v4e: bv8)

  /**
   * The offset correction of both surge routines: decode the field held
   * by 0x4F/0x4E, add the measured delta (0.1 mV), clamp to +/-2490,
   * re-encode and split over the two registers.
   */
  function Correct(v4f: bv8, v4e: bv8, delta: int): (c: Correction)
    ensures c.value == Clamp(Decode(RawField(v4f, v4e)) + delta)
    ensures -OFFSET_LIMIT <= c.value <= OFFSET_LIMIT
    ensures 0 <= c.field < 4096 && Signed12(c.field) == Div(c.value * 8192, 10000)
    ensures (c.field >= 2048) <==> c.value <= -2
    ensures c.v4f & 0xF0 == v4f & 0xF0
    ensures RawField(c.v4f, c.v4e) == c.field
  {
    var value := Clamp(Decode(RawField(v4f, v4e)) + delta);
    var field := Encode(value);
    var (hi, lo) := Split(v4f, field);
    Correction(value, field, hi, lo)
  }

  /**
   * `c` is the outcome of correcting the field held by `v4f`/`v4e` by
   * `delta`: the clamped corrected value, its encoding, and the two
   * register bytes carrying that encoding with 0x4F's high nibble kept.
   */
  predicate Corrects(v4f: bv8, v4e: bv8, delta: int, c: Correction) {
    c.value == Clamp(Decode(RawField(v4f, v4e)) + delta) &&
    c.field == Encode(c.value) &&
    c.v4f & 0xF0 == v4f & 0xF0 &&
    RawField(c.v4f, c.v4e) == c.field
  }

  /** The register bytes are determined by their high nibble and the field they carry. */
  lemma RawFieldInjective(x: bv8, y: bv8, x': bv8, y': bv8)
    requires x & 0xF0 == x' & 0xF0 && RawField(x, y) == RawField(x', y')
    ensures x == x' && y == y'
  {
    ByteRoundTrip(RawField(x, y) % 256);
    assert y as int == y' as int;
    assert (x & 0x0F) as int == (x' & 0x0F) as int;
    NibbleSplit(x);
    NibbleSplit(x');
  }

  lemma NibbleSplit(x: bv8)
    ensures x == (x & 0xF0) | (x & 0x0F)
  {
  }

  /** `Corrects` pins the outcome down: it holds of `Correct` and of nothing else. */
  lemma CorrectsExactly(v4f: bv8, v4e: bv8, delta: int, c: Correction)
    ensures Corrects(v4f, v4e, delta, c) <==> c == Correct(v4f, v4e, delta)
  {
    var d := Correct(v4f, v4e, delta);
    if Corrects(v4f, v4e, delta, c) {
      RawFieldInjective(c.v4f, c.v4e, d.v4f, d.v4e);
    }
  }

  /**
   * The correction as both surge routines run it, one C statement at a
   * time on a signed `int`: decode the field the two registers hold, add
   * the delta, clamp, re-encode, and split it back over 0x4F and 0x4E.  It
   * arrives at the outcome `Correct` describes.
   */
  method CorrectOffset(v4f: bv8, v4e: bv8, delta: int) returns (c: Correction)
    ensures c == Correct(v4f, v4e, delta)
    ensures Corrects(v4f, v4e, delta, c)
  {
    var a := DecodeStep(v4f, v4e);
    a := a + delta;
    if a > OFFSET_LIMIT {
      a := OFFSET_LIMIT;
    }
    if a < -OFFSET_LIMIT {
      a := -OFFSET_LIMIT;
    }
    var value := a;
    a := EncodeStep(value);
    var hi, lo := SplitStep(v4f, a);
    c := Correction(value, a, hi, lo);
    CorrectsExactly(v4f, v4e, delta, c);
  }

  /**
   * The field assembled from `(v_4f & 0x0F) << 8` plus `v_4e`, then
   * decoded through the bit-11 branch; it is the floor-scaled signed field.
   */
  method DecodeStep(v4f: bv8, v4e: bv8) returns (a: int)
    ensures a == Decode(RawField(v4f, v4e))
    ensures a * 8192 <= Signed12(RawField(v4f, v4e)) * 10000 < (a + 1) * 8192
  {
    a := (v4f & 0x0F) as int * 256;
    a := a + v4e as int;
    // `a & (0x01 << 11)` on a field below 4096 tests a >= 2048.
    if a >= 2048 {
      a := (-10000 * (XorLow12(a) + 1)) / 8192;
    } else {
      a := (10000 * a) / 8192;
    }
  }

  /**
   * `(a << 13) / 10000`, the `^ 0xFFF` negation of a negative quotient and
   * `a &= 0xfff`: the twelve-bit two's-complement truncated quotient.
   */
  method EncodeStep(v: int) returns (a: int)
    requires -OFFSET_LIMIT <= v <= OFFSET_LIMIT
    ensures a == Encode(v)
    ensures 0 <= a < 4096 && Signed12(a) == Div(v * 8192, 10000)
  {
    a := Div(v * 8192, 10000);
    if a < 0 {
      a := -1 * (XorLow12(a) + 1);
    }
    // `a &= 0xfff` keeps the low twelve bits of the two's-complement value.
    a := a % 4096;
  }

  /** `temp1 = (v_4f & 0xF0) | ((a & 0xF00) >> 8)` for 0x4F and `a & 0xFF` for 0x4E. */
  method SplitStep(v4f: bv8, a: int) returns (hi: bv8, lo: bv8)
    requires 0 <= a < 4096
    ensures (hi, lo) == Split(v4f, a)
    ensures hi & 0xF0 == v4f & 0xF0 && RawField(hi, lo) == a
  {
    var temp1 := v4f & 0xF0;
    var temp2 := (a / 256) as bv8;
    hi := temp1 | temp2;
    lo := (a % 256) as bv8;
  }

  /**
   * Decoding then re-encoding a field is exact for negative fields and
   * loses at most one step for non-negative ones: the positive decode
   * floors and the re-encode floors again.
   */
  lemma EncodeDecode(a: int)
    requires 0 <= a < 4096
    requires -OFFSET_LIMIT <= Decode(a) <= OFFSET_LIMIT
    ensures Signed12(a) < 0 ==> Signed12(Encode(Decode(a))) == Signed12(a)
    ensures Signed12(a) >= 0 ==> Signed12(a) - 1 <= Signed12(Encode(Decode(a))) <= Signed12(a)
  {
    var s, d := Signed12(a), Decode(a);
    var q := Div(d * 8192, 10000);
    if s < 0 {
      assert d < 0;
      assert q * 10000 <= d * 8192 < 0 || -q * 10000 <= -d * 8192 < (-q + 1) * 10000;
    }
  }

  /** The round trip is not exact: field 1 decodes to 1 and re-encodes to 0. */
  lemma EncodeDecodeLosesAStep()
    ensures Decode(1) == 1 && Encode(Decode(1)) == 0
  {
  }

  /** Encoding then decoding an offset lands within two steps below to one step above it. */
  lemma DecodeEncode(v: int)
    requires -OFFSET_LIMIT <= v <= OFFSET_LIMIT
    ensures v - 2 <= Decode(Encode(v)) <= v + 1
  {
  }
}
