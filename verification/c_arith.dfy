/**
 * C integer semantics the drivers rely on, written out for Dafny's unbounded
 * integers: truncating division, 16-bit two's-complement words assembled from
 * register byte pairs, and the 12-bit bit-flip used by the offset codec.
 */
module CArith {

  function Abs(x: int): nat {
    if x < 0 then -x else x
  }

  /** C's `/` on `int`: the quotient is truncated toward zero. */
  function Div(a: int, b: int): (q: int)
    requires b != 0
    ensures Abs(q) * Abs(b) <= Abs(a) < (Abs(q) + 1) * Abs(b)
    ensures q == 0 || ((q < 0) <==> ((a < 0) != (b < 0)))
  {
    var m := Abs(a) / Abs(b);
    FloorBounds(Abs(a), Abs(b));
    if (a < 0) != (b < 0) then -m else m
  }

  /** Floor division of naturals brackets the dividend between multiples. */
  lemma FloorBounds(x: nat, y: nat)
    requires y > 0
    ensures (x / y) * y <= x < (x / y + 1) * y
  {
  }

  /** With a positive divisor and a non-negative dividend C and Dafny agree. */
  lemma DivNonNeg(a: int, b: int)
    requires a >= 0 && b > 0
    ensures Div(a, b) == a / b
  {
  }

  /** An unsigned 16-bit value (the source's `u16`). */
  type U16 = x: int | 0 <= x < 0x1_0000

  /** An unsigned 32-bit value (the source's `unsigned int`). */
  type U32 = x: int | 0 <= x < 0x1_0000_0000

  /**
   * 16-bit word as the source assembles it: `(data[1] << 8) | data[0]`; the
   * two bytes occupy disjoint bits, so the `|` is an addition.
   */
  function Word(lo: bv8, hi: bv8): (w: U16)
    ensures w / 256 == hi as int && w % 256 == lo as int
  {
    hi as int * 256 + lo as int
  }

  /**
   * Signed value of a 16-bit two's-complement word, as the source decodes
   * it: when bit 15 is set the magnitude is `((~c) & 0xFFFF) + 1`, that is
   * `0xFFFF - c + 1`, and the value is its negation; otherwise `c & 0x7FFF`.
   */
  function Signed16(c: U16): (s: int)
    ensures -0x8000 <= s < 0x8000
    ensures s % 0x1_0000 == c
    ensures (s < 0) <==> (c >= 0x8000)
  {
    if c >= 0x8000 then -((0xFFFF - c) + 1) else c % 0x8000
  }

  /**
   * `x ^ 0xFFF` on a two's-complement `int`: the low twelve bits are flipped
   * and the bits above them are kept (Dafny's `%` is never negative, so
   * `x % 4096` is exactly the value of the low twelve bits, for negative
   * `x` too).
   */
  function XorLow12(x: int): (r: int)
    ensures r - r % 4096 == x - x % 4096
    ensures r % 4096 == 4095 - x % 4096
  {
    x - x % 4096 + (4095 - x % 4096)
  }

  lemma FloorMonotone(a: int, b: int, d: int)
    requires a <= b && d > 0
    ensures a / d <= b / d
  {
    var qa, qb := a / d, b / d;
    assert qa * d <= a && b < (qb + 1) * d;
    if qa > qb {
      ScaleMonotone(qb + 1, qa, d);
      assert false;
    }
  }

  lemma ScaleMonotone(x: int, y: int, d: int)
    requires x <= y && d > 0
    ensures x * d <= y * d
  {
    assert y * d - x * d == (y - x) * d;
  }

  /** C's truncating division by a positive constant is monotone. */
  lemma DivMonotone(a: int, b: int, d: int)
    requires a <= b && d > 0
    ensures Div(a, d) <= Div(b, d)
  {
    if a >= 0 {
      DivNonNeg(a, d);
      DivNonNeg(b, d);
      FloorMonotone(a, b, d);
    } else if b <= 0 {
      DivNonNeg(-a, d);
      DivNonNeg(-b, d);
      FloorMonotone(-b, -a, d);
    } else {
      DivNonNeg(b, d);
    }
  }

  /** A byte-sized integer survives the trip through `bv8`. */
  lemma ByteRoundTrip(k: int)
    requires 0 <= k < 256
    ensures (k as bv8) as int == k
  {
    assert k % 256 == k;
  }
}
