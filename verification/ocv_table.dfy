/**
 * The calibration table relating state of charge to open-circuit voltage
 * and the two lookups over it, `s2mu004_get_soc_from_ocv` and
 * `s2mu004_get_ocv`.  Both clamp at the table ends, binary-search a
 * descending key column and interpolate linearly between the bracketing
 * entries, with C's truncating division.
 */
module OcvTable {
  import opened CArith

  /** Number of entries in the calibration table. */
  const TABLE_SIZE := 22

  /** Strictly descending: every earlier entry is larger than every later one. */
  predicate Descending(s: seq<int>) {
    forall i, j :: 0 <= i < j < |s| ==> s[i] > s[j]
  }

  /** `r` lies between `a` and `b`, whichever of them is larger. */
  predicate Between(r: int, a: int, b: int) {
    (a <= r <= b) || (b <= r <= a)
  }

  /**
   * One calibration table: `soc[i]` (0.01 %) pairs with `ocv[i]` (0.1 mV),
   * index 0 holding the highest state of charge.
   */
  datatype Table = Table(soc: seq<int>, ocv: seq<int>)

  /** A table the lookups can use: 22 entries, both columns strictly descending. */
  predicate ValidTable(t: Table) {
    |t.soc| == TABLE_SIZE && |t.ocv| == TABLE_SIZE && Descending(t.soc) && Descending(t.ocv)
  }

  /** The first index at or after `i` whose key is at most `q`, or `|keys|` when there is none. */
  function FirstAtMost(keys: seq<int>, q: int, i: nat): (j: nat)
    requires i <= |keys|
    ensures i <= j <= |keys|
    ensures j < |keys| ==> keys[j] <= q
    ensures forall k :: i <= k < j ==> keys[k] > q
    decreases |keys| - i
  {
    if i == |keys| then i
    else if keys[i] <= q then i
    else FirstAtMost(keys, q, i + 1)
  }

  /** Any index that splits the keys into "above `q`" and "at most `q`" is the one `FirstAtMost` finds. */
  lemma FirstAtMostUnique(keys: seq<int>, q: int, j: nat)
    requires j <= |keys|
    requires forall k :: 0 <= k < j ==> keys[k] > q
    requires j < |keys| ==> keys[j] <= q
    ensures FirstAtMost(keys, q, 0) == j
  {
  }

  lemma MulMonotone(a: nat, b: nat, c: nat)
    requires b <= c
    ensures a * b <= a * c
  {
  }

  lemma AbsMul(a: int, b: int)
    ensures Abs(a * b) == Abs(a) * Abs(b)
  {
    if a < 0 && b < 0 {
      assert a * b == (-a) * (-b);
    } else if a < 0 {
      assert -(a * b) == (-a) * b;
    } else if b < 0 {
      assert -(a * b) == a * (-b);
    }
  }

  /** Multiplying by a negative number flips the sign. */
  lemma MulByNegative(a: int, x: int)
    requires x < 0
    ensures a * x < 0 <==> a > 0
    ensures a * x == 0 <==> a == 0
  {
    if a > 0 {
      MulMonotone(a, 1, -x);
      assert a * x == -(a * (-x));
    } else if a < 0 {
      MulMonotone(-a, 1, -x);
      assert a * x == (-a) * (-x);
    }
  }

  /** `q * d <= a * d` with `d > 0` gives `q <= a`. */
  lemma CancelFactor(q: nat, a: nat, d: nat)
    requires d > 0
    requires q * d <= a * d
    ensures q <= a
  {
    if q > a {
      MulMonotone(d, a + 1, q);
      assert false;
    }
  }

  /** A product with a positive factor is positive unless the other factor is zero. */
  lemma ZeroFactor(q: nat, d: nat)
    requires d > 0
    requires q * d <= 0
    ensures q == 0
  {
  }

  /**
   * The interpolation step of both lookups: between two bracketing entries
   * the result stays between their paired values, whatever the direction
   * of the value column, despite the truncating division.
   */
  lemma InterpolationBetween(kh: int, kl: int, vh: int, vl: int, q: int)
    requires kl < q < kh
    ensures Between(vh + Div((vl - vh) * (q - kh), kl - kh), vh, vl)
  {
    var d, x, dv := kl - kh, q - kh, vl - vh;
    var quo := Div(dv * x, d);
    AbsMul(dv, x);
    MulMonotone(Abs(dv), Abs(x), Abs(d));
    assert Abs(quo) * Abs(d) <= Abs(dv) * Abs(d);
    CancelFactor(Abs(quo), Abs(dv), Abs(d));
    MulByNegative(dv, x);
    if dv == 0 {
      ZeroFactor(Abs(quo), Abs(d));
    }
    if quo < 0 {
      assert dv * x >= 0;
    }
  }

  /**
   * Reference definition of both lookups: clamp to the last entry's value
   * when `q` is at or below the last key, to the first entry's value when it
   * is at or above the first key, return the paired value on an exact key
   * match, and otherwise interpolate between the bracketing entries.
   */
  function Interpolate(keys: seq<int>, vals: seq<int>, q: int): (r: int)
    requires 1 <= |keys| == |vals|
    requires Descending(keys)
    ensures q <= keys[|keys| - 1] ==> r == vals[|keys| - 1]
    ensures keys[|keys| - 1] < q && keys[0] <= q ==> r == vals[0]
    ensures forall i :: 0 <= i < |keys| && keys[i] == q ==> r == vals[i]
    ensures forall h :: 0 <= h < |keys| - 1 && keys[h] > q > keys[h + 1] ==> Between(r, vals[h], vals[h + 1])
  {
    var n := |keys|;
    if q <= keys[n - 1] then vals[n - 1]
    else if q >= keys[0] then vals[0]
    else
      var low := FirstAtMost(keys, q, 0);
      assert 0 < low < n;
      if keys[low] == q then vals[low]
      else
        var high := low - 1;
        InterpolationBetween(keys[high], keys[low], vals[high], vals[low], q);
        vals[high] + Div((vals[low] - vals[high]) * (q - keys[high]), keys[low] - keys[high])
  }

  /**
   * The binary search the driver runs: `low` and `high` close in on the
   * query over the descending keys until they cross (`low == high + 1`) or
   * hit an exact match.
   */
  method Lookup(keys: seq<int>, vals: seq<int>, q: int) returns (r: int)
    requires 1 <= |keys| == |vals|
    requires Descending(keys)
    ensures r == Interpolate(keys, vals, q)
  {
    var n := |keys|;
    if q <= keys[n - 1] {
      return vals[n - 1];
    } else if q >= keys[0] {
      return vals[0];
    }
    var low, high := 0, n - 1;
    while low <= high
      invariant 0 <= low <= n && -1 <= high <= n - 1 && low <= high + 1
      invariant forall k :: 0 <= k < low ==> keys[k] > q
      invariant forall k :: high < k < n ==> keys[k] < q
      decreases high - low
    {
      var mid := (low + high) / 2;
      if keys[mid] > q {
        low := mid + 1;
      } else if keys[mid] < q {
        high := mid - 1;
      } else {
        FirstAtMostUnique(keys, q, mid);
        return vals[mid];
      }
    }
    FirstAtMostUnique(keys, q, low);
    r := vals[high] + Div((vals[low] - vals[high]) * (q - keys[high]), keys[low] - keys[high]);
  }

  /**
   * `s2mu004_get_soc_from_ocv`: the state of charge (0.01 %) for a voltage
   * given in mV; the table's voltages are in 0.1 mV, hence the factor 10.
   */
  method SocFromOcv(t: Table, targetOcv: int) returns (soc: int)
    requires ValidTable(t)
    ensures soc == Interpolate(t.ocv, t.soc, targetOcv * 10)
    ensures targetOcv * 10 <= t.ocv[TABLE_SIZE - 1] ==> soc == t.soc[TABLE_SIZE - 1]
    ensures targetOcv * 10 >= t.ocv[0] ==> soc == t.soc[0]
    ensures t.soc[TABLE_SIZE - 1] <= soc <= t.soc[0]
  {
    soc := Lookup(t.ocv, t.soc, targetOcv * 10);
    SocInRange(t, targetOcv);
  }

  /** The voltage lookup's result never leaves the table's SOC range. */
  lemma SocInRange(t: Table, targetOcv: int)
    requires ValidTable(t)
    ensures t.soc[TABLE_SIZE - 1] <= Interpolate(t.ocv, t.soc, targetOcv * 10) <= t.soc[0]
  {
    var q := targetOcv * 10;
    var r := Interpolate(t.ocv, t.soc, q);
    if t.ocv[TABLE_SIZE - 1] < q < t.ocv[0] {
      var low := FirstAtMost(t.ocv, q, 0);
      assert 0 < low < TABLE_SIZE;
      if t.ocv[low] != q {
        assert t.ocv[low - 1] > q > t.ocv[low];
        assert Between(r, t.soc[low - 1], t.soc[low]);
      }
    }
  }

  /**
   * `s2mu004_get_ocv`: the open-circuit voltage (0.1 mV) for the gauge's
   * current state of charge (0.01 %).
   */
  method OcvFromSoc(t: Table, soc: int) returns (ocv: int)
    requires ValidTable(t)
    ensures ocv == Interpolate(t.soc, t.ocv, soc)
    ensures soc <= t.soc[TABLE_SIZE - 1] ==> ocv == t.ocv[TABLE_SIZE - 1]
    ensures soc >= t.soc[0] ==> ocv == t.ocv[0]
  {
    ocv := Lookup(t.soc, t.ocv, soc);
  }
}
