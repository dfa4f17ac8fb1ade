/**
 * The capacity arithmetic of the S2MU004 fuel gauge: mapping a raw SOC onto
 * the span between `capacity_min` and the learned `capacity_max`, keeping
 * `capacity_max` within its margin, the one-step-per-report smoothing, and
 * the dynamic rescale run when the battery reports full.
 */
module Scaling {
  import opened CArith
  import opened Gauge

  /**
   * `s2mu004_fg_get_scaled_capacity` (and the same formula inside
   * `s2mu004_get_rawsoc`): a raw SOC below `capacity_min` is 0, otherwise
   * its distance above `capacity_min` in thousandths of the span up to
   * `capacity_max`, with C's truncating division.
   */
  function Scale(raw: int, capMin: int, capMax: int): (r: int)
    requires capMax != capMin
    ensures raw < capMin ==> r == 0
    ensures raw >= capMin && capMax > capMin ==>
      0 <= r && r * (capMax - capMin) <= (raw - capMin) * 1000 < (r + 1) * (capMax - capMin)
  {
    if raw < capMin then 0
    else
      PositiveQuotient((raw - capMin) * 1000, capMax - capMin);
      Div((raw - capMin) * 1000, capMax - capMin)
  }

  lemma PositiveQuotient(x: int, d: int)
    requires d != 0
    ensures x >= 0 && d > 0 ==> 0 <= Div(x, d) && Div(x, d) * d <= x < (Div(x, d) + 1) * d
  {
    if x >= 0 && d > 0 {
      DivNonNeg(x, d);
      FloorBounds(x, d);
    }
  }

  /** A raw SOC of exactly `capacity_max` scales to 1000 (100.0 %), and `capacity_min` to 0. */
  lemma ScaleEnds(capMin: int, capMax: int)
    requires capMax > capMin
    ensures Scale(capMax, capMin, capMax) == 1000
    ensures Scale(capMin, capMin, capMax) == 0
  {
    var d := capMax - capMin;
    var r := Scale(capMax, capMin, capMax);
    assert r * d <= d * 1000 < (r + 1) * d;
    if r < 1000 {
      ScaleMonotone(r + 1, 1000, d);
    } else if r > 1000 {
      ScaleMonotone(1001, r, d);
    }
  }

  /** With a proper span, a raw SOC at or above `capacity_max` scales to at least 1000. */
  lemma ScaleFull(raw: int, capMin: int, capMax: int)
    requires capMax != capMin
    ensures capMax > capMin && raw >= capMax ==> Scale(raw, capMin, capMax) >= 1000
  {
    if capMax > capMin && raw >= capMax {
      ScaleMonotoneInRaw(capMax, raw, capMin, capMax);
      ScaleEnds(capMin, capMax);
    }
  }

  /** With a proper span, a larger raw SOC never scales to a smaller capacity. */
  lemma ScaleMonotoneInRaw(raw1: int, raw2: int, capMin: int, capMax: int)
    requires capMax > capMin && raw1 <= raw2
    ensures Scale(raw1, capMin, capMax) <= Scale(raw2, capMin, capMax)
  {
    if raw1 >= capMin {
      DivMonotone((raw1 - capMin) * 1000, (raw2 - capMin) * 1000, capMax - capMin);
    }
  }

  /**
   * `s2mu004_fg_check_capacity_max`: a value more than 10 below
   * `capacity_max - margin` is raised to `capacity_max - margin`; one above
   * `capacity_max + margin` is lowered to it; anything in between passes.
   */
  function CheckCapacityMax(p: Platform, v: int): (r: int)
    ensures p.capacityMaxMargin >= 0 ==>
      p.capacityMax - p.capacityMaxMargin - 10 <= r <= p.capacityMax + p.capacityMaxMargin
    ensures p.capacityMax - p.capacityMaxMargin - 10 <= v <= p.capacityMax + p.capacityMaxMargin ==> r == v
    ensures r == v || r == p.capacityMax - p.capacityMaxMargin || r == p.capacityMax + p.capacityMaxMargin
  {
    if v < p.capacityMax - p.capacityMaxMargin - 10 then p.capacityMax - p.capacityMaxMargin
    else if v > p.capacityMax + p.capacityMaxMargin then p.capacityMax + p.capacityMaxMargin
    else v
  }

  /** Checking twice is checking once, for any non-negative margin. */
  lemma CheckCapacityMaxIdempotent(p: Platform, v: int)
    requires p.capacityMaxMargin >= 0
    ensures CheckCapacityMax(p, CheckCapacityMax(p, v)) == CheckCapacityMax(p, v)
  {
  }

  /**
   * `s2mu004_fg_get_atomic_capacity` on the new capacity `v` against the
   * last reported `prev`: with ATOMIC the report moves one step toward `v`;
   * with SKIP_ABNORMAL, while not charging, it never rises above `prev`.
   * The driver stores the result as the new `capacity_old`.
   */
  function Atomic(t: CapacityType, isCharging: bool, prev: int, v: int): (r: int)
    ensures (prev <= r <= v) || (v <= r <= prev)
    ensures t.atomic ==> -1 <= r - prev <= 1
    ensures t.skipAbnormal && !isCharging ==> r <= prev
    ensures !t.atomic && !(t.skipAbnormal && !isCharging) ==> r == v
  {
    var stepped := if !t.atomic then v else if prev < v then prev + 1 else if prev > v then prev - 1 else v;
    if t.skipAbnormal && !isCharging && prev < stepped then prev else stepped
  }

  /** Old capacity 45 and new capacity 50 report 46 under ATOMIC. */
  lemma AtomicExample()
    ensures Atomic(CapacityType(false, false, true, false), false, 45, 50) == 46
  {
  }

  /** `n` successive reports of the same new capacity, starting from `prev`. */
  function Settle(t: CapacityType, isCharging: bool, prev: int, v: int, n: nat): int
    decreases n
  {
    if n == 0 then prev else Settle(t, isCharging, Atomic(t, isCharging, prev, v), v, n - 1)
  }

  /**
   * With ATOMIC smoothing (and no abnormal-state hold in force) the report
   * reaches the new capacity after exactly as many reports as the two
   * differ, and stays there.
   */
  lemma {:induction false} AtomicConverges(t: CapacityType, isCharging: bool, prev: int, v: int, extra: nat)
    requires t.atomic && !(t.skipAbnormal && !isCharging)
    ensures Settle(t, isCharging, prev, v, Abs(v - prev) + extra) == v
    decreases Abs(v - prev)
  {
    if prev == v {
      SettleFixed(t, isCharging, v, extra);
    } else {
      var next := Atomic(t, isCharging, prev, v);
      assert Abs(v - next) == Abs(v - prev) - 1;
      AtomicConverges(t, isCharging, next, v, extra);
    }
  }

  lemma {:induction false} SettleFixed(t: CapacityType, isCharging: bool, v: int, n: nat)
    requires t.atomic || !(t.skipAbnormal && !isCharging)
    ensures Settle(t, isCharging, v, v, n) == v
    decreases n
  {
    if n > 0 {
      SettleFixed(t, isCharging, v, n - 1);
    }
  }

  /** With SKIP_ABNORMAL, however many reports follow while not charging, the capacity never rises. */
  lemma {:induction false} SkipAbnormalNeverRises(t: CapacityType, prev: int, v: int, n: nat)
    requires t.skipAbnormal
    ensures Settle(t, false, prev, v, n) <= prev
    decreases n
  {
    if n > 0 {
      var next := Atomic(t, false, prev, v);
      SkipAbnormalNeverRises(t, next, v, n - 1);
    }
  }

  /**
   * `s2mu004_fg_calculate_dynamic_scale`, given the value
   * `s2mu004_get_rawsoc` returned and the capacity (percent) the battery
   * reported as full: the raw SOC in 0.1 % is held within `capacity_max`
   * +/- margin, rescaled by `100 / (capacity + 1)` and checked (or, at a
   * reported 100 %, taken as 99 %), and `capacity_old` becomes `capacity`.
   * Returns the new `capacity_max` and `capacity_old`.
   */
  function DynamicScale(p: Platform, rawsoc: int, capacity: int): (r: (int, int))
    requires capacity != -1
    ensures r.1 == capacity
    ensures capacity != 100 && p.capacityMaxMargin >= 0 ==>
      p.capacityMax - p.capacityMaxMargin - 10 <= r.0 <= p.capacityMax + p.capacityMaxMargin
    ensures capacity == 100 && 0 <= p.capacityMaxMargin <= p.capacityMax ==>
      0 <= r.0 <= p.capacityMax + p.capacityMaxMargin
  {
    var raw := Div(rawsoc, 10);
    var held :=
      if raw < p.capacityMax - p.capacityMaxMargin then p.capacityMax - p.capacityMaxMargin
      else if raw > p.capacityMax + p.capacityMaxMargin then p.capacityMax + p.capacityMaxMargin
      else raw;
    if capacity != 100 then
      (CheckCapacityMax(p, Div(held * 100, capacity + 1)), capacity)
    else
      (Div(held * 99, 100), capacity)
  }
}
