/**
 * The fuel gauge's measurement decoders: temperature, current, average
 * current, battery voltage, monitor-averaged voltage, the five-sample
 * averaged voltage, and the alert-level byte packing.  The 16-bit words the
 * chip presents in its result registers are parameters; the decoders only
 * write the monitor-select register.
 */
module Decoders {
  import opened CArith
  import opened Registers
  import opened Gauge

  /**
   * `s2mu004_get_temperature` (0.1 degC): the signed monitor word is in
   * 1/256 degC; the driver shifts `t * 100` right by 8 (floor) and then
   * divides by 10 (truncating).  The result is within one unit of the exact
   * value `t / 25.6`, and equal to its floor when `t` is non-negative.
   */
  function Temperature(w: U16): (r: int)
    ensures -1280 <= r <= 1279
    ensures (r - 1) * 2560 < Signed16(w) * 100 < (r + 1) * 2560
    ensures Signed16(w) >= 0 ==> r * 2560 <= Signed16(w) * 100 < (r + 1) * 2560
  {
    var q := (Signed16(w) * 100) / 256;
    Div(q, 10)
  }

  /** A higher signed temperature word never decodes to a lower temperature. */
  lemma TemperatureMonotone(w1: U16, w2: U16)
    requires Signed16(w1) <= Signed16(w2)
    ensures Temperature(w1) <= Temperature(w2)
  {
    var q1, q2 := (Signed16(w1) * 100) / 256, (Signed16(w2) * 100) / 256;
    FloorMonotone(Signed16(w1) * 100, Signed16(w2) * 100, 256);
    DivMonotone(q1, q2, 10);
  }

  /**
   * `s2mu004_get_temperature` with its register effect: the monitor is
   * pointed at the temperature (MONOUT_SEL = 0x10) before the word is read.
   */
  function GetTemperature(r: Regs, w: U16): (res: (Regs, int))
    ensures res.0 == r[REG_MONOUT_SEL := 0x10]
    ensures res.1 == Temperature(w)
  {
    (Write(r, REG_MONOUT_SEL, 0x10), Temperature(w))
  }

  /**
   * The current decode of `s2mu004_get_current` and
   * `s2mu004_get_avgcurrent` (mA): the chip counts discharge as positive,
   * the driver reports charging as positive, so the sign is inverted; each
   * branch shifts the product right by 12, which floors.  Both branches
   * together are the floor of `-t * 1000 / 4096`.
   */
  function Current(w: U16): (r: int)
    ensures r * 4096 <= -Signed16(w) * 1000 < (r + 1) * 4096
    ensures -8000 <= r <= 8000
  {
    if w >= 0x8000 then
      var mag := (0xFFFF - w) + 1;
      (mag * 1000) / 4096
    else
      var mag := w % 0x8000;
      (mag * -1000) / 4096
  }

  /** A positive reported current means the chip's word was negative (charging); a non-negative word never reports one. */
  lemma CurrentSign(w: U16)
    ensures Current(w) > 0 ==> Signed16(w) < 0
    ensures Signed16(w) >= 0 ==> Current(w) <= 0
    ensures Signed16(w) <= -5 ==> Current(w) > 0
  {
  }

  /**
   * `s2mu004_get_avgcurrent`: the monitor is pointed at the average current
   * (0x26), the word decoded as `Current`, and the monitor returned to the
   * temperature (0x10).
   */
  function GetAvgCurrent(r: Regs, w: U16): (res: (Regs, int))
    ensures res.0 == r[REG_MONOUT_SEL := 0x10]
    ensures res.1 == Current(w)
  {
    var r1 := Write(r, REG_MONOUT_SEL, 0x26);
    (Write(r1, REG_MONOUT_SEL, 0x10), Current(w))
  }

  /**
   * `s2mu004_get_vbat` (mV): the unsigned word is in 1/8.192 mV; the
   * product is shifted right by 13.
   */
  function Vbat(w: U16): (r: int)
    ensures 0 <= r < 8000
    ensures r * 8192 <= w * 1000 < (r + 1) * 8192
  {
    (w * 1000) / 8192
  }

  /** A larger voltage word never decodes to a smaller voltage. */
  lemma VbatMonotone(w1: U16, w2: U16)
    requires w1 <= w2
    ensures Vbat(w1) <= Vbat(w2)
  {
    FloorMonotone(w1 * 1000, w2 * 1000, 8192);
  }

  /**
   * `s2mu004_get_monout_avgvbat` (mV): the monitor is pointed at the
   * averaged voltage (0x27), the word is in 1/4.096 mV, and the monitor
   * is returned to the temperature (0x10).  The result fits the `u16` the
   * driver stores it in.
   */
  function GetMonoutAvgVbat(r: Regs, w: U16): (res: (Regs, int))
    ensures res.0 == r[REG_MONOUT_SEL := 0x10]
    ensures 0 <= res.1 < 0x1_0000
    ensures res.1 * 4096 <= w * 1000 < (res.1 + 1) * 4096
  {
    var r1 := Write(r, REG_MONOUT_SEL, 0x27);
    (Write(r1, REG_MONOUT_SEL, 0x10), (w * 1000) / 4096)
  }

  /** The smallest and largest of a non-empty sequence. */
  function Min(s: seq<int>): (m: int)
    requires |s| > 0
    ensures forall i :: 0 <= i < |s| ==> m <= s[i]
    ensures m in s
  {
    if |s| == 1 then s[0]
    else
      var m := Min(s[..|s| - 1]);
      if s[|s| - 1] < m then s[|s| - 1] else m
  }

  function Max(s: seq<int>): (m: int)
    requires |s| > 0
    ensures forall i :: 0 <= i < |s| ==> s[i] <= m
    ensures m in s
  {
    if |s| == 1 then s[0]
    else
      var m := Max(s[..|s| - 1]);
      if s[|s| - 1] > m then s[|s| - 1] else m
  }

  /**
   * Reference definition of the running average of `s2mu004_get_avgvbat`:
   * the first sample, then each new sample halved plus the running value
   * halved (both floored).
   */
  function Smoothed(vs: seq<int>): int
    requires |vs| > 0
  {
    if |vs| == 1 then vs[0]
    else vs[|vs| - 1] / 2 + Smoothed(vs[..|vs| - 1]) / 2
  }

  /** The halving average of non-negative samples stays between one below the smallest sample and the largest. */
  lemma {:induction false} SmoothedBounds(vs: seq<int>)
    requires |vs| > 0
    requires forall i :: 0 <= i < |vs| ==> vs[i] >= 0
    ensures Min(vs) - 1 <= Smoothed(vs) <= Max(vs)
  {
    if |vs| > 1 {
      var init := vs[..|vs| - 1];
      SmoothedBounds(init);
      assert Min(vs) <= Min(init) && Max(init) <= Max(vs);
    }
  }

  /** The voltages of a sequence of voltage words. */
  function Vbats(ws: seq<U16>): (vs: seq<int>)
    ensures |vs| == |ws| && forall i :: 0 <= i < |ws| ==> vs[i] == Vbat(ws[i])
  {
    seq(|ws|, i requires 0 <= i < |ws| => Vbat(ws[i]))
  }

  /** Number of samples `s2mu004_get_avgvbat` takes. */
  const AVG_SAMPLES := 5

  /**
   * `s2mu004_get_avgvbat`: five voltage samples folded into a halving
   * average; afterwards, if the software low-voltage alert is active, the
   * battery is no longer cold, and the average has reached the recovery
   * voltage, the alert moves to its recovery state.
   */
  method GetAvgVbat(g: Fuelgauge, ws: seq<U16>) returns (r: Fuelgauge, avg: int)
    requires |ws| == AVG_SAMPLES
    ensures avg == Smoothed(Vbats(ws))
    ensures Min(Vbats(ws)) - 1 <= avg <= Max(Vbats(ws))
    ensures r == g.(vbatlMode := r.vbatlMode)
    ensures r.vbatlMode == SwRecovery <==>
      g.vbatlMode == SwRecovery ||
      (g.vbatlMode == SwValert && g.temperature > g.lowTempLimit && avg >= g.swVbatLRecoveryVol)
    ensures r.vbatlMode != SwRecovery ==> r.vbatlMode == g.vbatlMode
  {
    var vs := Vbats(ws);
    var cnt := 0;
    avg := 0;
    while cnt < AVG_SAMPLES
      invariant 0 <= cnt <= AVG_SAMPLES
      invariant cnt > 0 ==> avg == Smoothed(vs[..cnt])
    {
      var newVbat := Vbat(ws[cnt]);
      if cnt == 0 {
        avg := newVbat;
      } else {
        assert vs[..cnt + 1][..cnt] == vs[..cnt];
        avg := newVbat / 2 + avg / 2;
      }
      cnt := cnt + 1;
    }
    assert vs[..AVG_SAMPLES] == vs;
    SmoothedBounds(vs);
    r := g;
    if g.vbatlMode == SwValert && g.temperature > g.lowTempLimit && avg >= g.swVbatLRecoveryVol {
      r := g.(vbatlMode := SwRecovery);
    }
  }

  /**
   * The alert-level byte of `s2mu004_alert_init`: the voltage threshold in
   * 50 mV steps above 2800 mV in the low nibble (the C quotient truncates,
   * and `& 0x0f` keeps the low four bits of its two's complement), the SOC
   * threshold in the high nibble (the `u8` keeps the low four bits of it).
   */
  function AlertLevel(vol: int, soc: int): (lvl: bv8)
    ensures (lvl & 0x0F) as int == Div(vol - 2800, 50) % 16
    ensures (lvl >> 4) as int == soc % 16
  {
    var lo, hi := (Div(vol - 2800, 50) % 16) as bv8, (soc % 16) as bv8;
    ByteRoundTrip(Div(vol - 2800, 50) % 16);
    ByteRoundTrip(soc % 16);
    NibblePack(lo, hi);
    lo | (hi << 4)
  }

  /** Two nibbles packed into a byte are read back by masking and shifting. */
  lemma NibblePack(lo: bv8, hi: bv8)
    requires lo < 16 && hi < 16
    ensures (lo | (hi << 4)) & 0x0F == lo
    ensures (lo | (hi << 4)) >> 4 == hi
  {
  }

  /** Thresholds in range are read back from the packed byte exactly. */
  lemma AlertLevelRoundTrip(vol: int, soc: int)
    requires 2800 <= vol < 3600 && 0 <= soc < 16
    ensures 2800 + 50 * (AlertLevel(vol, soc) & 0x0F) as int <= vol < 2800 + 50 * ((AlertLevel(vol, soc) & 0x0F) as int + 1)
    ensures (AlertLevel(vol, soc) >> 4) as int == soc
  {
    DivNonNeg(vol - 2800, 50);
  }

  /**
   * `s2mu004_alert_init`: the alert-level pair at IRQ_LVL gets the packed
   * thresholds and a zero second byte.
   */
  function AlertInit(r: Regs, p: Platform): (w: Regs)
    ensures w == r[REG_IRQ_LVL := AlertLevel(p.fuelAlertVol, p.fuelAlertSoc)][REG_IRQ_LVL + 1 := 0]
  {
    WritePair(r, REG_IRQ_LVL, AlertLevel(p.fuelAlertVol, p.fuelAlertSoc), 0)
  }

  /**
   * `s2mu004_fuelgauge_fuelalert_init`: clear the alert flag, program the
   * thresholds, and in the interrupt pair's second byte unmask the voltage
   * and SOC alerts (bits 1:0 cleared) and mask the idle and init states
   * (bits 3:2 set).  It returns true.
   */
  function FuelAlertInit(g: Fuelgauge): (res: (Fuelgauge, bool))
    ensures res.1
    ensures res.0 == g.(isFuelAlerted := false, regs := res.0.regs)
    ensures res.0.regs[REG_IRQ + 1] & 0x0F == 0x0C
    ensures res.0.regs[REG_IRQ + 1] & 0xF0 == g.regs[REG_IRQ + 1] & 0xF0
    ensures res.0.regs[REG_IRQ_LVL] == AlertLevel(g.pdata.fuelAlertVol, g.pdata.fuelAlertSoc)
    ensures res.0.regs[REG_IRQ_LVL + 1] == 0
    ensures SameExcept(g.regs, res.0.regs, {REG_IRQ + 1, REG_IRQ_LVL, REG_IRQ_LVL + 1})
  {
    var r := AlertInit(g.regs, g.pdata);
    var irq0, irq1 := r[REG_IRQ], r[REG_IRQ + 1];
    IrqUnmask(irq1);
    var r := WritePair(r, REG_IRQ, irq0, (irq1 & 0xFC) | 0x0C);
    (g.(isFuelAlerted := false, regs := r), true)
  }

  lemma IrqUnmask(x: bv8)
    ensures ((x & 0xFC) | 0x0C) & 0x0F == 0x0C
    ensures ((x & 0xFC) | 0x0C) & 0xF0 == x & 0xF0
  {
  }
}
