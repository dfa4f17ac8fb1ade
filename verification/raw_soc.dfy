/**
 * `s2mu004_get_rawsoc`, the heart of the fuel-gauge driver: it detects a
 * chip that has lost its state and reloads it, reads the raw SOC word until
 * two reads agree, decodes it, keeps the reported SOC continuous across the
 * reset, switches the chip between coulomb counting and voltage tracking
 * with hysteresis, re-runs the offset correction when the voltage says the
 * SOC is far off, and tells the charger which input regulator to use.
 *
 * Everything the chip and the rest of the system supply during one call is
 * gathered in `Readings`; the property writes to the charger are returned as
 * a list of commands.
 */
module RawSoc {
  import opened CArith
  import opened Errno
  import opened Registers
  import opened Optional
  import opened OcvTable
  import opened OffsetCodec
  import opened Gauge
  import opened Surge
  import opened Decoders
  import opened Scaling
  import opened PowerSupply

  /** The property writes `s2mu004_get_rawsoc` makes to the charger. */
  datatype ChargerCmd =
    | SetChargingEnabled(mode: ChgMode)
    | FuelgaugeResetNotice
    | IvrSwitch(analog: bool)

  /** Number of double reads the stability loop attempts. */
  const STABLE_TRIES := 50

  /**
   * What one call observes: the charger's CHARGING_ENABLED before a reset;
   * the 0x4F/0x4E bytes the chip reloads after the first and second reset
   * strobe; the voltage the reset's offset correction measures; the word
   * pairs of the stability loop; the average-current, monitor-voltage,
   * five voltage-sample, voltage and current words; the charger's float
   * voltage, the battery's capacity (percent) and temperature (0.1 degC);
   * and the voltage measured by a power-off correction.
   */
  datatype Readings = Readings(
    chargerEnabled: bool,
    reload1: (bv8, bv8),
    reload2: (bv8, bv8),
    resetVbat: int,
    rsocSamples: seq<(U16, U16)>,
    avgCurrentWord: U16,
    monoutVbatWord: U16,
    vbatSamples: seq<U16>,
    vbatWord: U16,
    currentWord: U16,
    voltageMax: int,
    batteryCapacity: int,
    batteryTemp: int,
    surgeVbat: int)

  predicate ValidReadings(rd: Readings) {
    |rd.rsocSamples| == STABLE_TRIES && |rd.vbatSamples| == AVG_SAMPLES
  }

  // ---------------------------------------------------------------------
  // Reset detection and reload

  /** Bit 4 of register 0x1F: the chip has been through a power-on reset. */
  predicate PorSet(por: bv8) {
    por & 0x10 != 0
  }

  /** The offset field no longer holds the one-time-programmed bytes read at probe. */
  predicate OtpChanged(g: Fuelgauge, v4f: bv8, v4e: bv8) {
    g.otp4e != v4e || g.otp4f != v4f
  }

  /**
   * The reset condition: the power-on bit is set (with battery-age
   * forecasting, only while no age reset is pending), or, once probing is
   * done, the offset field differs from the programmed bytes.
   */
  predicate NeedsReset(g: Fuelgauge) {
    (PorSet(g.regs[0x1F]) && (!g.ageForecast || g.ageResetStatus == 0)) ||
    (g.probeDone && OtpChanged(g, g.regs[0x4F], g.regs[0x4E]))
  }

  /**
   * The reset strobe: 0x1F is written 0x40 and then 0x01, after which the
   * chip has reloaded 0x4F/0x4E (with `reload`).
   */
  function Strobe(b: Regs, reload: (bv8, bv8)): Regs {
    var s := Write(Write(b, 0x1F, 0x40), 0x1F, 0x01);
    s[0x4F := reload.0][0x4E := reload.1]
  }

  /**
   * The strobes of the reset branch: none when the offset field still
   * holds the programmed bytes, one when it does not, and a second one when
   * the reload after the first still differs.  Returns the registers and
   * the number of strobes, each of which the charger is told about.
   */
  method Strobes(g: Fuelgauge, rd: Readings) returns (b: Regs, strobes: nat)
    ensures strobes <= 2
    ensures strobes >= 1 <==> OtpChanged(g, g.regs[0x4F], g.regs[0x4E])
    ensures strobes == 2 <==> OtpChanged(g, g.regs[0x4F], g.regs[0x4E]) && OtpChanged(g, rd.reload1.0, rd.reload1.1)
  {
    b, strobes := g.regs, 0;
    if OtpChanged(g, b[0x4F], b[0x4E]) {
      b, strobes := Strobe(b, rd.reload1), 1;
      if OtpChanged(g, b[0x4F], b[0x4E]) {
        b, strobes := Strobe(b, rd.reload2), 2;
      }
    }
  }

  /**
   * The reload after the strobes: `s2mu004_reset_fg` on the strobed
   * registers (its offset correction measures `vbat`), then 0x1F is written
   * back as it was read at entry with the power-on bit cleared.
   */
  method Reload(g: Fuelgauge, b: Regs, vbat: int) returns (regs: Regs)
    requires Valid(g)
    ensures regs[0x1F] == g.regs[0x1F] & 0xEF
    ensures forall a: Addr :: TableAddr(a) ==> regs[a] == TableByte(g.data, a)
  {
    var loaded, c := ResetFg(g.(regs := b), vbat);
    ResetLoadsTables(b, g.data);
    regs := Write(loaded.regs, 0x1F, g.regs[0x1F] & 0xEF);
  }

  /**
   * The reset branch of `s2mu004_get_rawsoc`: stop charging, strobe the
   * chip as `Strobes` says, announcing each strobe to the charger, reload
   * the battery data and clear the power-on bit.
   */
  method ResetIfNeeded(g: Fuelgauge, rd: Readings) returns (r: Fuelgauge, cmds: seq<ChargerCmd>, reset: bool)
    requires Valid(g)
    ensures reset == NeedsReset(g)
    ensures !reset ==> r == g && cmds == []
    ensures SameSocState(g, r) && r.vbatlMode == g.vbatlMode
    ensures reset ==> r.regs[0x1F] == g.regs[0x1F] & 0xEF && !PorSet(r.regs[0x1F])
    ensures reset ==> forall a: Addr :: TableAddr(a) ==> r.regs[a] == TableByte(g.data, a)
    ensures reset ==> 1 <= |cmds| <= 3 && cmds[0] == SetChargingEnabled(ChargingOff)
    ensures reset ==> forall i :: 1 <= i < |cmds| ==> cmds[i] == FuelgaugeResetNotice
    ensures reset ==> (|cmds| > 1 <==> OtpChanged(g, g.regs[0x4F], g.regs[0x4E]))
    ensures reset ==> (|cmds| > 2 <==> OtpChanged(g, g.regs[0x4F], g.regs[0x4E]) && OtpChanged(g, rd.reload1.0, rd.reload1.1))
  {
    reset := NeedsReset(g);
    if !reset {
      return g, [], false;
    }
    var b, strobes := Strobes(g, rd);
    cmds := [SetChargingEnabled(ChargingOff)] + seq(strobes, _ => FuelgaugeResetNotice);
    var regs := Reload(g, b, rd.resetVbat);
    ClearPor(g.regs[0x1F]);
    r := g.(regs := regs);
  }

  lemma ClearPor(por: bv8)
    ensures !PorSet(por & 0xEF)
  {
  }

  // ---------------------------------------------------------------------
  // Reading and decoding the raw SOC

  /**
   * Reference definition of the word the stability loop settles on: the
   * first pair from `i` on whose two reads agree, or the last pair when
   * none does.
   */
  function StableSample(samples: seq<(U16, U16)>, i: nat): (k: nat)
    requires i < |samples|
    ensures i <= k < |samples|
    ensures forall j :: i <= j < k ==> samples[j].0 != samples[j].1
    ensures samples[k].0 == samples[k].1 || k == |samples| - 1
    decreases |samples| - i
  {
    if samples[i].0 == samples[i].1 || i == |samples| - 1 then i
    else StableSample(samples, i + 1)
  }

  /** Skipping pairs that disagree does not change where the search settles. */
  lemma {:induction false} StableSampleFrom(samples: seq<(U16, U16)>, i: nat)
    requires i < |samples|
    requires forall j :: 0 <= j < i ==> samples[j].0 != samples[j].1
    ensures StableSample(samples, 0) == StableSample(samples, i)
    decreases i
  {
    if i > 0 {
      StableSampleFrom(samples, i - 1);
    }
  }

  /**
   * The stability loop: read the SOC word twice until both reads agree;
   * after the last attempt the last first read is used, without an error.
   */
  method ReadStable(samples: seq<(U16, U16)>) returns (w: U16)
    requires |samples| == STABLE_TRIES
    ensures w == samples[StableSample(samples, 0)].0
  {
    var i := 0;
    w := samples[0].0;
    while i < STABLE_TRIES
      invariant 0 <= i <= STABLE_TRIES
      invariant forall j :: 0 <= j < i ==> samples[j].0 != samples[j].1
      invariant i > 0 ==> w == samples[i - 1].0
    {
      w := samples[i].0;
      if samples[i].0 == samples[i].1 {
        StableSampleFrom(samples, i);
        return;
      }
      i := i + 1;
    }
    StableSampleFrom(samples, STABLE_TRIES - 1);
  }

  /**
   * The raw SOC (0.01 %) of a 16-bit two's-complement word in 1/16384
   * units: the magnitude times 10000 over 16384, truncated toward zero, with
   * the word's sign.
   */
  function DecodeSoc(w: U16): (soc: int)
    ensures -20000 <= soc <= 20000
    ensures Abs(soc) * 16384 <= Abs(Signed16(w)) * 10000 < (Abs(soc) + 1) * 16384
    ensures soc > 0 ==> Signed16(w) > 0
    ensures soc < 0 ==> Signed16(w) < 0
  {
    if w >= 0x8000 then
      var mag := (0xFFFF - w) + 1;
      Div(mag * -10000, 16384)
    else
      var mag := w % 0x8000;
      Div(mag * 10000, 16384)
  }

  /** Both branches of the decode are one truncating division of the signed word. */
  lemma DecodeSocSigned(w: U16)
    ensures DecodeSoc(w) == Div(Signed16(w) * 10000, 16384)
  {
  }

  /** 0x2000 is 50.00 % and 0x4000 is 100.00 %. */
  lemma DecodeSocExamples()
    ensures DecodeSoc(0x2000) == 5000
    ensures DecodeSoc(0x4000) == 10000
  {
  }

  /** Negating the word negates the SOC (for every word but 0x8000, which has no positive twin). */
  lemma DecodeSocOdd(w: U16)
    requires 0 < w && w != 0x8000
    ensures DecodeSoc(0x1_0000 - w) == -DecodeSoc(w)
  {
    if w < 0x8000 {
      assert Signed16(0x1_0000 - w) == -Signed16(w);
    } else {
      assert Signed16(0x1_0000 - w) == -Signed16(w);
    }
  }

  /** A larger signed word never decodes to a smaller SOC. */
  lemma DecodeSocMonotone(w1: U16, w2: U16)
    requires Signed16(w1) <= Signed16(w2)
    ensures DecodeSoc(w1) <= DecodeSoc(w2)
  {
    DecodeSocSigned(w1);
    DecodeSocSigned(w2);
    DivMonotone(Signed16(w1) * 10000, Signed16(w2) * 10000, 16384);
  }

  /**
   * The SOC update: the reported SOC is always the raw SOC plus
   * `diff_soc`; on the cycle of a reset `diff_soc` is re-chosen so that
   * the reported SOC does not move.
   */
  function ApplySoc(g: Fuelgauge, rsoc: int, reset: bool): (r: Fuelgauge)
    ensures r == g.(soc := r.soc, diffSoc := r.diffSoc)
    ensures r.soc == rsoc + r.diffSoc
    ensures reset ==> r.soc == g.soc
    ensures !reset ==> r.diffSoc == g.diffSoc
  {
    var diff := if reset then g.soc - rsoc else g.diffSoc;
    g.(diffSoc := diff, soc := rsoc + diff)
  }

  /** After a reset the reported SOC follows every later change of the raw SOC, from where it stood. */
  lemma SocTracksRawAfterReset(g: Fuelgauge, rsoc1: int, rsoc2: int)
    ensures ApplySoc(ApplySoc(g, rsoc1, true), rsoc2, false).soc == g.soc + (rsoc2 - rsoc1)
  {
  }

  // ---------------------------------------------------------------------
  // Voltage-mode hysteresis

  /** The battery resistance the driver assumes: 10 under heavy discharge, else 30. */
  function Rbat(avgCurrent: int): int {
    if avgCurrent < -500 then 10 else 30
  }

  /** The open-circuit voltage estimate: monitor voltage less the drop over `Rbat`, truncated per C. */
  function OcvVm(avgMonoutVbat: int, avgCurrent: int): int {
    avgMonoutVbat - Div(avgCurrent * Rbat(avgCurrent), 100)
  }

  /**
   * The low-SOC step: from current mode the gauge enters low-SOC voltage
   * mode when the SOC is at most 3.00 % or the estimated OCV is at most
   * 3600 mV while barely charging; it returns only when the SOC is above
   * 3.25 % and either the OCV is above 3650 mV or it charges with at least
   * 10 mA.  High-SOC voltage mode is left alone.
   */
  function LowSocStep(m: VoltageMode, soc: int, ocvVm: int, avgCurrent: int): (r: VoltageMode)
    ensures r != m ==> (m == CurrentMode && r == LowSocVoltageMode) || (m == LowSocVoltageMode && r == CurrentMode)
    ensures m == CurrentMode ==> (r == LowSocVoltageMode <==> soc <= 300 || (ocvVm <= 3600 && avgCurrent < 10))
    ensures m == LowSocVoltageMode ==> (r == CurrentMode <==> soc > 325 && (ocvVm > 3650 || avgCurrent >= 10))
    ensures m == HighSocVoltageMode ==> r == m
  {
    if soc <= 300 || (ocvVm <= 3600 && avgCurrent < 10) then
      if m == CurrentMode then LowSocVoltageMode else m
    else if soc > 325 && (ocvVm > 3650 || avgCurrent >= 10) then
      if m == LowSocVoltageMode then CurrentMode else m
    else m
  }

  /**
   * The high-SOC step: from current mode the gauge enters high-SOC voltage
   * mode when the scaled SOC is at least 97.9 % or it is charging above the
   * float voltage with under 500 mA; it returns only when the scaled SOC is
   * below 97.0 % and the current is above 550 mA or below 10 mA.  Low-SOC
   * voltage mode is left alone.
   */
  function HighSocStep(m: VoltageMode, scaledSoc: int, isCharging: bool, avgVbat: int, floatVoltage: int, avgCurrent: int)
    : (r: VoltageMode)
    ensures r != m ==> (m == CurrentMode && r == HighSocVoltageMode) || (m == HighSocVoltageMode && r == CurrentMode)
    ensures m == CurrentMode ==>
      (r == HighSocVoltageMode <==> scaledSoc >= 979 || (isCharging && avgVbat > floatVoltage && avgCurrent < 500))
    ensures m == HighSocVoltageMode && r == CurrentMode ==> scaledSoc < 970
    ensures m == HighSocVoltageMode && scaledSoc < 970 && !(isCharging && avgVbat > floatVoltage && avgCurrent < 500) ==>
      (r == CurrentMode <==> avgCurrent > 550 || avgCurrent < 10)
    ensures m == LowSocVoltageMode ==> r == m
  {
    if scaledSoc >= 979 || (isCharging && avgVbat > floatVoltage && avgCurrent < 500) then
      if m == CurrentMode then HighSocVoltageMode else m
    else if (avgCurrent > 550 && scaledSoc < 970) || (avgCurrent < 10 && scaledSoc < 970) then
      if m == HighSocVoltageMode then CurrentMode else m
    else m
  }

  /** Register 0x4A follows a mode change: 0xFF for a voltage mode, 0x10 for current mode. */
  function ModeWrite(b: Regs, before: VoltageMode, after: VoltageMode): (w: Regs)
    ensures before == after ==> w == b
    ensures before != after ==> w == b[0x4A := if after == CurrentMode then 0x10 else 0xFF]
  {
    if before == after then b
    else Write(b, 0x4A, if after == CurrentMode then 0x10 else 0xFF)
  }

  /** Division by `capacity_max - capacity_min` is defined whenever the scaled SOC is computed. */
  predicate ScaleDefined(g: Fuelgauge) {
    Scaled(g.pdata.calcType) ==> g.capacityMax != g.pdata.capacityMin
  }

  /**
   * The SOC (0.1 %) the high-SOC check uses: with SCALE or DYNAMIC_SCALE
   * the gauge's own SOC scaled like the reported capacity, otherwise the
   * battery's reported capacity.
   */
  function ScaledSoc(g: Fuelgauge, batteryCapacity: int): int
    requires ScaleDefined(g)
  {
    if Scaled(g.pdata.calcType) then
      Scale(Div(g.soc, 10), g.pdata.capacityMin, g.capacityMax)
    else batteryCapacity * 10
  }

  /** The charger's float voltage less 0.4 %, truncated per C. */
  function FloatVoltage(voltageMax: int): (fv: int)
    ensures voltageMax >= 0 ==> 0 <= fv * 1000 <= voltageMax * 996 < (fv + 1) * 1000
  {
    DivNonNeg(if voltageMax >= 0 then voltageMax * 996 else 0, 1000);
    Div(voltageMax * 996, 1000)
  }

  /** The measurements of one call, as the decoders produce them. */
  datatype Measured = Measured(avgCurrent: int, avgMonoutVbat: int, avgVbat: int, vbat: int, curr: int)

  function Measure(rd: Readings): Measured
    requires ValidReadings(rd)
  {
    Measured(Current(rd.avgCurrentWord), (rd.monoutVbatWord * 1000) / 4096, Smoothed(Vbats(rd.vbatSamples)),
             Vbat(rd.vbatWord), Current(rd.currentWord))
  }

  /**
   * The measuring and mode-switching part of `s2mu004_get_rawsoc`: average
   * current and monitor voltage (leaving the monitor on temperature), the
   * low-SOC step with its 0x4A write, the averaged voltage (which may move
   * the low-voltage alert to recovery), and the high-SOC step.
   */
  method UpdateModes(g: Fuelgauge, rd: Readings) returns (r: Fuelgauge, m: Measured)
    requires ValidReadings(rd) && ScaleDefined(g)
    ensures m == Measure(rd)
    ensures r == g.(regs := r.regs, mode := r.mode, vbatlMode := r.vbatlMode)
    ensures r.mode == HighSocStep(LowSocStep(g.mode, g.soc, OcvVm(m.avgMonoutVbat, m.avgCurrent), m.avgCurrent),
                                  ScaledSoc(g, rd.batteryCapacity), g.isCharging, m.avgVbat,
                                  FloatVoltage(rd.voltageMax), m.avgCurrent)
    ensures r.regs[REG_MONOUT_SEL] == 0x10
    ensures SameExcept(g.regs, r.regs, {REG_MONOUT_SEL, 0x4A})
    ensures r.vbatlMode == SwRecovery <==>
      g.vbatlMode == SwRecovery ||
      (g.vbatlMode == SwValert && g.temperature > g.lowTempLimit && m.avgVbat >= g.swVbatLRecoveryVol)
  {
    var b, avgCurrent := GetAvgCurrent(g.regs, rd.avgCurrentWord).0, GetAvgCurrent(g.regs, rd.avgCurrentWord).1;
    var b', avgMonout := GetMonoutAvgVbat(b, rd.monoutVbatWord).0, GetMonoutAvgVbat(b, rd.monoutVbatWord).1;
    var ocvVm := OcvVm(avgMonout, avgCurrent);
    var low := LowSocStep(g.mode, g.soc, ocvVm, avgCurrent);
    var b'' := ModeWrite(b', g.mode, low);
    var g1, avgVbat := GetAvgVbat(g.(regs := b'', mode := low), rd.vbatSamples);
    var vbat := Vbat(rd.vbatWord);
    var curr := Current(rd.currentWord);
    var fv := FloatVoltage(rd.voltageMax);
    var high := HighSocStep(low, ScaledSoc(g, rd.batteryCapacity), g.isCharging, avgVbat, fv, avgCurrent);
    r := g1.(regs := ModeWrite(g1.regs, low, high), mode := high);
    m := Measured(avgCurrent, avgMonout, avgVbat, vbat, curr);
  }

  // ---------------------------------------------------------------------
  // Power-off correction

  /** The voltage (mV) at or below which a discharging battery triggers a correction: 3550 in the cold, else 3300. */
  function ForcePowerOffVoltage(temperature: int): int {
    if temperature <= -150 then 3550 else 3300
  }

  /** Current fluctuation: both currents discharging beyond 17 mA, the estimated OCV at most 3500 mV, the SOC above 1 %. */
  predicate Fluctuating(m: Measured, soc: int) {
    m.avgCurrent < -17 && m.curr < -17 && OcvVm(m.avgMonoutVbat, m.avgCurrent) <= 3500 && soc > 100
  }

  /** The OCV estimate used against the table in the low-voltage case: IR-compensated in current mode, else the average voltage. */
  function PowerOffOcv(mode: VoltageMode, m: Measured): int {
    if mode == CurrentMode then m.avgVbat - Div(m.avgCurrent * 15, 100) else m.avgVbat
  }

  /** The low-voltage case applies and its measurements are steady enough to trust. */
  predicate SteadyLowVoltage(mode: VoltageMode, m: Measured, temperature: int) {
    m.avgCurrent < -60 && m.avgVbat <= ForcePowerOffVoltage(temperature) &&
    Abs(m.avgVbat - m.vbat) <= 20 && (mode == CurrentMode ==> Abs(m.avgCurrent - m.curr) <= 30)
  }

  /**
   * Whether, and against which target voltage, `s2mu004_get_rawsoc` runs
   * `WA_0_issue_at_init1`: at 3300 mV under current fluctuation; otherwise,
   * while discharging at low voltage with steady readings, at the OCV
   * estimate when the table's SOC for it is more than 3.00 % away from the
   * gauge's SOC.
   */
  function PowerOffTarget(t: Table, mode: VoltageMode, soc: int, temperature: int, m: Measured): (target: Option<int>)
    requires ValidTable(t)
    ensures target.Some? ==> m.avgCurrent < -17
    ensures Fluctuating(m, soc) ==> target == Some(3300)
    ensures !Fluctuating(m, soc) ==>
      (target.Some? <==>
        SteadyLowVoltage(mode, m, temperature) &&
        Abs(Interpolate(t.ocv, t.soc, PowerOffOcv(mode, m) * 10) - soc) > 300)
    ensures !Fluctuating(m, soc) && target.Some? ==> target.value == PowerOffOcv(mode, m)
  {
    if Fluctuating(m, soc) then Some(3300)
    else if m.avgCurrent < -60 && m.avgVbat <= ForcePowerOffVoltage(temperature) then
      if mode == CurrentMode then
        if Abs(m.avgVbat - m.vbat) <= 20 && Abs(m.avgCurrent - m.curr) <= 30 then
          var ocv := m.avgVbat - Div(m.avgCurrent * 15, 100);
          if Abs(Interpolate(t.ocv, t.soc, ocv * 10) - soc) > 300 then Some(ocv) else None
        else None
      else
        if Abs(m.avgVbat - m.vbat) <= 20 then
          var ocv := m.avgVbat;
          if Abs(Interpolate(t.ocv, t.soc, ocv * 10) - soc) > 300 then Some(ocv) else None
        else None
    else None
  }

  /**
   * The power-off decision as the driver takes it, looking the target SOC
   * up with `s2mu004_get_soc_from_ocv`.
   */
  method PowerOffDecision(t: Table, mode: VoltageMode, soc: int, temperature: int, m: Measured) returns (target: Option<int>)
    requires ValidTable(t)
    ensures target == PowerOffTarget(t, mode, soc, temperature, m)
  {
    target := None;
    if Fluctuating(m, soc) {
      var _ := SocFromOcv(t, 3300);
      target := Some(3300);
    } else if m.avgCurrent < -60 && m.avgVbat <= ForcePowerOffVoltage(temperature) {
      if mode == CurrentMode {
        if Abs(m.avgVbat - m.vbat) <= 20 && Abs(m.avgCurrent - m.curr) <= 30 {
          var ocv := m.avgVbat - Div(m.avgCurrent * 15, 100);
          var targetSoc := SocFromOcv(t, ocv);
          if Abs(targetSoc - soc) > 300 {
            target := Some(ocv);
          }
        }
      } else {
        if Abs(m.avgVbat - m.vbat) <= 20 {
          var ocv := m.avgVbat;
          var targetSoc := SocFromOcv(t, ocv);
          if Abs(targetSoc - soc) > 300 {
            target := Some(ocv);
          }
        }
      }
    }
  }

  /**
   * The power-off check: when the decision fires, `WA_0_issue_at_init1`
   * runs against the target voltage (measuring `surgeVbat`).
   */
  method CheckPowerOff(g: Fuelgauge, m: Measured, surgeVbat: int) returns (r: Fuelgauge, target: Option<int>)
    requires Valid(g)
    ensures target == PowerOffTarget(g.data.table, g.mode, g.soc, g.temperature, m)
    ensures SameSocState(g, r)
    ensures target.None? ==> r.regs == g.regs && r.vbatlMode == g.vbatlMode
    ensures target.Some? && g.temperature <= g.lowTempLimit && g.soc > 500 ==>
      r.regs == g.regs && r.vbatlMode == SwValert
    ensures target.Some? && !(g.temperature <= g.lowTempLimit && g.soc > 500) ==>
      r.regs == g.regs[0x1E := 0x0F] && r.vbatlMode == g.vbatlMode
  {
    target := PowerOffDecision(g.data.table, g.mode, g.soc, g.temperature, m);
    r := g;
    if target.Some? {
      var atRestart, c;
      r, atRestart, c := SurgeAtInit1(g, target.value, surgeVbat);
    }
  }

  // ---------------------------------------------------------------------
  // The return value

  /** The regulator choice: digital above 93 % (integer percent of the SOC), analog otherwise. */
  function IvrCommand(soc: int): ChargerCmd {
    IvrSwitch(Div(soc, 100) <= 93)
  }

  /** The intended return: the SOC capped at 100.00 %. */
  function RawSocReturn(soc: int): (ret: int)
    ensures ret <= 10000 && ret <= soc
    ensures ret == soc || ret == 10000
  {
    if soc < 10000 then soc else 10000
  }

  /**
   * The return as the source has it: the capped SOC is returned only when
   * the platform's debug-log flag is set; otherwise control falls through
   * into the error exit and the call returns `-EINVAL`.
   */
  function RawSocReturnAsWritten(fgLogEnable: bool, soc: int): (ret: int)
    ensures fgLogEnable ==> ret == RawSocReturn(soc)
    ensures !fgLogEnable ==> ret == -EINVAL
  {
    if fgLogEnable then RawSocReturn(soc) else -EINVAL
  }

  /** With the debug-log flag clear, a valid 50.00 % reading is reported as an error. */
  lemma RawSocAsWrittenDropsValue()
    ensures RawSocReturn(5000) == 5000
    ensures RawSocReturnAsWritten(false, 5000) == -22
  {
  }

  /**
   * The part of `s2mu004_get_rawsoc` after the reset branch: read and
   * decode the raw SOC, update the reported SOC, measure and switch modes,
   * take the battery temperature and run the power-off check.
   */
  method Track(g: Fuelgauge, rd: Readings, reset: bool) returns (r: Fuelgauge)
    requires Valid(g) && ValidReadings(rd) && ScaleDefined(g)
    ensures SameStatic(g, r)
    ensures r.soc - r.diffSoc == DecodeSoc(rd.rsocSamples[StableSample(rd.rsocSamples, 0)].0)
    ensures reset ==> r.soc == g.soc
    ensures !reset ==> r.diffSoc == g.diffSoc
    ensures r.temperature == rd.batteryTemp
    ensures r.regs[REG_MONOUT_SEL] == 0x10 && r.regs[0x1F] == g.regs[0x1F]
  {
    var w := ReadStable(rd.rsocSamples);
    var g2 := ApplySoc(g, DecodeSoc(w), reset);
    assert g2.regs == g.regs;
    var g3, m := UpdateModes(g2, rd);
    assert g3.soc == g2.soc && g3.diffSoc == g2.diffSoc;
    assert g3.regs[0x1F] == g.regs[0x1F];
    var g4, _ := CheckPowerOff(g3.(temperature := rd.batteryTemp), m, rd.surgeVbat);
    assert g4.soc == g2.soc && g4.diffSoc == g2.diffSoc && g4.temperature == rd.batteryTemp;
    assert g4.regs[REG_MONOUT_SEL] == 0x10 && g4.regs[0x1F] == g.regs[0x1F];
    r := g4;
  }

  /**
   * The charger commands of one call: those of the reset branch, charging
   * re-enabled after a reset if it was enabled before, and the regulator
   * choice for the final SOC.
   */
  method Commands(resetCmds: seq<ChargerCmd>, reset: bool, chargerEnabled: bool, soc: int) returns (cmds: seq<ChargerCmd>)
    requires !reset ==> resetCmds == []
    requires reset ==> |resetCmds| >= 1 && resetCmds[0] == SetChargingEnabled(ChargingOff)
    requires forall i :: 1 <= i < |resetCmds| ==> resetCmds[i] == FuelgaugeResetNotice
    ensures |cmds| >= 1 && cmds[|cmds| - 1] == IvrCommand(soc)
    ensures reset <==> cmds[0] == SetChargingEnabled(ChargingOff)
    ensures reset && chargerEnabled <==> SetChargingEnabled(Charging) in cmds
  {
    cmds := resetCmds;
    if reset && chargerEnabled {
      cmds := cmds + [SetChargingEnabled(Charging)];
    }
    cmds := cmds + [IvrCommand(soc)];
  }

  /**
   * `s2mu004_get_rawsoc`.  Returns the updated state, the charger
   * commands, the intended return value and the value the source returns.
   */
  method GetRawSoc(g: Fuelgauge, rd: Readings) returns (r: Fuelgauge, cmds: seq<ChargerCmd>, value: int, asWritten: int)
    requires Valid(g) && ValidReadings(rd) && ScaleDefined(g)
    ensures SameStatic(g, r)
    ensures r.soc - r.diffSoc == DecodeSoc(rd.rsocSamples[StableSample(rd.rsocSamples, 0)].0)
    ensures NeedsReset(g) ==> r.soc == g.soc
    ensures !NeedsReset(g) ==> r.diffSoc == g.diffSoc
    ensures value == RawSocReturn(r.soc)
    ensures asWritten == RawSocReturnAsWritten(g.pdata.fgLogEnable, r.soc)
    ensures r.temperature == rd.batteryTemp
    ensures r.regs[REG_MONOUT_SEL] == 0x10
    ensures r.regs[0x1F] == if NeedsReset(g) then g.regs[0x1F] & 0xEF else g.regs[0x1F]
    ensures |cmds| >= 1 && cmds[|cmds| - 1] == IvrCommand(r.soc)
    ensures NeedsReset(g) <==> cmds[0] == SetChargingEnabled(ChargingOff)
    ensures NeedsReset(g) && rd.chargerEnabled <==> SetChargingEnabled(Charging) in cmds
  {
    var g1, resetCmds, reset := ResetIfNeeded(g, rd);
    r := Track(g1, rd, reset);
    cmds := Commands(resetCmds, reset, rd.chargerEnabled, r.soc);
    value := RawSocReturn(r.soc);
    asWritten := RawSocReturnAsWritten(g.pdata.fgLogEnable, r.soc);
  }
}
