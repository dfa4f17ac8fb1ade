/**
 * The CAPACITY property of the S2MU004 fuel gauge (`s2mu004_fg_get_property`):
 * the raw SOC, the last scaled capacity, or the reported percentage, which
 * is the raw SOC scaled, clamped to 0..1000 (0.1 %), cut to whole percent,
 * held at 0 on a software low-voltage alert and smoothed against the last
 * report.  `lpcharge` (the kernel's power-off-charging flag) is a parameter.
 */
module Capacity {
  import opened CArith
  import opened Errno
  import opened Registers
  import opened Gauge
  import opened Scaling
  import opened Decoders
  import opened RawSoc

  /** The sub-type the caller asks for in `val->intval`. */
  datatype CapacityRequest = RawRequest | DynamicScaleRequest | PercentRequest

  /**
   * The capacity in 0.1 % that becomes `raw_capacity`: a tenth of the raw
   * SOC (truncating), scaled when SCALE or DYNAMIC_SCALE is configured,
   * then clamped into 0..1000.
   */
  function CapacityTenths(g: Fuelgauge, rawsoc: int): (c: int)
    requires ScaleDefined(g)
    ensures 0 <= c <= 1000
    ensures !Scaled(g.pdata.calcType) && 0 <= Div(rawsoc, 10) <= 1000 ==> c == Div(rawsoc, 10)
    ensures Scaled(g.pdata.calcType) && Div(rawsoc, 10) < g.pdata.capacityMin ==> c == 0
    ensures Scaled(g.pdata.calcType) && g.capacityMax > g.pdata.capacityMin && Div(rawsoc, 10) >= g.capacityMax ==> c == 1000
  {
    var raw := Div(rawsoc, 10);
    var scaled :=
      if Scaled(g.pdata.calcType) then
        ScaleFull(raw, g.pdata.capacityMin, g.capacityMax);
        Scale(raw, g.pdata.capacityMin, g.capacityMax)
      else raw;
    if scaled > 1000 then 1000 else if scaled < 0 then 0 else scaled
  }

  /** A larger raw SOC never gives a smaller capacity, whenever the scaling span is positive. */
  lemma CapacityTenthsMonotone(g: Fuelgauge, raw1: int, raw2: int)
    requires ScaleDefined(g) && raw1 <= raw2
    requires Scaled(g.pdata.calcType) ==> g.capacityMax > g.pdata.capacityMin
    ensures CapacityTenths(g, raw1) <= CapacityTenths(g, raw2)
  {
    DivMonotone(raw1, raw2, 10);
    if Scaled(g.pdata.calcType) {
      ScaleMonotoneInRaw(Div(raw1, 10), Div(raw2, 10), g.pdata.capacityMin, g.capacityMax);
    }
  }

  /**
   * The software low-voltage alert: while discharging outside power-off
   * charging the report is forced to 0; otherwise a recovering alert ends
   * once the report is back at the last reported capacity.
   */
  function VbatlHold(g: Fuelgauge, v: int, lpcharge: bool): (r: (Fuelgauge, int))
    ensures !g.isCharging && g.vbatlMode == SwValert && !lpcharge ==> r == (g, 0)
    ensures !(!g.isCharging && g.vbatlMode == SwValert && !lpcharge) ==> r.1 == v
    ensures r.0 == g.(vbatlMode := r.0.vbatlMode)
    ensures r.0.pdata == g.pdata
    ensures r.0.vbatlMode == VbatlNormal <==>
      g.vbatlMode == VbatlNormal || (g.vbatlMode == SwRecovery && v == g.capacityOld)
    ensures r.0.vbatlMode == SwValert <==> g.vbatlMode == SwValert
  {
    if !g.isCharging && g.vbatlMode == SwValert && !lpcharge then (g, 0)
    else if g.vbatlMode == SwRecovery && v == g.capacityOld then (g.(vbatlMode := VbatlNormal), v)
    else (g, v)
  }

  /**
   * Once the report rises above the alert threshold after a fuel alert,
   * the alert is re-armed (`s2mu004_fuelgauge_fuelalert_init`).
   */
  function ReleaseAlert(g: Fuelgauge, v: int): (r: Fuelgauge)
    ensures v > g.pdata.fuelAlertSoc && g.isFuelAlerted ==>
      !r.isFuelAlerted && r.regs[REG_IRQ_LVL] == AlertLevel(g.pdata.fuelAlertVol, g.pdata.fuelAlertSoc)
    ensures !(v > g.pdata.fuelAlertSoc && g.isFuelAlerted) ==> r == g
    ensures r == g.(isFuelAlerted := r.isFuelAlerted, regs := r.regs)
    ensures r.pdata == g.pdata
  {
    if v > g.pdata.fuelAlertSoc && g.isFuelAlerted then FuelAlertInit(g).0 else g
  }

  /** A report right after boot or a capacity reset (and not under a low-voltage alert) resynchronises `capacity_old`. */
  predicate BootResync(g: Fuelgauge) {
    g.initialUpdateOfSoc && g.vbatlMode != SwValert
  }

  /**
   * A report right after resume resynchronises `capacity_old` when
   * charging, or when discharging, not under a low-voltage alert, and the
   * capacity has not risen.
   */
  predicate ResumeResync(g: Fuelgauge, v: int) {
    g.sleepInitialUpdateOfSoc &&
    (g.isCharging || (g.vbatlMode != SwValert && g.capacityOld >= v))
  }

  /**
   * The last step: after boot or resume `capacity_old` takes the new value
   * and the pending flag clears; otherwise ATOMIC or SKIP_ABNORMAL smooth
   * the report against `capacity_old`, which then takes the report.
   */
  function UpdateOld(g: Fuelgauge, v: int): (r: (Fuelgauge, int))
    ensures r.0 == g.(capacityOld := r.0.capacityOld, initialUpdateOfSoc := r.0.initialUpdateOfSoc,
                      sleepInitialUpdateOfSoc := r.0.sleepInitialUpdateOfSoc)
    ensures (g.capacityOld <= r.1 <= v) || (v <= r.1 <= g.capacityOld)
    ensures SmoothsReports(g.pdata.calcType) ==> r.0.capacityOld == r.1
    ensures BootResync(g) ==> r == (g.(capacityOld := v, initialUpdateOfSoc := false), v)
    ensures !BootResync(g) && ResumeResync(g, v) ==> r == (g.(capacityOld := v, sleepInitialUpdateOfSoc := false), v)
    ensures !BootResync(g) && !ResumeResync(g, v) ==>
      r.0.initialUpdateOfSoc == g.initialUpdateOfSoc && r.0.sleepInitialUpdateOfSoc == g.sleepInitialUpdateOfSoc &&
      r.1 == Atomic(g.pdata.calcType, g.isCharging, g.capacityOld, v) &&
      r.0.capacityOld == (if SmoothsReports(g.pdata.calcType) then r.1 else g.capacityOld)
  {
    if BootResync(g) then (g.(capacityOld := v, initialUpdateOfSoc := false), v)
    else if ResumeResync(g, v) then (g.(capacityOld := v, sleepInitialUpdateOfSoc := false), v)
    else if SmoothsReports(g.pdata.calcType) then
      var a := Atomic(g.pdata.calcType, g.isCharging, g.capacityOld, v);
      (g.(capacityOld := a), a)
    else (g, v)
  }

  /**
   * `h` agrees with `g` on every field a percentage report leaves alone:
   * everything but the registers, `raw_capacity`, `capacity_old`, the
   * low-voltage and fuel alerts and the two resync flags.
   */
  predicate ReportFields(g: Fuelgauge, h: Fuelgauge) {
    h.data == g.data && h.pdata == g.pdata && h.ageForecast == g.ageForecast &&
    h.ageResetStatus == g.ageResetStatus && h.soc == g.soc && h.diffSoc == g.diffSoc &&
    h.mode == g.mode && h.temperature == g.temperature && h.lowTempLimit == g.lowTempLimit &&
    h.swVbatLRecoveryVol == g.swVbatLRecoveryVol && h.capacityMax == g.capacityMax &&
    h.isCharging == g.isCharging && h.probeDone == g.probeDone && h.otp4e == g.otp4e && h.otp4f == g.otp4f
  }

  /**
   * The percentage report from a raw SOC (0.01 %), and the state it leaves:
   * `raw_capacity` is the clamped capacity; the report lies between the
   * last report and the new capacity, so it is a whole percentage whenever
   * the last report was; with ATOMIC or SKIP_ABNORMAL `capacity_old` ends
   * equal to the report; only the alert, smoothing and resync fields and
   * the alert registers change.
   */
  function Report(g: Fuelgauge, rawsoc: int, lpcharge: bool): (r: (Fuelgauge, int))
    requires ScaleDefined(g)
    ensures r.0.rawCapacity == CapacityTenths(g, rawsoc)
    ensures (g.capacityOld <= r.1 || 0 <= r.1) && (r.1 <= g.capacityOld || r.1 <= 100)
    ensures 0 <= g.capacityOld <= 100 ==> 0 <= r.1 <= 100
    ensures SmoothsReports(g.pdata.calcType) ==> r.0.capacityOld == r.1
    ensures ReportFields(g, r.0)
    ensures SameExcept(g.regs, r.0.regs, {REG_IRQ + 1, REG_IRQ_LVL, REG_IRQ_LVL + 1})
  {
    var tenths := CapacityTenths(g, rawsoc);
    var (g1, v) := VbatlHold(g.(rawCapacity := tenths), tenths / 10, lpcharge);
    UpdateOld(ReleaseAlert(g1, v), v)
  }

  /**
   * Outside the boot and resume resynchronisations, ATOMIC moves the
   * report at most one percent from the last one, and SKIP_ABNORMAL never
   * lets it rise while discharging.
   */
  lemma ReportSmoothed(g: Fuelgauge, rawsoc: int, lpcharge: bool)
    requires ScaleDefined(g)
    requires !g.initialUpdateOfSoc && !g.sleepInitialUpdateOfSoc
    ensures g.pdata.calcType.atomic ==> -1 <= Report(g, rawsoc, lpcharge).1 - g.capacityOld <= 1
    ensures g.pdata.calcType.skipAbnormal && !g.isCharging ==> Report(g, rawsoc, lpcharge).1 <= g.capacityOld
  {
  }

  /**
   * Under a software low-voltage alert, discharging outside power-off
   * charging, the report is 0 unless smoothing is configured, in which
   * case it falls toward 0 and never rises.
   */
  lemma ReportHeldAtZero(g: Fuelgauge, rawsoc: int, lpcharge: bool)
    requires ScaleDefined(g)
    requires !g.isCharging && g.vbatlMode == SwValert && !lpcharge
    ensures !SmoothsReports(g.pdata.calcType) ==> Report(g, rawsoc, lpcharge).1 == 0
    ensures 0 <= g.capacityOld ==> 0 <= Report(g, rawsoc, lpcharge).1 <= g.capacityOld
  {
  }

  /**
   * When the raw SOC read reports the error `-EINVAL` (as it does with the
   * debug-log flag clear), the capacity computed from it is 0, whatever
   * the battery holds (with scaling, for any non-negative `capacity_min`).
   */
  lemma ErrorReadsEmpty(g: Fuelgauge)
    requires ScaleDefined(g) && (Scaled(g.pdata.calcType) ==> g.pdata.capacityMin >= 0)
    ensures CapacityTenths(g, -EINVAL) == 0
  {
    assert Div(-EINVAL, 10) == -2;
  }

  /**
   * The raw SOC as the source returns it, fed into the percentage report:
   * with the debug-log flag clear a half-full battery reads as 0 %, where
   * the capped SOC reads as 50 %.
   */
  lemma AsWrittenReadsEmpty(g: Fuelgauge)
    requires ScaleDefined(g) && !Scaled(g.pdata.calcType)
    ensures CapacityTenths(g, RawSocReturnAsWritten(false, 5000)) == 0
    ensures CapacityTenths(g, RawSocReturn(5000)) == 500
  {
    ErrorReadsEmpty(g);
    assert Div(5000, 10) == 500;
  }

  /**
   * The CAPACITY property: the raw SOC, the last `raw_capacity`, or the
   * percentage report computed from a fresh raw SOC read.  `r` and `val`
   * are the outcome as the source is written, fed by the raw-SOC return
   * that is `-EINVAL` unless `fg_log_enable` is set; `fixed` and `fixedVal`
   * are the outcome fed by the capped SOC.  With the flag set they agree.
   */
  method GetCapacity(g: Fuelgauge, rd: Readings, req: CapacityRequest, lpcharge: bool)
    returns (r: Fuelgauge, cmds: seq<ChargerCmd>, val: int, fixed: Fuelgauge, fixedVal: int)
    requires Valid(g) && ValidReadings(rd) && ScaleDefined(g)
    ensures req == DynamicScaleRequest ==>
      r == g && fixed == g && cmds == [] && val == fixedVal == g.rawCapacity
    ensures req == RawRequest ==> val == RawSocReturnAsWritten(g.pdata.fgLogEnable, r.soc) && r == fixed
    ensures req == RawRequest ==> fixedVal == RawSocReturn(fixed.soc) && fixedVal <= 10000
    ensures req == RawRequest && !g.pdata.fgLogEnable ==> val == -EINVAL
    ensures req == PercentRequest ==>
      r.rawCapacity == CapacityTenths(g, RawSocReturnAsWritten(g.pdata.fgLogEnable, fixed.soc)) &&
      fixed.rawCapacity == CapacityTenths(g, RawSocReturn(fixed.soc))
    ensures req == PercentRequest ==>
      0 <= r.rawCapacity <= 1000 && (0 <= g.capacityOld <= 100 ==> 0 <= val <= 100) &&
      0 <= fixed.rawCapacity <= 1000 && (0 <= g.capacityOld <= 100 ==> 0 <= fixedVal <= 100)
    ensures req == PercentRequest && !g.pdata.fgLogEnable && !Scaled(g.pdata.calcType) ==> r.rawCapacity == 0
    ensures req == PercentRequest && SmoothsReports(g.pdata.calcType) ==>
      r.capacityOld == val && fixed.capacityOld == fixedVal
    ensures g.pdata.fgLogEnable ==> r == fixed && val == fixedVal
    ensures req != DynamicScaleRequest ==> |cmds| >= 1 && cmds[|cmds| - 1] == IvrCommand(fixed.soc)
  {
    if req == DynamicScaleRequest {
      return g, [], g.rawCapacity, g, g.rawCapacity;
    }
    var read, value, asWritten;
    read, cmds, value, asWritten := GetRawSoc(g, rd);
    if req == RawRequest {
      return read, cmds, asWritten, read, value;
    }
    r, val := Percent(g, read, asWritten, lpcharge);
    fixed, fixedVal := Percent(g, read, value, lpcharge);
    if !g.pdata.fgLogEnable && !Scaled(g.pdata.calcType) {
      ErrorReadsEmpty(g);
    }
  }

  /** The percentage report of `read`, the state after the raw SOC read from `g`, for the raw SOC `rawsoc`. */
  method Percent(g: Fuelgauge, read: Fuelgauge, rawsoc: int, lpcharge: bool) returns (r: Fuelgauge, val: int)
    requires ScaleDefined(g)
    requires read.capacityOld == g.capacityOld && read.pdata == g.pdata && read.capacityMax == g.capacityMax
    ensures (r, val) == Report(read, rawsoc, lpcharge)
    ensures r.rawCapacity == CapacityTenths(g, rawsoc) && 0 <= r.rawCapacity <= 1000
    ensures 0 <= g.capacityOld <= 100 ==> 0 <= val <= 100
    ensures SmoothsReports(g.pdata.calcType) ==> r.capacityOld == val
    ensures r.soc == read.soc
  {
    var report := Report(read, rawsoc, lpcharge);
    r, val := report.0, report.1;
  }
}
