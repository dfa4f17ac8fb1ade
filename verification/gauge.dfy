/**
 * The state the S2MU004 fuel-gauge driver keeps between calls, the
 * battery-specific data it loads into the chip, and the platform settings
 * that shape its capacity reporting.
 */
module Gauge {
  import opened Registers
  import opened OcvTable

  /** How the gauge chip integrates: by coulomb counting or by voltage. */
  datatype VoltageMode = CurrentMode | LowSocVoltageMode | HighSocVoltageMode

  /** The software low-battery-voltage alert state. */
  datatype VbatlMode = VbatlNormal | SwValert | SwRecovery

  /** The bits of `capacity_calculation_type` the driver tests. */
  datatype CapacityType = CapacityType(scale: bool, dynamicScale: bool, atomic: bool, skipAbnormal: bool)

  /** Platform settings read from the device tree. */
  datatype Platform = Platform(
    capacityMax: int,
    capacityMaxMargin: int,
    capacityMin: int,
    calcType: CapacityType,
    fuelAlertSoc: int,
    fuelAlertVol: int,
    fgLogEnable: bool)

  /** SCALE or DYNAMIC_SCALE: reported capacities are scaled between `capacity_min` and `capacity_max`. */
  predicate Scaled(t: CapacityType) {
    t.scale || t.dynamicScale
  }

  /** ATOMIC or SKIP_ABNORMAL: reported capacities are smoothed against the last report. */
  predicate SmoothsReports(t: CapacityType) {
    t.atomic || t.skipAbnormal
  }

  /** Lengths of the two calibration blocks at 0x92..0xE9 and 0xEA..0xFF. */
  const TABLE3_SIZE := 0xE9 - 0x92 + 1
  const TABLE4_SIZE := 0xFF - 0xEA + 1

  /**
   * The battery data the driver loads on a reset: capacity bytes, the two
   * calibration blocks, the accumulator settings, the data version, and the
   * OCV table the lookups use.  With battery-age forecasting this is the
   * entry for the current age step.
   */
  datatype BatteryData = BatteryData(
    table: Table,
    batcap: seq<bv8>,
    table3: seq<bv8>,
    table4: seq<bv8>,
    accum0: bv8,
    accum1: bv8,
    dataVer: bv8)

  predicate ValidData(d: BatteryData) {
    ValidTable(d.table) && |d.batcap| == 4 && |d.table3| == TABLE3_SIZE && |d.table4| == TABLE4_SIZE
  }

  /** The driver's per-device state. */
  datatype Fuelgauge = Fuelgauge(
    regs: Regs,
    data: BatteryData,
    pdata: Platform,
    ageForecast: bool,
    ageResetStatus: int,
    soc: int,
    diffSoc: int,
    mode: VoltageMode,
    vbatlMode: VbatlMode,
    temperature: int,
    lowTempLimit: int,
    swVbatLRecoveryVol: int,
    capacityMax: int,
    capacityOld: int,
    rawCapacity: int,
    isCharging: bool,
    probeDone: bool,
    otp4e: bv8,
    otp4f: bv8,
    initialUpdateOfSoc: bool,
    sleepInitialUpdateOfSoc: bool,
    isFuelAlerted: bool)

  predicate Valid(g: Fuelgauge) {
    ValidData(g.data)
  }

  /**
   * The fields the periodic SOC path never writes: all but the registers,
   * the SOC and its offset, the two modes and the temperature.
   */
  predicate SameStatic(g: Fuelgauge, h: Fuelgauge) {
    h.data == g.data && h.pdata == g.pdata && h.ageForecast == g.ageForecast &&
    h.ageResetStatus == g.ageResetStatus && h.lowTempLimit == g.lowTempLimit &&
    h.swVbatLRecoveryVol == g.swVbatLRecoveryVol && h.capacityMax == g.capacityMax &&
    h.capacityOld == g.capacityOld && h.rawCapacity == g.rawCapacity &&
    h.isCharging == g.isCharging && h.probeDone == g.probeDone && h.otp4e == g.otp4e &&
    h.otp4f == g.otp4f && h.initialUpdateOfSoc == g.initialUpdateOfSoc &&
    h.sleepInitialUpdateOfSoc == g.sleepInitialUpdateOfSoc && h.isFuelAlerted == g.isFuelAlerted
  }

  /** All fields but the registers and the low-voltage mode are equal. */
  predicate SameSocState(g: Fuelgauge, h: Fuelgauge) {
    SameStatic(g, h) && h.soc == g.soc && h.diffSoc == g.diffSoc && h.mode == g.mode &&
    h.temperature == g.temperature
  }
}
