/**
 * The register-level routines of the fuel gauge: the two "surge"
 * offset-correction routines (`WA_0_issue_at_init`, `WA_0_issue_at_init1`),
 * `s2mu004_restart_gauging` and `s2mu004_reset_fg`.  Each snapshots the
 * registers it forces, restarts the gauge, and restores them; the voltage
 * the chip measures in between (`s2mu004_get_vbat`, in mV) is a parameter.
 */
module Surge {
  import opened Registers
  import opened OcvTable
  import opened OffsetCodec
  import opened Optional
  import opened Gauge

  /**
   * The registers as they stand while the gauge restarts with forced
   * settings: current fixed (0x27 low nibble set), 0x26 and the average
   * voltage factor 0x40 at 0xFF, and the restart strobe 0x1E at 0x0F.
   */
  predicate Forced(before: Regs, during: Regs) {
    during[0x27] == before[0x27] | 0x0F && during[0x26] == 0xFF && during[0x40] == 0xFF && during[0x1E] == 0x0F
  }

  /** The interrupt pair with the four low interrupt sources of the second byte masked. */
  predicate IrqMasked(before: Regs, during: Regs) {
    during[REG_IRQ] == before[REG_IRQ] && during[REG_IRQ + 1] == before[REG_IRQ + 1] | 0x0F
  }

  /** Putting a byte's own two nibbles back together gives the byte. */
  lemma NibbleRestore(x: bv8, y: bv8)
    requires x & 0xF0 == y & 0xF0
    ensures (x & 0xF0) | (y & 0x0F) == y
  {
  }

  /**
   * Steps 4 and on of both surge routines, from reading the offset field
   * (which holds `v4f`/`v4e`) to restoring 0x4F/0x4E: the offset is
   * corrected by `delta`, the table voltage less the measured one,
   * written, the gauge restarted, then 0x27 and 0x26 restored, the
   * original offset put back and 0x40 restored to `v40`.
   */
  method CorrectAndRestart(b0: Regs, v4f: bv8, v4e: bv8, delta: int, reg27: bv8, reg26: bv8, v40: bv8)
    returns (b: Regs, atRestart: Regs, c: Correction)
    requires b0[0x4F] == v4f && b0[0x4E] == v4e
    ensures Corrects(v4f, v4e, delta, c)
    ensures atRestart == b0[0x4F := c.v4f][0x4E := c.v4e][0x1E := 0x0F]
    ensures b == b0[0x1E := 0x0F][0x27 := reg27][0x26 := reg26][0x40 := v40]
  {
    c := CorrectOffset(v4f, v4e, delta);
    b := Write(b0, 0x4F, c.v4f);
    b := Write(b, 0x4E, c.v4e);
    b := Write(b, 0x1E, 0x0F);
    atRestart := b;
    b := Restore(b, v4f, v4e, reg27, reg26, v40);
    assert b == b0[0x1E := 0x0F][0x27 := reg27][0x26 := reg26][0x40 := v40];
  }

  /**
   * The restore steps after the restart: 0x27 and 0x26 back, 0x4F's low
   * nibble and 0x4E back to the saved offset field, 0x40 back.
   */
  method Restore(b0: Regs, v4f: bv8, v4e: bv8, reg27: bv8, reg26: bv8, v40: bv8) returns (b: Regs)
    requires b0[0x4F] & 0xF0 == v4f & 0xF0
    ensures b == b0[0x27 := reg27][0x26 := reg26][0x4F := v4f][0x4E := v4e][0x40 := v40]
  {
    b := Write(b0, 0x27, reg27);
    b := Write(b, 0x26, reg26);
    var back := b[0x4F];
    NibbleRestore(back, v4f);
    b := Write(b, 0x4F, (back & 0xF0) | (v4f & 0x0F));
    b := Write(b, 0x4E, v4e);
    b := Write(b, 0x40, v40);
  }

  /**
   * `WA_0_issue_at_init`: mask the gauge interrupts, force the current and
   * averaging registers, measure, correct the offset by the difference
   * between the table voltage for the current SOC and the measured voltage,
   * restart, and restore everything.  The only lasting change is the
   * restart strobe 0x1E = 0x0F.
   */
  method SurgeAtInit(b0: Regs, t: Table, soc: int, vbat: int) returns (b: Regs, atRestart: Regs, c: Correction)
    requires ValidTable(t)
    ensures Corrects(b0[0x4F], b0[0x4E], Interpolate(t.soc, t.ocv, soc) - vbat * 10, c)
    ensures atRestart[0x4F] == c.v4f && atRestart[0x4E] == c.v4e
    ensures Forced(b0, atRestart) && IrqMasked(b0, atRestart)
    ensures b == b0[0x1E := 0x0F]
  {
    var irq0, irq1 := b0[REG_IRQ], b0[REG_IRQ + 1];
    var masked := WritePair(b0, REG_IRQ, irq0, irq1 | 0x0F);
    var uiVolt := OcvFromSoc(t, soc);
    var forced, reg27, reg26, v40 := ForceSurge(masked);
    var v4f, v4e := b0[0x4F], b0[0x4E];
    var restored;
    restored, atRestart, c := CorrectAndRestart(forced, v4f, v4e, uiVolt - vbat * 10, reg27, reg26, v40);
    ForceThenRestore(masked, reg27, reg26, v40);
    SurgeWindow(b0, masked, forced, atRestart, c.v4f, c.v4e);
    b := WritePair(restored, REG_IRQ, irq0, irq1);
    MaskThenRestore(b0, irq0, irq1, irq1 | 0x0F);
  }

  /** The registers at the restart of `WA_0_issue_at_init` are forced, masked and hold the corrected offset. */
  lemma SurgeWindow(b0: Regs, masked: Regs, forced: Regs, atRestart: Regs, v4f: bv8, v4e: bv8)
    requires masked == b0[REG_IRQ := b0[REG_IRQ]][REG_IRQ + 1 := b0[REG_IRQ + 1] | 0x0F]
    requires forced == masked[0x27 := masked[0x27] | 0x0F][0x26 := 0xFF][0x40 := 0xFF][0x1E := 0x0F]
    requires atRestart == forced[0x4F := v4f][0x4E := v4e][0x1E := 0x0F]
    ensures atRestart[0x4F] == v4f && atRestart[0x4E] == v4e
    ensures Forced(b0, atRestart) && IrqMasked(b0, atRestart)
  {
  }

  /** Forcing 0x27, 0x26 and 0x40, strobing, and writing the saved values back leaves only the strobe. */
  lemma ForceThenRestore(b0: Regs, reg27: bv8, reg26: bv8, v40: bv8)
    requires b0[0x27] == reg27 && b0[0x26] == reg26 && b0[0x40] == v40
    ensures b0[0x27 := reg27 | 0x0F][0x26 := 0xFF][0x40 := 0xFF][0x1E := 0x0F][0x1E := 0x0F]
              [0x27 := reg27][0x26 := reg26][0x40 := v40] == b0[0x1E := 0x0F]
  {
  }

  /** Masking the interrupt pair, strobing, and writing the saved pair back leaves only the strobe. */
  lemma MaskThenRestore(b0: Regs, irq0: bv8, irq1: bv8, v: bv8)
    requires b0[REG_IRQ] == irq0 && b0[REG_IRQ + 1] == irq1
    ensures b0[REG_IRQ := irq0][REG_IRQ + 1 := v][0x1E := 0x0F][REG_IRQ := irq0][REG_IRQ + 1 := irq1] == b0[0x1E := 0x0F]
  {
  }

  /**
   * The forcing steps of `WA_0_issue_at_init`: current fixed through 0x27,
   * 0x26 and 0x40 at 0xFF, then the restart strobe; returns the saved
   * values of 0x27, 0x26 and 0x40.
   */
  method ForceSurge(b0: Regs) returns (b: Regs, reg27: bv8, reg26: bv8, v40: bv8)
    ensures reg27 == b0[0x27] && reg26 == b0[0x26] && v40 == b0[0x40]
    ensures b == b0[0x27 := reg27 | 0x0F][0x26 := 0xFF][0x40 := 0xFF][0x1E := 0x0F]
  {
    reg27 := b0[0x27];
    b := Write(b0, 0x27, reg27 | 0x0F);
    reg26 := b[0x26];
    b := Write(b, 0x26, 0xFF);
    v40 := b[0x40];
    b := Write(b, 0x40, 0xFF);
    b := Write(b, 0x1E, 0x0F);
  }

  /**
   * `WA_0_issue_at_init1`: the same correction against a given target
   * voltage (mV).  In the cold, unless the SOC is at most 5 %, it skips the
   * correction entirely and raises the software low-voltage alert instead.
   * It leaves the interrupt mask alone.
   */
  method SurgeAtInit1(g: Fuelgauge, targetOcv: int, vbat: int)
    returns (r: Fuelgauge, atRestart: Regs, c: Option<Correction>)
    ensures SameSocState(g, r)
    ensures g.temperature <= g.lowTempLimit && g.soc > 500 ==>
      r.regs == g.regs && r.vbatlMode == SwValert && c == None
    ensures !(g.temperature <= g.lowTempLimit && g.soc > 500) ==>
      r.vbatlMode == g.vbatlMode &&
      c.Some? && Corrects(g.regs[0x4F], g.regs[0x4E], targetOcv * 10 - vbat * 10, c.value) &&
      atRestart[0x4F] == c.value.v4f && atRestart[0x4E] == c.value.v4e &&
      Forced(g.regs, atRestart) &&
      atRestart[REG_IRQ] == g.regs[REG_IRQ] && atRestart[REG_IRQ + 1] == g.regs[REG_IRQ + 1] &&
      r.regs == g.regs[0x1E := 0x0F]
  {
    if g.temperature <= g.lowTempLimit && !(g.soc <= 500) {
      return g.(vbatlMode := SwValert), g.regs, None;
    }
    var b, corr;
    b, atRestart, corr := PowerOffSurge(g.regs, targetOcv * 10 - vbat * 10);
    r, c := g.(regs := b), Some(corr);
  }

  /**
   * The register work of `WA_0_issue_at_init1` outside the cold case: force
   * the surge, correct the offset by `delta`, restart, and write the forced
   * registers back.  Only the restart strobe remains changed.
   */
  method PowerOffSurge(x: Regs, delta: int) returns (b: Regs, atRestart: Regs, c: Correction)
    ensures Corrects(x[0x4F], x[0x4E], delta, c)
    ensures atRestart[0x4F] == c.v4f && atRestart[0x4E] == c.v4e && Forced(x, atRestart)
    ensures atRestart[REG_IRQ] == x[REG_IRQ] && atRestart[REG_IRQ + 1] == x[REG_IRQ + 1]
    ensures b == x[0x1E := 0x0F]
  {
    var forced, reg27, reg26, v40 := ForcePowerOffSurge(x);
    b, atRestart, c := CorrectAndRestart(forced, x[0x4F], x[0x4E], delta, reg27, reg26, v40);
    ForceThenRestoreAt1E(x, forced);
    PowerOffWindow(x, forced, atRestart, c.v4f, c.v4e);
  }

  /** At the restart of `WA_0_issue_at_init1` the registers are forced and hold the corrected offset; the interrupt pair is untouched. */
  lemma PowerOffWindow(x: Regs, forced: Regs, atRestart: Regs, v4f: bv8, v4e: bv8)
    requires forced == x[0x40 := 0xFF][0x27 := x[0x27] | 0x0F][0x26 := 0xFF][0x1E := 0x0F]
    requires atRestart == forced[0x4F := v4f][0x4E := v4e][0x1E := 0x0F]
    ensures atRestart[0x4F] == v4f && atRestart[0x4E] == v4e && Forced(x, atRestart)
    ensures atRestart[REG_IRQ] == x[REG_IRQ] && atRestart[REG_IRQ + 1] == x[REG_IRQ + 1]
  {
  }

  /**
   * The forcing steps of `WA_0_issue_at_init1`, in its order: 0x40 at 0xFF,
   * current fixed through 0x27, 0x26 at 0xFF, then the restart strobe;
   * returns the saved values of 0x27, 0x26 and 0x40.
   */
  method ForcePowerOffSurge(b0: Regs) returns (b: Regs, reg27: bv8, reg26: bv8, v40: bv8)
    ensures reg27 == b0[0x27] && reg26 == b0[0x26] && v40 == b0[0x40]
    ensures b == b0[0x40 := 0xFF][0x27 := b0[0x27] | 0x0F][0x26 := 0xFF][0x1E := 0x0F]
  {
    v40 := b0[0x40];
    b := Write(b0, 0x40, 0xFF);
    reg27 := b[0x27];
    b := Write(b, 0x27, reg27 | 0x0F);
    reg26 := b[0x26];
    b := Write(b, 0x26, 0xFF);
    b := Write(b, 0x1E, 0x0F);
  }

  /** Undoing the forced writes of the power-off surge leaves only 0x1E changed. */
  lemma ForceThenRestoreAt1E(x: Regs, forced: Regs)
    requires forced == x[0x40 := 0xFF][0x27 := x[0x27] | 0x0F][0x26 := 0xFF][0x1E := 0x0F]
    ensures forced[0x1E := 0x0F][0x27 := x[0x27]][0x26 := x[0x26]][0x40 := x[0x40]] == x[0x1E := 0x0F]
  {
  }

  /**
   * `s2mu004_restart_gauging`: mask interrupts, force the current and
   * averaging registers, write 0x21 = 0x13 and strobe 0x1E, then restore
   * 0x27, 0x26, 0x40 and the interrupt pair.  The lasting changes are 0x21
   * and 0x1E.
   */
  method RestartGauging(b0: Regs) returns (b: Regs, atRestart: Regs)
    ensures Forced(b0, atRestart) && IrqMasked(b0, atRestart) && atRestart[0x21] == 0x13
    ensures b == b0[0x21 := 0x13][0x1E := 0x0F]
  {
    var irq0, irq1 := b0[REG_IRQ], b0[REG_IRQ + 1];
    b := WritePair(b0, REG_IRQ, irq0, irq1 | 0x0F);
    var reg27 := b[0x27];
    b := Write(b, 0x27, reg27 | 0x0F);
    var reg26 := b[0x26];
    b := Write(b, 0x26, 0xFF);
    var v40 := b[0x40];
    b := Write(b, 0x40, 0xFF);
    b := Write(b, 0x21, 0x13);
    b := Write(b, 0x1E, 0x0F);
    atRestart := b;
    b := Write(b, 0x27, reg27);
    b := Write(b, 0x26, reg26);
    b := Write(b, 0x40, v40);
    b := WritePair(b, REG_IRQ, irq0, irq1);
    assert b == b0[0x21 := 0x13][0x1E := 0x0F];
  }

  /** The battery capacity bytes and both calibration blocks, written in address order. */
  function LoadTables(r: Regs, d: BatteryData): Regs
    requires ValidData(d)
  {
    WriteBlock(WriteBlock(WriteBlock(r, 0x0E, d.batcap), 0x92, d.table3), 0xEA, d.table4)
  }

  /**
   * The configuration writes of `s2mu004_reset_fg` after the tables: gauge
   * configuration 0x21 and 0x14, the accumulator settings (0x45 keeps its
   * high nibble), current-mode bit 4 of 0x27, the interrupt reference of
   * 0x43 (bits 3:2 = 10), top-off sensing 0x49 bit 7 cleared, 0x4B and the
   * current-mode value of 0x4A, bit 4 of 0x03 and the averaging factor 0x40.
   */
  function Configure(r: Regs, d: BatteryData): Regs {
    var w := Write(r, 0x21, 0x13);
    var w := Write(w, 0x14, 0x40);
    var w := Write(w, 0x45, (w[0x45] & 0xF0) | d.accum0);
    var w := Write(w, 0x44, d.accum1);
    var w := Write(w, 0x27, w[0x27] | 0x10);
    var w := Write(w, 0x43, (w[0x43] & 0xF3) | 0x08);
    var w := Write(w, 0x49, w[0x49] & 0x7F);
    var w := Write(w, 0x4B, 0x0B);
    var w := Write(w, 0x4A, 0x10);
    var w := Write(w, 0x03, w[0x03] | 0x10);
    Write(w, 0x40, 0x08)
  }

  /** The register loading of `s2mu004_reset_fg`, before the surge routine runs. */
  function LoadBatteryData(r: Regs, d: BatteryData): Regs
    requires ValidData(d)
  {
    Configure(LoadTables(r, d), d)
  }

  /** Addresses of the battery capacity bytes and the two calibration blocks. */
  predicate TableAddr(a: Addr) {
    0x0E <= a <= 0x11 || 0x92 <= a
  }

  /** The battery-data byte a reset loads at a table address. */
  function TableByte(d: BatteryData, a: Addr): bv8
    requires ValidData(d) && TableAddr(a)
  {
    if a <= 0x11 then d.batcap[a - 0x0E]
    else if a <= 0xE9 then d.table3[a - 0x92]
    else d.table4[a - 0xEA]
  }

  /** The byte `Configure` leaves at `a`, given the byte `prev` that was there. */
  function ConfigByte(d: BatteryData, a: Addr, prev: bv8): bv8 {
    if a == 0x21 then 0x13
    else if a == 0x14 then 0x40
    else if a == 0x45 then (prev & 0xF0) | d.accum0
    else if a == 0x44 then d.accum1
    else if a == 0x27 then prev | 0x10
    else if a == 0x43 then (prev & 0xF3) | 0x08
    else if a == 0x49 then prev & 0x7F
    else if a == 0x4B then 0x0B
    else if a == 0x4A then 0x10
    else if a == 0x03 then prev | 0x10
    else if a == 0x40 then 0x08
    else prev
  }

  /**
   * Reference definition, address by address, of what a reset leaves in a
   * register that held `prev`: the battery data at the table addresses, the
   * configuration values and merged bits, the restart strobe, the data
   * version in FG_ID's low nibble, and otherwise `prev`.
   */
  function ResetByte(d: BatteryData, a: Addr, prev: bv8): bv8
    requires ValidData(d)
  {
    if TableAddr(a) then TableByte(d, a)
    else if a == 0x1E then 0x0F
    else if a == REG_FG_ID then (prev & 0xF0) | d.dataVer
    else ConfigByte(d, a, prev)
  }

  /** The registers after a reset, as the driver's writes leave them. */
  function ResetRegs(r: Regs, d: BatteryData): Regs
    requires ValidData(d)
  {
    var w := LoadBatteryData(r, d)[0x1E := 0x0F];
    Write(w, REG_FG_ID, (w[REG_FG_ID] & 0xF0) | d.dataVer)
  }

  lemma LoadTablesBytes(r: Regs, d: BatteryData)
    requires ValidData(d)
    ensures forall a: Addr :: !TableAddr(a) ==> LoadTables(r, d)[a] == r[a]
    ensures forall a: Addr :: TableAddr(a) ==> LoadTables(r, d)[a] == TableByte(d, a)
  {
    var w := LoadTables(r, d);
    forall a: Addr | TableAddr(a)
      ensures w[a] == TableByte(d, a)
    {
      if a <= 0x11 {
        assert w[0x0E + (a - 0x0E)] == d.batcap[a - 0x0E];
      } else if a <= 0xE9 {
        assert w[0x92 + (a - 0x92)] == d.table3[a - 0x92];
      } else {
        assert w[0xEA + (a - 0xEA)] == d.table4[a - 0xEA];
      }
    }
  }

  lemma ConfigureAt(w: Regs, d: BatteryData, a: Addr)
    ensures Configure(w, d)[a] == ConfigByte(d, a, w[a])
  {
    var c := Configure(w, d);
    if a in {0x21, 0x14, 0x45, 0x44, 0x27, 0x43, 0x49, 0x4B, 0x4A, 0x03, 0x40} {
      assert c[a] == ConfigByte(d, a, w[a]);
    } else {
      assert c[a] == w[a];
    }
  }

  /** The driver's write sequence leaves, at every address, the byte `ResetByte` describes. */
  lemma ResetRegsAt(r: Regs, d: BatteryData, a: Addr)
    requires ValidData(d)
    ensures ResetRegs(r, d)[a] == ResetByte(d, a, r[a])
  {
    var t := LoadTables(r, d);
    LoadTablesAt(r, d, a);
    LoadTablesAt(r, d, REG_FG_ID);
    ConfigureAt(t, d, a);
    ConfigureAt(t, d, REG_FG_ID);
  }

  /** One address of the table load: its battery-data byte, or untouched. */
  lemma LoadTablesAt(r: Regs, d: BatteryData, a: Addr)
    requires ValidData(d)
    ensures LoadTables(r, d)[a] == if TableAddr(a) then TableByte(d, a) else r[a]
  {
  }

  /** Every bit operation of the reset gives the same byte when applied again. */
  lemma ResetByteIdempotent(d: BatteryData, a: Addr, x: bv8)
    requires ValidData(d)
    ensures ResetByte(d, a, ResetByte(d, a, x)) == ResetByte(d, a, x)
  {
    if TableAddr(a) || a == 0x1E {
    } else if a == REG_FG_ID {
      MergeIdempotent(x, 0xF0, d.dataVer);
    } else {
      ConfigByteIdempotent(d, a, x);
    }
  }

  /** Every configuration write gives the same byte when applied again. */
  lemma ConfigByteIdempotent(d: BatteryData, a: Addr, x: bv8)
    ensures ConfigByte(d, a, ConfigByte(d, a, x)) == ConfigByte(d, a, x)
  {
    if a == 0x45 {
      MergeIdempotent(x, 0xF0, d.accum0);
    } else if a == 0x43 {
      MergeIdempotent(x, 0xF3, 0x08);
    } else if a == 0x27 || a == 0x03 {
      MergeIdempotent(x, 0xFF, 0x10);
    } else if a == 0x49 {
      MergeIdempotent(x, 0x7F, 0);
    }
  }

  /** Masking then setting bits gives the same byte when done twice. */
  lemma MergeIdempotent(x: bv8, mask: bv8, v: bv8)
    ensures ((((x & mask) | v) & mask) | v) == (x & mask) | v
  {
  }

  /** A second reset right after the first leaves the registers exactly as the first did. */
  lemma ResetIdempotent(r: Regs, d: BatteryData)
    requires ValidData(d)
    ensures ResetRegs(ResetRegs(r, d), d) == ResetRegs(r, d)
  {
    var once := ResetRegs(r, d);
    var twice := ResetRegs(once, d);
    forall a: Addr
      ensures twice[a] == once[a]
    {
      ResetRegsAt(r, d, a);
      ResetRegsAt(once, d, a);
      ResetByteIdempotent(d, a, r[a]);
    }
  }

  /** After a reset every table address holds its battery-data byte, and 0x1F is untouched. */
  lemma ResetLoadsTables(r: Regs, d: BatteryData)
    requires ValidData(d)
    ensures forall a: Addr :: TableAddr(a) ==> ResetRegs(r, d)[a] == TableByte(d, a)
    ensures ResetRegs(r, d)[0x1F] == r[0x1F]
  {
    forall a: Addr | TableAddr(a)
      ensures ResetRegs(r, d)[a] == TableByte(d, a)
    {
      ResetRegsAt(r, d, a);
    }
    ResetRegsAt(r, d, 0x1F);
  }

  /** Loading the battery data leaves the offset field 0x4F/0x4E alone. */
  lemma LoadKeepsOffset(r: Regs, d: BatteryData)
    requires ValidData(d)
    ensures LoadBatteryData(r, d)[0x4F] == r[0x4F] && LoadBatteryData(r, d)[0x4E] == r[0x4E]
  {
    var t := LoadTables(r, d);
    LoadTablesBytes(r, d);
    assert t[0x4F] == r[0x4F] && t[0x4E] == r[0x4E];
    ConfigureAt(t, d, 0x4F);
    ConfigureAt(t, d, 0x4E);
  }

  /**
   * `s2mu004_reset_fg`: load the battery data, run `WA_0_issue_at_init`
   * (which measures `vbat`) with the offset field as it stood, and restore
   * the data version in FG_ID.
   */
  method ResetFg(g: Fuelgauge, vbat: int) returns (r: Fuelgauge, c: Correction)
    requires Valid(g)
    ensures r == g.(regs := ResetRegs(g.regs, g.data))
    ensures Corrects(g.regs[0x4F], g.regs[0x4E], Interpolate(g.data.table.soc, g.data.table.ocv, g.soc) - vbat * 10, c)
  {
    var loaded := LoadBatteryData(g.regs, g.data);
    LoadKeepsOffset(g.regs, g.data);
    var b, atRestart;
    b, atRestart, c := SurgeAtInit(loaded, g.data.table, g.soc, vbat);
    var id := b[REG_FG_ID];
    b := Write(b, REG_FG_ID, (id & 0xF0) | g.data.dataVer);
    r := g.(regs := b);
  }
}
