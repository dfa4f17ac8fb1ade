/**
 * The S2MU004 fuel gauge seen as a register file of 256 byte registers.
 * Reads and writes of the I2C transport always succeed here (see
 * `README.md`); registers the hardware updates by itself (voltage, current,
 * SOC) are never read from this file but supplied as measurements.
 */
module Registers {

  /** A register address of the 8-bit register map. */
  type Addr = a: int | 0 <= a < 256

  /** The register file: one byte per address. */
  type Regs = r: seq<bv8> | |r| == 256 witness seq(256, _ => 0)

  // Addresses named in the driver's header (the header is not part of this
  // model); every proof relies only on their being distinct from the fixed
  // addresses the routines use.
  const REG_IRQ: Addr := 0x02
  const REG_RVBAT: Addr := 0x04
  const REG_RCUR_CC: Addr := 0x06
  const REG_RSOC: Addr := 0x08
  const REG_MONOUT: Addr := 0x0A
  const REG_MONOUT_SEL: Addr := 0x0C
  const REG_IRQ_LVL: Addr := 0x1A
  const REG_FG_ID: Addr := 0x48

  /** `s2mu004_write_reg_byte`: the register takes the value. */
  function Write(r: Regs, a: Addr, v: bv8): (w: Regs)
    ensures w[a] == v
    ensures forall b: Addr {:trigger w[b]} :: b != a ==> w[b] == r[b]
  {
    r[a := v]
  }

  /** `s2mu004_write_reg` with SINGLE_BYTE: two byte writes, `reg` then `reg+1`. */
  function WritePair(r: Regs, a: Addr, lo: bv8, hi: bv8): (w: Regs)
    requires a < 255
    ensures w[a] == lo && w[a + 1] == hi
    ensures forall b: Addr {:trigger w[b]} :: b != a && b != a + 1 ==> w[b] == r[b]
  {
    Write(Write(r, a, lo), a + 1, hi)
  }

  /**
   * A run of byte writes to consecutive addresses starting at `base`, one
   * per element of `data`, as the calibration-table loops do.
   */
  function WriteBlock(r: Regs, base: nat, data: seq<bv8>): (w: Regs)
    requires base + |data| <= 256
    ensures forall i :: 0 <= i < |data| ==> w[base + i] == data[i]
    ensures forall a: Addr :: (a < base || base + |data| <= a) ==> w[a] == r[a]
    decreases |data|
  {
    if |data| == 0 then r
    else
      var w := WriteBlock(Write(r, base, data[0]), base + 1, data[1..]);
      assert forall i :: 1 <= i < |data| ==> data[1..][i - 1] == data[i];
      w
  }

  /** The registers of `x` and `y` agree everywhere except possibly at the addresses in `except`. */
  ghost predicate SameExcept(x: Regs, y: Regs, except: set<Addr>) {
    forall a: Addr :: a !in except ==> x[a] == y[a]
  }
}
