/**
 * The input side of the dwc3 USB controller's debugfs files: the handlers
 * that copy a user's write into a small zero-filled kernel buffer and match
 * it against command names (`mode`, `testmode`, `link_state`), the handler
 * that selects the endpoint later dumps refer to (`ep_num`), and the filter
 * that decides which endpoints' events are logged.
 *
 * The controller operations the handlers end in (`dwc3_set_mode`,
 * `dwc3_gadget_set_test_mode`, `dwc3_gadget_set_link_state`) are outside
 * the model: each handler returns the value it would pass to them, or
 * `None` when it does not call them.
 */
module Dwc3Debugfs {
  import opened CArith
  import opened Optional
  import opened Errno

  const NUL: char := 0 as char

  /** What a debugfs write handler returns: the byte count it consumed, or a negated error code. */
  datatype WriteResult = Consumed(count: nat) | Failed(errno: nat)

  /** The size of the command buffer of the mode, test-mode and link-state handlers. */
  const COMMAND_BUF_SIZE := 32

  /** The size of the buffer `dwc3_store_ep_num` parses. */
  const EP_BUF_SIZE := 10

  /*
   * Copying user data in
   */

  /**
   * The kernel buffer after at most `size - 1` bytes of the user's data are
   * copied into a zero-filled array of `size` bytes: the data's leading
   * bytes, then NULs, so the buffer always ends in a NUL.
   */
  function CopyIn(data: string, size: nat): (buf: string)
    requires size >= 1
    ensures |buf| == size && buf[size - 1] == NUL
    ensures forall i :: 0 <= i < size - 1 && i < |data| ==> buf[i] == data[i]
    ensures forall i :: |data| <= i < size ==> buf[i] == NUL
  {
    var n := if |data| < size - 1 then |data| else size - 1;
    data[..n] + seq(size - n, _ => NUL)
  }

  /*
   * Matching command names
   */

  /** A C string literal: its characters and the terminating NUL. */
  function CString(lit: string): string {
    lit + [NUL]
  }

  /**
   * `strncmp(a, b, n) == 0`: the first `n` characters agree, or they agree
   * up to a NUL the two strings share, after which `strncmp` stops.
   */
  predicate StrnEqual(a: string, b: string, n: nat)
    decreases n
  {
    n == 0 ||
    (|a| > 0 && |b| > 0 && a[0] == b[0] && (a[0] == NUL || StrnEqual(a[1..], b[1..], n - 1)))
  }

  /** The test every handler applies to its buffer: `!strncmp(buf, lit, strlen(lit))`. */
  predicate StartsWith(buf: string, lit: string) {
    StrnEqual(buf, CString(lit), |lit|)
  }

  /** For a name without a NUL, the `strncmp` test is exactly the prefix test. */
  lemma {:induction false} StartsWithIsPrefix(buf: string, lit: string)
    requires NUL !in lit
    ensures StartsWith(buf, lit) <==> lit <= buf
    decreases |lit|
  {
    if lit != [] && |buf| > 0 {
      assert CString(lit)[1..] == CString(lit[1..]);
      assert lit[0] in lit;
      assert lit <= buf <==> buf[0] == lit[0] && lit[1..] <= buf[1..] by {
        if buf[0] == lit[0] && lit[1..] <= buf[1..] {
          assert lit == [lit[0]] + lit[1..];
          assert buf[..|lit|] == [buf[0]] + buf[1..][..|lit| - 1];
        }
        if lit <= buf {
          assert buf[1..][..|lit| - 1] == buf[..|lit|][1..];
        }
      }
      StartsWithIsPrefix(buf[1..], lit[1..]);
    }
  }

  /**
   * On a buffer filled by `CopyIn`, a name shorter than the buffer matches
   * exactly when the user's data begins with it: a short write leaves NULs
   * where the name's remaining characters would have to be.
   */
  lemma CopiedStartsWith(data: string, size: nat, lit: string)
    requires |lit| < size && NUL !in lit
    ensures StartsWith(CopyIn(data, size), lit) <==> lit <= data
  {
    var buf := CopyIn(data, size);
    StartsWithIsPrefix(buf, lit);
    if lit <= buf {
      forall i | 0 <= i < |lit|
        ensures i < |data| && data[i] == lit[i]
      {
        assert buf[i] == lit[i];
        assert lit[i] in lit;
      }
      if |lit| > 0 {
        var last := |lit| - 1;
        assert buf[last] == lit[last] && lit[last] in lit;
      }
      assert data[..|lit|] == lit;
    }
    if lit <= data {
      forall i | 0 <= i < |lit|
        ensures buf[i] == lit[i]
      {
        assert data[..|lit|][i] == data[i];
      }
      assert buf[..|lit|] == lit;
    }
  }

  /** Two names that differ at a position both reach cannot both begin the same input. */
  lemma Exclusive(p: string, q: string, k: nat, s: string)
    requires k < |p| && k < |q| && p[k] != q[k]
    ensures !(p <= s && q <= s)
  {
  }

  /** A handler's table: the names it accepts, each with the value it selects. */
  datatype Command = Command(name: string, code: int)

  /** Each name of a table fits the command buffer with room for its NUL, and holds no NUL itself. */
  predicate Fits(table: seq<Command>) {
    forall i :: 0 <= i < |table| ==> |table[i].name| < COMMAND_BUF_SIZE && NUL !in table[i].name
  }

  /** No two names of the table begin `data`. */
  predicate Disjoint(table: seq<Command>, data: string) {
    forall i, j :: 0 <= i < |table| && 0 <= j < |table| && i != j ==>
      !(table[i].name <= data && table[j].name <= data)
  }

  /**
   * An `if`/`else if` chain of `strncmp` tests over the buffer: the code of
   * the first name the buffer begins with, tried in table order, or `none`.
   */
  function FirstMatch(buf: string, table: seq<Command>, none: Option<int>): Option<int>
    decreases |table|
  {
    if table == [] then none
    else if StartsWith(buf, table[0].name) then Some(table[0].code)
    else FirstMatch(buf, table[1..], none)
  }

  /** `value` is what the table selects for `data`: the code of a name the data begins with, or `none` when it begins with none of them. */
  predicate Selects(table: seq<Command>, data: string, none: Option<int>, value: Option<int>) {
    (forall i :: 0 <= i < |table| && table[i].name <= data ==> value == Some(table[i].code)) &&
    ((forall i :: 0 <= i < |table| ==> !(table[i].name <= data)) ==> value == none)
  }

  /**
   * When no two names can begin the same input, the first match over the
   * copied buffer is the table's only match on the user's data: the order
   * of the tests does not matter.
   */
  lemma {:induction false} FirstMatchSelects(data: string, table: seq<Command>, none: Option<int>)
    requires Fits(table) && Disjoint(table, data)
    ensures Selects(table, data, none, FirstMatch(CopyIn(data, COMMAND_BUF_SIZE), table, none))
    decreases |table|
  {
    if table != [] {
      var rest := table[1..];
      assert forall i :: 0 <= i < |rest| ==> rest[i] == table[i + 1];
      FirstMatchSelects(data, rest, none);
      CopiedStartsWith(data, COMMAND_BUF_SIZE, table[0].name);
    }
  }

  /*
   * dwc3_mode_write
   */

  const PRTCAP_HOST: bv32 := 1
  const PRTCAP_DEVICE: bv32 := 2
  const PRTCAP_OTG: bv32 := 3

  /**
   * A write to the mode file: each name the buffer begins with ors its port
   * capability into the mode, and the mode is set only when it is not
   * zero.  The write always consumes the whole count unless the copy faults.
   * Result: the return value and the mode passed to `dwc3_set_mode`.  No two
   * of the names can begin the same input, so the or never mixes two
   * capabilities.
   */
  function ModeWrite(data: string, fault: bool): (r: (WriteResult, Option<bv32>))
    ensures fault ==> r == (Failed(EFAULT), None)
    ensures !fault ==> r.0 == Consumed(|data|)
    ensures !fault ==> (r.1.Some? <==> "host" <= data || "device" <= data || "otg" <= data)
    ensures !fault && "host" <= data ==> r.1 == Some(PRTCAP_HOST)
    ensures !fault && "device" <= data ==> r.1 == Some(PRTCAP_DEVICE)
    ensures !fault && "otg" <= data ==> r.1 == Some(PRTCAP_OTG)
  {
    if fault then (Failed(EFAULT), None)
    else
      var buf := CopyIn(data, COMMAND_BUF_SIZE);
      var mode: bv32 :=
        (if StartsWith(buf, "host") then PRTCAP_HOST else 0) |
        (if StartsWith(buf, "device") then PRTCAP_DEVICE else 0) |
        (if StartsWith(buf, "otg") then PRTCAP_OTG else 0);
      ModesMatch(data);
      (Consumed(|data|), if mode != 0 then Some(mode) else None)
  }

  /** The mode names are tested on the copied buffer as prefixes of the data, and at most one of them matches. */
  lemma ModesMatch(data: string)
    ensures StartsWith(CopyIn(data, COMMAND_BUF_SIZE), "host") <==> "host" <= data
    ensures StartsWith(CopyIn(data, COMMAND_BUF_SIZE), "device") <==> "device" <= data
    ensures StartsWith(CopyIn(data, COMMAND_BUF_SIZE), "otg") <==> "otg" <= data
    ensures !("host" <= data && "device" <= data)
    ensures !("host" <= data && "otg" <= data)
    ensures !("device" <= data && "otg" <= data)
  {
    CopiedStartsWith(data, COMMAND_BUF_SIZE, "host");
    CopiedStartsWith(data, COMMAND_BUF_SIZE, "device");
    CopiedStartsWith(data, COMMAND_BUF_SIZE, "otg");
    Exclusive("host", "device", 0, data);
    Exclusive("host", "otg", 0, data);
    Exclusive("device", "otg", 0, data);
  }

  /*
   * dwc3_testmode_write
   */

  /** The USB test modes the test-mode file accepts, in the order it tries them. */
  const TEST_MODES: seq<Command> := [
    Command("test_j", 1),
    Command("test_k", 2),
    Command("test_se0_nak", 3),
    Command("test_packet", 4),
    Command("test_force_enable", 5)]

  /**
   * A write to the test-mode file: the first name the buffer begins with,
   * tried in table order, selects its test mode; any other input selects 0
   * (no test).  The test mode is set on every write that does not fault.
   * Because no two names can begin the same input, the first match is the
   * only match and the order of the tests does not matter.
   */
  function TestmodeWrite(data: string, fault: bool): (r: (WriteResult, Option<int>))
    ensures fault ==> r == (Failed(EFAULT), None)
    ensures !fault ==> r.0 == Consumed(|data|) && r.1.Some?
    ensures !fault ==> Selects(TEST_MODES, data, Some(0), r.1)
  {
    if fault then (Failed(EFAULT), None)
    else
      var mode := FirstMatch(CopyIn(data, COMMAND_BUF_SIZE), TEST_MODES, Some(0));
      TestModesFit();
      TestModesDisjoint(data);
      FirstMatchSelects(data, TEST_MODES, Some(0));
      (Consumed(|data|), mode)
  }

  /** The test-mode names fit the buffer and hold no NUL. */
  lemma TestModesFit()
    ensures Fits(TEST_MODES)
  {
    assert NUL !in "test_j" && NUL !in "test_k" && NUL !in "test_se0_nak";
    assert NUL !in "test_packet" && NUL !in "test_force_enable";
    forall i | 0 <= i < |TEST_MODES|
      ensures |TEST_MODES[i].name| < COMMAND_BUF_SIZE && NUL !in TEST_MODES[i].name
    {
      assert i == 0 || i == 1 || i == 2 || i == 3 || i == 4;
    }
  }

  /** No two test-mode names begin the same input. */
  lemma TestModesDisjoint(data: string)
    ensures Disjoint(TEST_MODES, data)
  {
    // The names share "test_" and differ in the character after it.
    forall i | 0 <= i < |TEST_MODES|
      ensures |TEST_MODES[i].name| > 5 && TEST_MODES[i].name[5] == "jkspf"[i]
    {
      assert i == 0 || i == 1 || i == 2 || i == 3 || i == 4;
    }
    forall i, j | 0 <= i < |TEST_MODES| && 0 <= j < |TEST_MODES| && i != j
      ensures !(TEST_MODES[i].name <= data && TEST_MODES[j].name <= data)
    {
      Exclusive(TEST_MODES[i].name, TEST_MODES[j].name, 5, data);
    }
  }

  /*
   * dwc3_link_state_write
   */

  /** The link states the link-state file accepts, in the order it tries them. */
  const LINK_STATES: seq<Command> := [
    Command("SS.Disabled", 0x4),
    Command("Rx.Detect", 0x5),
    Command("SS.Inactive", 0x6),
    Command("Recovery", 0x8),
    Command("Compliance", 0xa),
    Command("Loopback", 0xb)]

  /**
   * A write to the link-state file: the first name the buffer begins with
   * selects its link state, which is then set; any other input is refused
   * with `-EINVAL` and sets nothing.
   */
  function LinkStateWrite(data: string, fault: bool): (r: (WriteResult, Option<int>))
    ensures fault ==> r == (Failed(EFAULT), None)
    ensures !fault ==> (r.0.Consumed? <==> r.1.Some?)
    ensures r.0.Consumed? ==> r.0.count == |data|
    ensures r.0.Failed? ==> r.0.errno in {EFAULT, EINVAL}
    ensures !fault ==> Selects(LINK_STATES, data, None, r.1)
  {
    if fault then (Failed(EFAULT), None)
    else
      var state := FirstMatch(CopyIn(data, COMMAND_BUF_SIZE), LINK_STATES, None);
      LinkStatesFit();
      LinkStatesDisjoint(data);
      FirstMatchSelects(data, LINK_STATES, None);
      if state.None? then (Failed(EINVAL), None) else (Consumed(|data|), state)
  }

  /** The link-state names fit the buffer and hold no NUL. */
  lemma LinkStatesFit()
    ensures Fits(LINK_STATES)
  {
    assert NUL !in "SS.Disabled" && NUL !in "Rx.Detect" && NUL !in "SS.Inactive";
    assert NUL !in "Recovery" && NUL !in "Compliance" && NUL !in "Loopback";
    forall i | 0 <= i < |LINK_STATES|
      ensures |LINK_STATES[i].name| < COMMAND_BUF_SIZE && NUL !in LINK_STATES[i].name
    {
      assert i == 0 || i == 1 || i == 2 || i == 3 || i == 4 || i == 5;
    }
  }

  /** No two link-state names begin the same input. */
  lemma LinkStatesDisjoint(data: string)
    ensures Disjoint(LINK_STATES, data)
  {
    // The names differ in their first or their fourth character.
    var first, fourth := "SRSRCL", "DDIopp";
    forall i | 0 <= i < |LINK_STATES|
      ensures |LINK_STATES[i].name| > 3 && LINK_STATES[i].name[0] == first[i] && LINK_STATES[i].name[3] == fourth[i]
    {
      assert i == 0 || i == 1 || i == 2 || i == 3 || i == 4 || i == 5;
    }
    forall i, j | 0 <= i < |LINK_STATES| && 0 <= j < |LINK_STATES| && i != j
      ensures !(LINK_STATES[i].name <= data && LINK_STATES[j].name <= data)
    {
      assert first[i] != first[j] || fourth[i] != fourth[j] by {
        assert i == 0 || i == 1 || i == 2 || i == 3 || i == 4 || i == 5;
        assert j == 0 || j == 1 || j == 2 || j == 3 || j == 4 || j == 5;
      }
      Exclusive(LINK_STATES[i].name, LINK_STATES[j].name, if first[i] != first[j] then 0 else 3, data);
    }
  }

  /** The link state is set exactly for a write that begins with one of the six names. */
  lemma LinkStateAcceptedIff(data: string)
    ensures LinkStateWrite(data, false).0.Consumed? <==>
      exists i :: 0 <= i < |LINK_STATES| && LINK_STATES[i].name <= data
  {
    var r := LinkStateWrite(data, false);
    if r.0.Failed? {
      forall i | 0 <= i < |LINK_STATES| ensures !(LINK_STATES[i].name <= data) {
        assert Selects(LINK_STATES, data, None, r.1);
      }
    }
  }

  /*
   * dwc3_store_ep_num
   */

  /** The number of endpoint slots the controller has. */
  const DWC3_ENDPOINTS_NUM := 32

  /**
   * What `sscanf(kbuf, "%u %u", &num, &dir)` made of the copied buffer: how
   * many fields it converted, and the two unsigned values.
   */
  datatype Scan = Scan(converted: int, num: U32, dir: U32)

  /**
   * A write to the endpoint-number file.  Two unsigned numbers must be
   * parsed, the direction must be 0 or 1, and the index `(num << 1) + dir`
   * (32-bit unsigned arithmetic, so it wraps) must be below both the
   * controller's endpoint count (`numInEps + numOutEps`, two 8-bit
   * counts) and the number of endpoint slots.  Only then is the remembered
   * endpoint `epNum` replaced.  Result: the return value and the new
   * remembered endpoint.
   */
  function StoreEpNum(epNum: int, numInEps: bv8, numOutEps: bv8, count: nat, fault: bool, scan: Scan): (r: (WriteResult, int))
    ensures r.0.Failed? ==> r.1 == epNum && r.0.errno == (if fault then EFAULT else EINVAL)
    ensures r.0.Consumed? ==> r.0.count == count && !fault && scan.converted == 2 && scan.dir <= 1
    ensures r.0.Consumed? ==> 0 <= r.1 < DWC3_ENDPOINTS_NUM && r.1 < numInEps as int + numOutEps as int
  {
    if fault then (Failed(EFAULT), epNum)
    else if scan.converted != 2 then (Failed(EINVAL), epNum)
    else if scan.dir != 0 && scan.dir != 1 then (Failed(EINVAL), epNum)
    else
      var temp := (scan.num * 2 + scan.dir) % 0x1_0000_0000;
      if temp >= numInEps as int + numOutEps as int || temp >= DWC3_ENDPOINTS_NUM then
        (Failed(EINVAL), epNum)
      else
        (Consumed(count), temp)
  }

  /**
   * For every `num` below 2^31 the index cannot wrap, and the write is an
   * exact endpoint selection: it is accepted precisely when endpoint
   * `2 * num + dir` exists, and the remembered index decodes back to the
   * `num` and `dir` written.  The nine bytes the handler copies hold at most
   * a seven-digit number, so every write reaching it is in this range.
   */
  lemma StoreEpNumSelects(epNum: int, numInEps: bv8, numOutEps: bv8, count: nat, fault: bool, scan: Scan)
    requires scan.num < 0x8000_0000
    ensures var r := StoreEpNum(epNum, numInEps, numOutEps, count, fault, scan);
      (r.0.Consumed? <==>
        !fault && scan.converted == 2 && scan.dir <= 1 &&
        2 * scan.num + scan.dir < numInEps as int + numOutEps as int &&
        2 * scan.num + scan.dir < DWC3_ENDPOINTS_NUM) &&
      (r.0.Consumed? ==> r.1 / 2 == scan.num && r.1 % 2 == scan.dir)
  {
  }

  /**
   * The bound on `num` matters: were "2147483648 1" to reach the check on a
   * controller with two endpoints, the wrapped index 1 would pass it.
   */
  lemma StoreEpNumWrapsPastBound()
    ensures StoreEpNum(0, 1, 1, 12, false, Scan(2, 0x8000_0000, 1)) == (Consumed(12), 1)
  {
  }

  /*
   * allow_dbg_print
   */

  /** Bit `n` of a 32-bit mask; positions past bit 31 read as clear. */
  predicate MaskHas(mask: bv32, n: bv32) {
    n < 32 && (mask >> n) & 1 == 1
  }

  /** Both debug masks start out selecting only endpoint 0 of each direction. */
  const DEFAULT_DBG_MASK: bv32 := 1

  /**
   * `1 << n` and-ed with a mask is non-zero.  A shift by 32 or more is
   * undefined in C; such positions are taken as not selected.
   */
  predicate Selected(mask: bv32, n: bv32) {
    n < 32 && (1 << n) & mask != 0
  }

  /** The shifted-one test and the bit test agree. */
  lemma SelectedIsBit(mask: bv32, n: bv32)
    ensures Selected(mask, n) <==> MaskHas(mask, n)
  {
  }

  /**
   * Whether events of endpoint `ep` are logged: bus-wide events (0xFF)
   * always are; otherwise `1 << (ep >> 1)` is tested against the TX mask
   * for an odd (IN) endpoint and against the RX mask for an even (OUT) one.
   */
  function AllowDbgPrint(ep: bv8, txMask: bv32, rxMask: bv32): (allow: bool)
    ensures ep == 0xFF ==> allow
  {
    if ep == 0xFF then true
    else
      var dir := ep & 1;
      var n := (ep >> 1) as bv32;
      (dir != 0 && Selected(txMask, n)) || (dir == 0 && Selected(rxMask, n))
  }

  /** An odd endpoint is logged exactly when its number's bit is set in the TX mask. */
  lemma AllowDbgPrintTx(ep: bv8, txMask: bv32, rxMask: bv32)
    requires ep != 0xFF && ep & 1 == 1
    ensures AllowDbgPrint(ep, txMask, rxMask) <==> MaskHas(txMask, (ep >> 1) as bv32)
  {
    SelectedIsBit(txMask, (ep >> 1) as bv32);
  }

  /** An even endpoint is logged exactly when its number's bit is set in the RX mask. */
  lemma AllowDbgPrintRx(ep: bv8, txMask: bv32, rxMask: bv32)
    requires ep != 0xFF && ep & 1 == 0
    ensures AllowDbgPrint(ep, txMask, rxMask) <==> MaskHas(rxMask, (ep >> 1) as bv32)
  {
    SelectedIsBit(rxMask, (ep >> 1) as bv32);
  }

  /** With the default masks only endpoints 0 and 1, and bus-wide events, are logged. */
  lemma DefaultMasksLogEndpointZero(ep: bv8)
    ensures AllowDbgPrint(ep, DEFAULT_DBG_MASK, DEFAULT_DBG_MASK) <==> ep == 0xFF || ep <= 1
  {
    if ep != 0xFF {
      if ep & 1 == 1 {
        AllowDbgPrintTx(ep, DEFAULT_DBG_MASK, DEFAULT_DBG_MASK);
      } else {
        AllowDbgPrintRx(ep, DEFAULT_DBG_MASK, DEFAULT_DBG_MASK);
      }
    }
  }
}
