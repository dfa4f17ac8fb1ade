/**
 * The multi-charger arbiter (`sec_multi_charger.c`): a main and a sub
 * charger share the input and fast-charging current the battery driver
 * asks for.  The arbiter decides whether the sub charger runs, splits the
 * currents, and pushes the new limits to the chargers, lowering before
 * raising.  Property reads from other power supplies arrive in `Props`;
 * property writes to the two chargers are emitted as a command log.
 */
module MultiCharger {
  import opened CArith
  import opened PowerSupply

  /** `SEC_MULTI_CHARGER_*`: arbitration, or a fixed test mode. */
  datatype MultiMode = MultiNormal | MainOnly | SubOnly | AllEnable

  /** Which input feeds the main charger. */
  datatype ChargePath = Chgin | Wcin

  /**
   * Cable types, as far as the arbiter tells them apart: none, the three
   * that carry no charge (none, OTG, power sharing), the pogo wireless
   * input, and every other charging cable by its number.
   */
  datatype Cable = NoCable | OtgCable | PowerSharingCable | PogoWcinCable | OtherCable(id: nat)

  /** `is_nocharge_type`: the cables that bring no charging current. */
  function NoCharge(c: Cable): (b: bool)
    ensures c.PogoWcinCable? || c.OtherCable? ==> !b
    ensures c.NoCable? ==> b
  {
    c.NoCable? || c.OtgCable? || c.PowerSharingCable?
  }

  /** `POWER_SUPPLY_STATUS_*`. */
  datatype Status = StatusUnknown | StatusCharging | StatusDischarging | StatusNotCharging | StatusFull

  /** An input current limit and a fast-charging current, in mA. */
  datatype Currents = Currents(input: int, fast: int)

  /** `SEC_INPUT_VOLTAGE_5V`: the sub charger's input voltage, in V. */
  const INPUT_VOLTAGE_5V := 5

  /**
   * The bits of `sub_charger_condition`: the seven the arbiter tests, and
   * whether any other bit is set (which only makes the condition non-zero).
   */
  datatype SubCondition = SubCondition(
    chargePower: bool, currentMax: bool, online: bool, chargeDone: bool,
    cv: bool, currentNow: bool, chargeType: bool, otherBits: bool)

  /** `sub_charger_condition != 0`. */
  predicate AnyCondition(s: SubCondition) {
    s.chargePower || s.currentMax || s.online || s.chargeDone || s.cv || s.currentNow || s.chargeType || s.otherBits
  }

  /**
   * Platform settings.  `mainOtgOff` is the OTG_OFF bit of
   * `main_charger_condition`, the only bit the arbiter tests.
   */
  datatype Config = Config(
    isSerial: bool,
    isAutoCurrent: bool,
    isMultiPort: bool,
    mainOtgOff: bool,
    maxMainWcinInput: int,
    maxSubInput: int,
    maxTotalCharging: int,
    sub: SubCondition,
    subChargePower: int,
    subCurrentMax: int,
    subOnline: seq<Cable>,
    subCurrentMargin: int)

  /** Properties the arbiter reads from the OTG, pogo, battery and charger supplies. */
  datatype Props = Props(
    otgOnline: bool,
    wireChargingCurrent: int,
    wireChargingPower: int,
    powerNow: int,
    batteryStatus: Status,
    mainCv: int,
    currentNow: int,
    pogoOnline: bool,
    subMultiStatus: Status)

  /**
   * The arbiter's state: the requested totals, the per-charger split, and
   * the limits last sent to each charger (`main_input_current` and so on).
   */
  datatype Charger = Charger(
    multiMode: MultiMode,
    cable: Cable,
    mainPath: ChargePath,
    status: Status,
    chgMode: ChgMode,
    subIsCharging: bool,
    total: Currents,
    main: Currents,
    sub: Currents,
    mainInput: int,
    mainCharging: int,
    subInput: int,
    subCharging: int,
    fullCheckCurrent: int)

  datatype Side = Main | Sub

  /** A property write to one of the chargers. */
  datatype Cmd =
    | CurrentMax(side: Side, value: int)
    | CurrentNow(side: Side, value: int)
    | ChargingEnabled(side: Side, mode: ChgMode)
    | Online(side: Side, cable: Cable)

  // ---------------------------------------------------------------------
  // Splitting the currents

  /** `sec_multi_chg_check_main_charging`: the main charger may run unless OTG is online and configured to stop it. */
  function MainAllowed(cfg: Config, props: Props): (b: bool)
    ensures !cfg.mainOtgOff ==> b
    ensures !props.otgOnline ==> b
    ensures cfg.mainOtgOff && props.otgOnline ==> !b
  {
    !(cfg.mainOtgOff && props.otgOnline)
  }

  /** The main charger's share of the input on the WCIN path. */
  function WcinMainInput(c: Charger, cfg: Config, props: Props): (m: int)
    ensures MainAllowed(cfg, props) ==> m <= c.total.input && m <= cfg.maxMainWcinInput
    ensures MainAllowed(cfg, props) ==> m == c.total.input || m == cfg.maxMainWcinInput
    ensures !MainAllowed(cfg, props) ==> m == 0
  {
    if !MainAllowed(cfg, props) then 0
    else if c.total.input > cfg.maxMainWcinInput then cfg.maxMainWcinInput
    else c.total.input
  }

  /** The sub charger's input on the WCIN path: what is left of its maximum, or all of it. */
  function WcinSubInput(cfg: Config, mainInput: int): (s: int)
    ensures cfg.maxSubInput > mainInput ==> mainInput + s == cfg.maxSubInput
    ensures cfg.maxSubInput <= mainInput ==> s == cfg.maxSubInput
  {
    if cfg.maxSubInput > mainInput then cfg.maxSubInput - mainInput else cfg.maxSubInput
  }

  /** The WCIN split divides by the sum of the two inputs; the source assumes it is not zero. */
  predicate SplitDefined(c: Charger, cfg: Config, props: Props) {
    var m := WcinMainInput(c, cfg, props);
    c.multiMode == MultiNormal && c.cable != NoCable && c.mainPath == Wcin ==> m + WcinSubInput(cfg, m) != 0
  }

  /**
   * The WCIN split: the inputs as above, and the fast-charging current
   * divided in proportion to them (truncating), the sub charger taking the
   * remainder, so the two always add up to the total.
   */
  function WcinSplit(c: Charger, cfg: Config, props: Props): (r: (Currents, Currents))
    requires WcinMainInput(c, cfg, props) + WcinSubInput(cfg, WcinMainInput(c, cfg, props)) != 0
    ensures r.0.input == WcinMainInput(c, cfg, props) && r.1.input == WcinSubInput(cfg, r.0.input)
    ensures r.0.fast + r.1.fast == c.total.fast
    ensures Abs(r.0.fast) * Abs(r.0.input + r.1.input) <= Abs(c.total.fast * r.0.input)
              < (Abs(r.0.fast) + 1) * Abs(r.0.input + r.1.input)
  {
    var m := WcinMainInput(c, cfg, props);
    var s := WcinSubInput(cfg, m);
    var mainFast := Div(c.total.fast * m, m + s);
    (Currents(m, mainFast), Currents(s, c.total.fast - mainFast))
  }

  /** On the CHGIN path the main charger charges with half the maximum only when the wired power covers the sub charger's. */
  function ChginMainFast(cfg: Config, props: Props): (f: int)
    ensures props.wireChargingPower >= cfg.maxSubInput * INPUT_VOLTAGE_5V ==> f == Div(cfg.maxTotalCharging, 2)
    ensures props.wireChargingPower < cfg.maxSubInput * INPUT_VOLTAGE_5V ==> f == props.wireChargingCurrent
  {
    if props.wireChargingPower >= cfg.maxSubInput * INPUT_VOLTAGE_5V then Div(cfg.maxTotalCharging, 2)
    else props.wireChargingCurrent
  }

  /**
   * `sec_multi_chg_check_sub_charge_current`: outside a test mode and with a
   * cable present, split the currents for the active path.  On CHGIN the
   * main charger's input limit is left as it was.
   */
  function CheckSubChargeCurrent(c: Charger, cfg: Config, props: Props): (r: Charger)
    requires SplitDefined(c, cfg, props)
    ensures c.multiMode != MultiNormal || c.cable == NoCable ==> r == c
    ensures c.multiMode == MultiNormal && c.cable != NoCable && c.mainPath == Wcin ==>
      r == c.(main := WcinSplit(c, cfg, props).0, sub := WcinSplit(c, cfg, props).1)
    ensures c.multiMode == MultiNormal && c.cable != NoCable && c.mainPath == Chgin ==>
      r == c.(main := Currents(c.main.input, ChginMainFast(cfg, props)),
              sub := Currents(cfg.maxSubInput, Div(cfg.maxTotalCharging, 2)))
  {
    if c.multiMode != MultiNormal || c.cable == NoCable then c
    else if c.mainPath == Wcin then
      var split := WcinSplit(c, cfg, props);
      c.(main := split.0, sub := split.1)
    else
      c.(main := Currents(c.main.input, ChginMainFast(cfg, props)),
         sub := Currents(cfg.maxSubInput, Div(cfg.maxTotalCharging, 2)))
  }

  /** The split only ever changes the per-charger currents. */
  lemma CheckSubChargeCurrentFrame(c: Charger, cfg: Config, props: Props)
    requires SplitDefined(c, cfg, props)
    ensures var r := CheckSubChargeCurrent(c, cfg, props);
      r == c.(main := r.main, sub := r.sub) &&
      (c.multiMode == MultiNormal && c.cable != NoCable && c.mainPath == Wcin ==> r.main.fast + r.sub.fast == c.total.fast)
  {
  }

  // ---------------------------------------------------------------------
  // Whether the sub charger runs

  /**
   * The CURRENT_NOW threshold: the sub charger's fast current if it runs,
   * half the total if not, plus the first full-check current and the margin.
   */
  function MaxCurrentNow(c: Charger, cfg: Config): int {
    (if c.subIsCharging then c.sub.fast else Div(c.total.fast, 2)) + c.fullCheckCurrent + cfg.subCurrentMargin
  }

  /**
   * The CURRENT_NOW test with its hysteresis band: below the threshold the
   * sub charger is off; within one margin above it a running sub charger
   * stays on and a stopped one stays off.
   */
  predicate CurrentNowPasses(c: Charger, cfg: Config, props: Props) {
    var m := MaxCurrentNow(c, cfg);
    props.currentNow >= m && (c.subIsCharging || props.currentNow >= m + cfg.subCurrentMargin)
  }

  /**
   * Reference definition: the sub charger may run when some condition is
   * configured and every configured condition passes.
   */
  predicate SubConditionsHold(c: Charger, cfg: Config, props: Props) {
    AnyCondition(cfg.sub) &&
    (cfg.sub.chargePower ==> props.powerNow >= cfg.subChargePower) &&
    (cfg.sub.currentMax ==> c.total.input >= cfg.subCurrentMax) &&
    (cfg.sub.online ==> c.cable in cfg.subOnline) &&
    (cfg.sub.chargeDone && c.subIsCharging ==> props.batteryStatus != StatusFull) &&
    (cfg.sub.cv ==> props.mainCv == 0) &&
    (cfg.sub.currentNow ==> CurrentNowPasses(c, cfg, props)) &&
    (cfg.sub.chargeType ==> props.pogoOnline)
  }

  /** The ONLINE condition's scan of the configured cable list: the first index holding `cable`, or the list's length. */
  method FindCable(list: seq<Cable>, cable: Cable) returns (i: nat)
    ensures i <= |list|
    ensures i < |list| ==> list[i] == cable
    ensures forall k :: 0 <= k < i ==> list[k] != cable
    ensures i == |list| <==> cable !in list
  {
    i := 0;
    while i < |list|
      invariant i <= |list|
      invariant forall k :: 0 <= k < i ==> list[k] != cable
    {
      if list[i] == cable {
        return;
      }
      i := i + 1;
    }
  }

  /**
   * `sec_multi_chg_check_sub_charging`: the conditions in the source's
   * order, each able to say no; when all pass and CHARGE_TYPE is
   * configured, the currents are split again.
   */
  method CheckSubCharging(c: Charger, cfg: Config, props: Props) returns (r: Charger, on: bool)
    requires cfg.sub.chargeType ==> SplitDefined(c, cfg, props)
    ensures on <==> SubConditionsHold(c, cfg, props)
    ensures r == if on && cfg.sub.chargeType then CheckSubChargeCurrent(c, cfg, props) else c
  {
    r := c;
    if !AnyCondition(cfg.sub) {
      return r, false;
    }
    if cfg.sub.chargePower && props.powerNow < cfg.subChargePower {
      return r, false;
    }
    if cfg.sub.currentMax && c.total.input < cfg.subCurrentMax {
      return r, false;
    }
    if cfg.sub.online {
      var i := FindCable(cfg.subOnline, c.cable);
      if i >= |cfg.subOnline| {
        return r, false;
      }
    }
    if cfg.sub.chargeDone && c.subIsCharging && props.batteryStatus == StatusFull {
      return r, false;
    }
    if cfg.sub.cv && props.mainCv != 0 {
      return r, false;
    }
    if cfg.sub.currentNow {
      var m := MaxCurrentNow(c, cfg);
      if props.currentNow < m {
        return r, false;
      } else if props.currentNow < m + cfg.subCurrentMargin && !c.subIsCharging {
        return r, false;
      }
    }
    if cfg.sub.chargeType {
      if !props.pogoOnline {
        return r, false;
      }
      r := CheckSubChargeCurrent(c, cfg, props);
    }
    on := true;
  }

  /**
   * The hysteresis of the CURRENT_NOW condition: a battery current below
   * the threshold stops the sub charger, and a stopped sub charger needs a
   * full margin above the threshold to start.
   */
  lemma CurrentNowHysteresis(c: Charger, cfg: Config, props: Props)
    requires cfg.sub.currentNow
    ensures props.currentNow < MaxCurrentNow(c, cfg) ==> !SubConditionsHold(c, cfg, props)
    ensures !c.subIsCharging && props.currentNow < MaxCurrentNow(c, cfg) + cfg.subCurrentMargin ==>
      !SubConditionsHold(c, cfg, props)
    ensures c.subIsCharging && MaxCurrentNow(c, cfg) <= props.currentNow ==> CurrentNowPasses(c, cfg, props)
  {
  }

  // ---------------------------------------------------------------------
  // Pushing the limits to the chargers

  /**
   * The limits the setters aim for: everything on the main charger when
   * the chargers are in series or the sub charger is off; otherwise halves
   * of the total with automatic current, or the split as computed.
   */
  function Targets(cfg: Config, subIsCharging: bool, total: int, main: int, sub: int): (t: (int, int))
    ensures cfg.isSerial || !subIsCharging ==> t == (total, 0)
    ensures !cfg.isSerial && subIsCharging && cfg.isAutoCurrent ==> t.0 == t.1 == Div(total, 2)
    ensures !cfg.isSerial && subIsCharging && !cfg.isAutoCurrent ==> t == (main, sub)
  {
    if !cfg.isSerial && subIsCharging then
      if cfg.isAutoCurrent then (Div(total, 2), Div(total, 2)) else (main, sub)
    else (total, 0)
  }

  function InputTargets(c: Charger, cfg: Config): (int, int) {
    Targets(cfg, c.subIsCharging, c.total.input, c.main.input, c.sub.input)
  }

  function ChargingTargets(c: Charger, cfg: Config): (int, int) {
    Targets(cfg, c.subIsCharging, c.total.fast, c.main.fast, c.sub.fast)
  }

  /** An input-limit write that lowers, or raises, a charger's cached limit. */
  predicate Lowers(c: Charger, cmd: Cmd) {
    cmd.CurrentMax? && cmd.value < (if cmd.side == Main then c.mainInput else c.subInput)
  }

  predicate Raises(c: Charger, cmd: Cmd) {
    cmd.CurrentMax? && cmd.value > (if cmd.side == Main then c.mainInput else c.subInput)
  }

  /** The main charger's input-limit writes when it is lowered: the limit, then BUCK_OFF if it reached 0. */
  function MainDown(c: Charger, target: int): seq<Cmd> {
    if c.mainInput > target then
      [CurrentMax(Main, target)] + (if target == 0 then [ChargingEnabled(Main, BuckOff)] else [])
    else []
  }

  /** The main charger's writes when it is raised: the limit, then the charging mode again if it was at 0. */
  function MainUp(c: Charger, target: int): seq<Cmd> {
    if c.mainInput < target then
      [CurrentMax(Main, target)] + (if c.mainInput == 0 && target > 0 then [ChargingEnabled(Main, c.chgMode)] else [])
    else []
  }

  /** The sub charger's write when its limit moves down (`down`) or up (`!down`). */
  function SubMove(c: Charger, target: int, down: bool): seq<Cmd> {
    if (if down then c.subInput > target else c.subInput < target) then [CurrentMax(Sub, target)] else []
  }

  /** The writes that lower limits, followed by those that raise them. */
  function InputCommands(c: Charger, mainTarget: int, subTarget: int): seq<Cmd> {
    (MainDown(c, mainTarget) + SubMove(c, subTarget, true)) + (MainUp(c, mainTarget) + SubMove(c, subTarget, false))
  }

  /**
   * `sec_multi_chg_set_input_current`: lower the main and then the sub
   * charger's limit, then raise them; each cached limit ends at its target
   * and a limit is written only when it changes.
   */
  method SetInputCurrent(c: Charger, cfg: Config) returns (r: Charger, cmds: seq<Cmd>)
    ensures r == c.(mainInput := InputTargets(c, cfg).0, subInput := InputTargets(c, cfg).1)
    ensures cmds == InputCommands(c, r.mainInput, r.subInput)
  {
    var (mainTarget, subTarget) := InputTargets(c, cfg);
    var mainNow, subNow := c.mainInput, c.subInput;
    var down, up := [], [];
    if mainNow > mainTarget {
      down := down + [CurrentMax(Main, mainTarget)];
      if mainTarget == 0 {
        down := down + [ChargingEnabled(Main, BuckOff)];
      }
      mainNow := mainTarget;
    }
    assert down == MainDown(c, mainTarget);
    if subNow > subTarget {
      subNow := subTarget;
      down := down + [CurrentMax(Sub, subTarget)];
    }
    assert down == MainDown(c, mainTarget) + SubMove(c, subTarget, true);
    if mainNow != mainTarget {
      up := up + [CurrentMax(Main, mainTarget)];
      if mainNow == 0 && mainTarget > 0 {
        up := up + [ChargingEnabled(Main, c.chgMode)];
      }
      mainNow := mainTarget;
    }
    assert up == MainUp(c, mainTarget);
    if subNow != subTarget {
      subNow := subTarget;
      up := up + [CurrentMax(Sub, subTarget)];
    }
    r := c.(mainInput := mainNow, subInput := subNow);
    cmds := down + up;
  }

  lemma DownNeverRaises(c: Charger, mainTarget: int, subTarget: int)
    ensures forall k :: 0 <= k < |MainDown(c, mainTarget) + SubMove(c, subTarget, true)| ==>
      !Raises(c, (MainDown(c, mainTarget) + SubMove(c, subTarget, true))[k])
  {
  }

  lemma UpNeverLowers(c: Charger, mainTarget: int, subTarget: int)
    ensures forall k :: 0 <= k < |MainUp(c, mainTarget) + SubMove(c, subTarget, false)| ==>
      !Lowers(c, (MainUp(c, mainTarget) + SubMove(c, subTarget, false))[k])
  {
  }

  /** No write that lowers a limit follows one that raises a limit. */
  lemma LowerBeforeRaise(c: Charger, mainTarget: int, subTarget: int)
    ensures var cmds := InputCommands(c, mainTarget, subTarget);
      forall i, j :: 0 <= i < j < |cmds| && Raises(c, cmds[i]) ==> !Lowers(c, cmds[j])
  {
    var down := MainDown(c, mainTarget) + SubMove(c, subTarget, true);
    var up := MainUp(c, mainTarget) + SubMove(c, subTarget, false);
    var cmds := InputCommands(c, mainTarget, subTarget);
    DownNeverRaises(c, mainTarget, subTarget);
    UpNeverLowers(c, mainTarget, subTarget);
    forall i, j | 0 <= i < j < |cmds| && Raises(c, cmds[i])
      ensures !Lowers(c, cmds[j])
    {
      assert cmds[j] == up[j - |down|];
    }
  }

  /**
   * Each charger's limit is written at most to its target and only when
   * it changes; BUCK_OFF goes out exactly when the main limit drops to 0,
   * and the charging mode is re-sent when it rises from 0.
   */
  lemma InputWrites(c: Charger, mainTarget: int, subTarget: int)
    ensures var cmds := InputCommands(c, mainTarget, subTarget);
      (forall i :: 0 <= i < |cmds| && cmds[i].CurrentMax? ==>
        cmds[i].value == (if cmds[i].side == Main then mainTarget else subTarget)) &&
      (CurrentMax(Main, mainTarget) in cmds <==> c.mainInput != mainTarget) &&
      (CurrentMax(Sub, subTarget) in cmds <==> c.subInput != subTarget) &&
      (c.mainInput == mainTarget && c.subInput == subTarget ==> cmds == []) &&
      (c.mainInput > 0 && mainTarget == 0 ==> ChargingEnabled(Main, BuckOff) in cmds) &&
      (c.mainInput == 0 && mainTarget > 0 ==> ChargingEnabled(Main, c.chgMode) in cmds)
  {
  }

  /**
   * `sec_multi_chg_set_charging_current`: write each charger's fast
   * current when it differs from the cached one; both caches end at their
   * targets.
   */
  method SetChargingCurrent(c: Charger, cfg: Config) returns (r: Charger, cmds: seq<Cmd>)
    ensures r == c.(mainCharging := ChargingTargets(c, cfg).0, subCharging := ChargingTargets(c, cfg).1)
    ensures CurrentNow(Main, r.mainCharging) in cmds <==> c.mainCharging != r.mainCharging
    ensures CurrentNow(Sub, r.subCharging) in cmds <==> c.subCharging != r.subCharging
    ensures forall i :: 0 <= i < |cmds| ==>
      cmds[i] == CurrentNow(Main, r.mainCharging) || cmds[i] == CurrentNow(Sub, r.subCharging)
    ensures |cmds| <= 2
  {
    var (mainTarget, subTarget) := ChargingTargets(c, cfg);
    r := c;
    cmds := [];
    if r.mainCharging != mainTarget {
      r := r.(mainCharging := mainTarget);
      cmds := cmds + [CurrentNow(Main, mainTarget)];
    }
    if r.subCharging != subTarget {
      r := r.(subCharging := subTarget);
      cmds := cmds + [CurrentNow(Sub, subTarget)];
    }
  }

  /** `sec_multi_chg_check_abnormal_case`: the sub charger should run but reports it is not charging. */
  predicate Abnormal(c: Charger, props: Props) {
    props.subMultiStatus != StatusCharging && c.subIsCharging
  }

  /** The mode written to the sub charger for a running or stopped state. */
  function SubMode(on: bool): ChgMode {
    if on then Charging else ChargingOff
  }

  /**
   * `sec_multi_chg_check_input_current`: with the sub charger running on a
   * charging cable, re-test the power and input-limit conditions; if one
   * fails, or the sub charger is abnormal, write its state and the fast
   * currents again.
   */
  method CheckInputCurrent(c: Charger, cfg: Config, props: Props) returns (r: Charger, cmds: seq<Cmd>)
    ensures !c.subIsCharging || NoCharge(c.cable) ==> r == c && cmds == []
    ensures r.subIsCharging ==> c.subIsCharging
    ensures c.subIsCharging && !NoCharge(c.cable) ==>
      (r.subIsCharging <==>
        !(cfg.sub.chargePower && props.powerNow < cfg.subChargePower) &&
        !(cfg.sub.currentMax && c.total.input < cfg.subCurrentMax))
    ensures r.subIsCharging != c.subIsCharging ==> |cmds| >= 1 && cmds[0] == ChargingEnabled(Sub, ChargingOff)
    ensures r == c.(subIsCharging := r.subIsCharging, mainCharging := r.mainCharging, subCharging := r.subCharging)
  {
    r, cmds := c, [];
    if !c.subIsCharging || NoCharge(c.cable) {
      return;
    }
    var on := true;
    if cfg.sub.chargePower && props.powerNow < cfg.subChargePower {
      on := false;
    }
    if cfg.sub.currentMax && c.total.input < cfg.subCurrentMax {
      on := false;
    }
    if !on || Abnormal(c, props) {
      r := c.(subIsCharging := on);
      var more;
      r, more := SetChargingCurrent(r, cfg);
      cmds := [ChargingEnabled(Sub, SubMode(on))] + more;
    }
  }

  /** Charging is under way on a cable, in normal arbitration: the only state in which `check_enable` acts. */
  predicate EnableApplies(c: Charger) {
    c.cable != NoCable && c.status != StatusDischarging && c.chgMode == Charging && c.multiMode == MultiNormal
  }

  /**
   * `sec_multi_chg_check_enable`: decide whether the sub charger runs, push
   * both limits, then tell the sub charger if its state changed, or stop it
   * if it runs abnormally.
   */
  method CheckEnable(c: Charger, cfg: Config, props: Props) returns (r: Charger, cmds: seq<Cmd>)
    requires cfg.sub.chargeType ==> SplitDefined(c, cfg, props)
    ensures !EnableApplies(c) ==> r == c && cmds == []
    ensures EnableApplies(c) && SubConditionsHold(c, cfg, props) != c.subIsCharging ==>
      r.subIsCharging == SubConditionsHold(c, cfg, props) &&
      |cmds| >= 1 && cmds[|cmds| - 1] == ChargingEnabled(Sub, SubMode(r.subIsCharging))
    ensures EnableApplies(c) && c.subIsCharging && SubConditionsHold(c, cfg, props) && Abnormal(c, props) ==>
      !r.subIsCharging && |cmds| >= 1 && cmds[|cmds| - 1] == ChargingEnabled(Sub, ChargingOff)
    ensures EnableApplies(c) && r.subIsCharging ==> SubConditionsHold(c, cfg, props)
    ensures EnableApplies(c) && c.subIsCharging && SubConditionsHold(c, cfg, props) && !Abnormal(c, props) ==>
      r.subIsCharging
    ensures EnableApplies(c) ==>
      var decided := r.(subIsCharging := SubConditionsHold(c, cfg, props));
      (r.mainInput, r.subInput) == InputTargets(decided, cfg) &&
      (r.mainCharging, r.subCharging) == ChargingTargets(decided, cfg)
  {
    if !EnableApplies(c) {
      return c, [];
    }
    var before := c.subIsCharging;
    var split, on := CheckSubCharging(c, cfg, props);
    r := split.(subIsCharging := on);
    var inputCmds, chargingCmds;
    r, inputCmds := SetInputCurrent(r, cfg);
    r, chargingCmds := SetChargingCurrent(r, cfg);
    cmds := inputCmds + chargingCmds;
    if on != before {
      cmds := cmds + [ChargingEnabled(Sub, SubMode(on))];
    } else if on && Abnormal(r, props) {
      r := r.(subIsCharging := false);
      cmds := cmds + [ChargingEnabled(Sub, ChargingOff)];
    }
  }

  // ---------------------------------------------------------------------
  // set_property

  /**
   * ONLINE: pass the cable to both chargers; on a cable that carries no
   * charge clear the split, the caches and the test mode and stop the sub
   * charger; on a changed cable while arbitrating a charge, stop the sub
   * charger; record the cable and its charge path.
   */
  method SetOnline(c: Charger, cable: Cable) returns (r: Charger, cmds: seq<Cmd>)
    ensures |cmds| >= 2 && cmds[..2] == [Online(Main, cable), Online(Sub, cable)]
    ensures r.cable == cable && (r.mainPath == Wcin <==> cable == PogoWcinCable)
    ensures NoCharge(cable) ==>
      !r.subIsCharging && r.multiMode == MultiNormal &&
      r.main == Currents(0, 0) && r.sub == Currents(0, 0) &&
      r.mainInput == 0 && r.mainCharging == 0 && r.subInput == 0 && r.subCharging == 0 &&
      cmds == [Online(Main, cable), Online(Sub, cable), ChargingEnabled(Sub, ChargingOff)]
    ensures !NoCharge(cable) && c.subIsCharging && c.cable != cable && c.chgMode == Charging && c.multiMode == MultiNormal ==>
      !r.subIsCharging && cmds == [Online(Main, cable), Online(Sub, cable), ChargingEnabled(Sub, ChargingOff)]
    ensures !NoCharge(cable) ==>
      r == c.(cable := r.cable, mainPath := r.mainPath, subIsCharging := r.subIsCharging)
    ensures r.subIsCharging ==> c.subIsCharging
  {
    r := c;
    cmds := [Online(Main, cable), Online(Sub, cable)];
    if NoCharge(cable) {
      r := r.(subIsCharging := false, main := Currents(0, 0), sub := Currents(0, 0),
              mainInput := 0, mainCharging := 0, subInput := 0, subCharging := 0, multiMode := MultiNormal);
      cmds := cmds + [ChargingEnabled(Sub, ChargingOff)];
    } else if c.subIsCharging && c.cable != cable && c.chgMode == Charging && c.multiMode == MultiNormal {
      r := r.(subIsCharging := false);
      cmds := cmds + [ChargingEnabled(Sub, ChargingOff)];
    }
    r := r.(cable := cable, mainPath := if cable == PogoWcinCable then Wcin else Chgin);
  }

  /**
   * CURRENT_MAX: record the total input limit, split the currents, re-test
   * a running sub charger, and push the input limits; the cached input
   * limits end at the targets for the resulting state.
   */
  method SetCurrentMax(c: Charger, cfg: Config, props: Props, v: int) returns (r: Charger, cmds: seq<Cmd>)
    requires SplitDefined(c.(total := c.total.(input := v)), cfg, props)
    ensures r.total.input == v
    ensures (r.mainInput, r.subInput) == InputTargets(r, cfg)
    ensures r.subIsCharging ==> c.subIsCharging
  {
    var t := c.(total := c.total.(input := v));
    r := CheckSubChargeCurrent(t, cfg, props);
    var checkCmds, inputCmds;
    r, checkCmds := CheckInputCurrent(r, cfg, props);
    r, inputCmds := SetInputCurrent(r, cfg);
    cmds := checkCmds + inputCmds;
  }

  /**
   * CURRENT_NOW: record the total fast-charging current (and, with a
   * multi-port main charger, its own fast current) and push the fast
   * currents; the caches end at the targets for the resulting state.
   */
  method SetCurrentNow(c: Charger, cfg: Config, v: int) returns (r: Charger, cmds: seq<Cmd>)
    ensures r.total.fast == v && (cfg.isMultiPort ==> r.main.fast == v)
    ensures (r.mainCharging, r.subCharging) == ChargingTargets(r, cfg)
    ensures |cmds| <= 2
  {
    var t := c.(total := c.total.(fast := v));
    if cfg.isMultiPort {
      t := t.(main := t.main.(fast := v));
    }
    r, cmds := SetChargingCurrent(t, cfg);
  }
}
