/**
 * tests/simulate_nut_server.py, update_dynamic_values: what one pass of the updater does to
 * one device's variables. Randomness arrives as parameters, and float parsing and the
 * `:.1f`/`:.2f` renderings as oracles. A step that reads a missing variable or a value
 * `int()`/`float()` rejects raises, which ends the updater thread: the step gives None.
 */
module SimState {
  import opened Common
  import opened PyText

  /** One device's variables: name to value text. */
  type Vars = map<string, string>

  const LoadKey: string := "ups.load"
  const StatusKey: string := "ups.status"
  const InputVoltageKey: string := "input.voltage"
  const NominalVoltageKey: string := "input.voltage.nominal"
  const ChargeKey: string := "battery.charge"
  const ChargeLowKey: string := "battery.charge.low"
  const RuntimeKey: string := "battery.runtime"
  const BatteryVoltageKey: string := "battery.voltage"
  const BatteryNominalKey: string := "battery.voltage.nominal"
  const ReasonKey: string := "input.transfer.reason"

  /** The random draws of one device's step: `randint(-2, 2)`, `random()` behind `uniform`, and `randint(1, 200) == 1`. */
  datatype Draws = Draws(loadDelta: int, fraction: real, powerLoss: bool)

  /**
   * Python's `int()` and `float()` on a value (None where they raise) and the `:.1f` and
   * `:.2f` renderings. PyText.ParseInt is the `int()` the simulator runs with; the step
   * takes it as a parameter so that its proofs rest only on the facts they name.
   */
  datatype Numbers = Numbers(parseInt: string -> Option<int>, parseFloat: string -> Option<real>, fixed1: real -> string, fixed2: real -> string)

  /** `int(str(k)) == k`, which PyText.ParseIntToString proves of Python's `int()`. */
  ghost predicate ReadsBackInts(n: Numbers) {
    forall k: int :: n.parseInt(IntToString(k)) == Some(k)
  }

  function MinInt(a: int, b: int): int { if a <= b then a else b }
  function MaxInt(a: int, b: int): int { if a >= b then a else b }
  function MinReal(a: real, b: real): real { if a <= b then a else b }

  /** Python's `int()` on a float: truncation toward zero. */
  function Trunc(x: real): (n: int)
    ensures x >= 0.0 ==> n == x.Floor
    ensures x < 0.0 ==> n == -((-x).Floor)
  {
    if x >= 0.0 then x.Floor else -((-x).Floor)
  }

  /** `random.uniform(a, b)` from the underlying `random()` draw. */
  function Uniform(a: real, b: real, fraction: real): real {
    a + (b - a) * fraction
  }

  /** `int(v[key])`: None when the key is missing (KeyError) or the text is no int (ValueError). */
  function IntAt(v: Vars, key: string, n: Numbers): Option<int> {
    if key in v then n.parseInt(v[key]) else None
  }

  function FloatAt(v: Vars, key: string, n: Numbers): Option<real> {
    if key in v then n.parseFloat(v[key]) else None
  }

  /** The load drifts by the draw and is clamped to 5..100. */
  function LoadStep(v: Vars, delta: int, n: Numbers): Option<Vars> {
    match IntAt(v, LoadKey, n)
    case None => None
    case Some(load) => Some(v[LoadKey := IntToString(MinInt(100, MaxInt(5, load + delta)))])
  }

  /** A new input voltage around 120 V for a 120 V device, around 220 V otherwise. */
  function VoltageStep(v: Vars, fraction: real, n: Numbers): Option<Vars> {
    match IntAt(v, NominalVoltageKey, n)
    case None => None
    case Some(nominal) =>
      var reading := if nominal == 120 then Uniform(118.5, 121.5, fraction) else Uniform(218.0, 222.0, fraction);
      Some(v[InputVoltageKey := n.fixed1(reading)])
  }

  /** On battery: the status becomes LB once the charge is at or below battery.charge.low. */
  function LowCheck(v: Vars, charge: int, n: Numbers): Option<Vars> {
    match IntAt(v, ChargeLowKey, n)
    case None => None
    case Some(low) => Some(if charge <= low then v[StatusKey := "LB"] else v)
  }

  /** On battery (OB or LB): a positive charge drops by one, the runtime by 5% and the battery voltage by 0.05. */
  function DischargeStep(v: Vars, n: Numbers): Option<Vars> {
    match IntAt(v, ChargeKey, n)
    case None => None
    case Some(charge) =>
      if charge > 0 then
        var v1 := v[ChargeKey := IntToString(charge - 1)];
        match FloatAt(v1, RuntimeKey, n)
        case None => None
        case Some(runtime) =>
          var v2 := v1[RuntimeKey := IntToString(MaxInt(0, Trunc(Trunc(runtime) as real * 0.95)))];
          match FloatAt(v2, BatteryVoltageKey, n)
          case None => None
          case Some(volts) => LowCheck(v2[BatteryVoltageKey := n.fixed2(volts - 0.05)], charge - 1, n)
      else LowCheck(v, charge, n)
  }

  /** Online (OL): a charge below 100 rises by one and the runtime by 5%, capped at its initial value. */
  function RechargeStep(v: Vars, initialRuntime: int, n: Numbers): Option<Vars> {
    match IntAt(v, ChargeKey, n)
    case None => None
    case Some(charge) =>
      if charge < 100 then
        var v1 := v[ChargeKey := IntToString(MinInt(100, charge + 1))];
        match IntAt(v1, RuntimeKey, n)
        case None => None
        case Some(runtime) => Some(v1[RuntimeKey := IntToString(MinInt(initialRuntime, Trunc(runtime as real * 1.05)))])
      else Some(v)
  }

  /** Online: the battery voltage creeps up by 0.05 towards 1.14 times its nominal value. */
  function FloatChargeStep(v: Vars, n: Numbers): Option<Vars> {
    match FloatAt(v, BatteryNominalKey, n)
    case None => None
    case Some(nominal) =>
      var cap := nominal * 1.14;
      match FloatAt(v, BatteryVoltageKey, n)
      case None => None
      case Some(volts) => Some(if volts < cap then v[BatteryVoltageKey := n.fixed2(MinReal(cap, volts + 0.05))] else v)
  }

  function BatteryStep(v: Vars, initialRuntime: int, n: Numbers): Option<Vars> {
    if StatusKey !in v then None
    else if v[StatusKey] == "OB" || v[StatusKey] == "LB" then DischargeStep(v, n)
    else if v[StatusKey] == "OL" then
      match RechargeStep(v, initialRuntime, n)
      case None => None
      case Some(v1) => FloatChargeStep(v1, n)
    else Some(v)
  }

  /** The one-in-200 simulated power loss of an online device. */
  function PowerLossStep(v: Vars, lost: bool): Vars {
    if lost && StatusKey in v && v[StatusKey] == "OL" then v[StatusKey := "OB"][ReasonKey := "simulated power loss"] else v
  }

  /** One device's part of one pass of the updater. */
  function Step(v: Vars, d: Draws, initialRuntime: int, n: Numbers): Option<Vars> {
    match LoadStep(v, d.loadDelta, n)
    case None => None
    case Some(v1) =>
      match VoltageStep(v1, d.fraction, n)
      case None => None
      case Some(v2) =>
        match BatteryStep(v2, initialRuntime, n)
        case None => None
        case Some(v3) => Some(PowerLossStep(v3, d.powerLoss))
  }

  /* ---------- Which variables each part writes ---------- */

  /** a and b hold the same thing under key. */
  predicate Agree(a: Vars, b: Vars, key: string) {
    (key in a <==> key in b) && (key in a ==> a[key] == b[key])
  }

  lemma KeysDistinct()
    ensures LoadKey != StatusKey && LoadKey != InputVoltageKey && LoadKey != ChargeKey && LoadKey != RuntimeKey
    ensures LoadKey != BatteryVoltageKey && LoadKey != ReasonKey
    ensures StatusKey != InputVoltageKey && StatusKey != ChargeKey && StatusKey != RuntimeKey && StatusKey != BatteryVoltageKey
    ensures StatusKey != ReasonKey && StatusKey != ChargeLowKey
    ensures ChargeKey != InputVoltageKey && ChargeKey != RuntimeKey && ChargeKey != BatteryVoltageKey && ChargeKey != ReasonKey
    ensures ChargeKey != ChargeLowKey
    ensures RuntimeKey != InputVoltageKey && RuntimeKey != BatteryVoltageKey && RuntimeKey != ReasonKey
    ensures ChargeLowKey != InputVoltageKey && ChargeLowKey != RuntimeKey && ChargeLowKey != BatteryVoltageKey
  {
    assert |LoadKey| == 8 && |StatusKey| == 10 && |InputVoltageKey| == 13 && |ChargeKey| == 14;
    assert |ChargeLowKey| == 18 && |RuntimeKey| == 15 && |BatteryVoltageKey| == 15 && |ReasonKey| == 21;
    assert RuntimeKey[8] != BatteryVoltageKey[8];
  }

  lemma LoadStepFrame(v: Vars, delta: int, n: Numbers, key: string)
    requires key != LoadKey
    ensures LoadStep(v, delta, n).Some? ==> Agree(v, LoadStep(v, delta, n).value, key) && LoadKey in v
  {
  }

  lemma VoltageStepFrame(v: Vars, fraction: real, n: Numbers, key: string)
    requires key != InputVoltageKey
    ensures VoltageStep(v, fraction, n).Some? ==> Agree(v, VoltageStep(v, fraction, n).value, key)
  {
  }

  /** The battery part writes only the charge, runtime, battery voltage and status. */
  lemma BatteryStepFrame(v: Vars, initialRuntime: int, n: Numbers, key: string)
    requires key != ChargeKey && key != RuntimeKey && key != BatteryVoltageKey && key != StatusKey
    ensures BatteryStep(v, initialRuntime, n).Some? ==> Agree(v, BatteryStep(v, initialRuntime, n).value, key)
  {
  }

  lemma PowerLossFrame(v: Vars, lost: bool, key: string)
    requires key != StatusKey && key != ReasonKey
    ensures Agree(v, PowerLossStep(v, lost), key)
  {
  }

  /** The load and input-voltage parts leave the status and the charge variables alone. */
  lemma EarlyStepsFrame(v: Vars, d: Draws, n: Numbers, key: string)
    requires key != LoadKey && key != InputVoltageKey
    ensures var v1 := LoadStep(v, d.loadDelta, n);
      v1.Some? && VoltageStep(v1.value, d.fraction, n).Some? ==> Agree(v, VoltageStep(v1.value, d.fraction, n).value, key)
  {
    var v1 := LoadStep(v, d.loadDelta, n);
    if v1.Some? {
      LoadStepFrame(v, d.loadDelta, n, key);
      VoltageStepFrame(v1.value, d.fraction, n, key);
    }
  }

  /* ---------- Properties ---------- */

  /** Only variables that exist are written, when input.voltage and input.transfer.reason exist. */
  lemma StepKeepsKeys(v: Vars, d: Draws, initialRuntime: int, n: Numbers)
    requires InputVoltageKey in v && ReasonKey in v
    ensures Step(v, d, initialRuntime, n).Some? ==> Step(v, d, initialRuntime, n).value.Keys == v.Keys
  {
    if Step(v, d, initialRuntime, n).Some? {
      var v1 := LoadStep(v, d.loadDelta, n).value;
      var v2 := VoltageStep(v1, d.fraction, n).value;
      var v3 := BatteryStep(v2, initialRuntime, n).value;
      assert v1.Keys == v.Keys;
      assert v2.Keys == v1.Keys;
      assert v3.Keys == v2.Keys by { BatteryStepKeys(v2, initialRuntime, n); }
    }
  }

  lemma BatteryStepKeys(v: Vars, initialRuntime: int, n: Numbers)
    ensures BatteryStep(v, initialRuntime, n).Some? ==> BatteryStep(v, initialRuntime, n).value.Keys == v.Keys
  {
  }

  /** After a step the load holds `str(load)` for the old load moved by the draw and clamped into 5..100. */
  lemma StepLoadInRange(v: Vars, d: Draws, initialRuntime: int, n: Numbers)
    ensures var r := Step(v, d, initialRuntime, n);
      r.Some? ==>
        && IntAt(v, LoadKey, n).Some?
        && LoadKey in r.value
        && var load := MinInt(100, MaxInt(5, IntAt(v, LoadKey, n).value + d.loadDelta));
          && r.value[LoadKey] == IntToString(load)
          && 5 <= load <= 100
          && (ReadsBackInts(n) ==> IntAt(r.value, LoadKey, n) == Some(load))
  {
    var r := Step(v, d, initialRuntime, n);
    if r.Some? {
      KeysDistinct();
      var v1 := LoadStep(v, d.loadDelta, n).value;
      var v2 := VoltageStep(v1, d.fraction, n).value;
      var v3 := BatteryStep(v2, initialRuntime, n).value;
      VoltageStepFrame(v1, d.fraction, n, LoadKey);
      BatteryStepFrame(v2, initialRuntime, n, LoadKey);
      PowerLossFrame(v3, d.powerLoss, LoadKey);
    }
  }

  /** On battery: what the discharge part leaves in the charge and the status. */
  lemma DischargeFacts(v: Vars, n: Numbers)
    requires StatusKey in v
    ensures var r := DischargeStep(v, n);
      r.Some? ==>
        && IntAt(v, ChargeKey, n).Some? && IntAt(v, ChargeLowKey, n).Some?
        && var charge := IntAt(v, ChargeKey, n).value;
          var charge' := if charge > 0 then charge - 1 else charge;
          && ChargeKey in r.value && StatusKey in r.value
          && r.value[ChargeKey] == (if charge > 0 then IntToString(charge - 1) else v[ChargeKey])
          && r.value[StatusKey] == (if charge' <= IntAt(v, ChargeLowKey, n).value then "LB" else v[StatusKey])
  {
    KeysDistinct();
  }

  /**
   * On battery (OB or LB): a positive charge drops by exactly one and a zero or negative
   * one stays; the status becomes LB exactly when the new charge is at or below
   * battery.charge.low, else stays as it was; no power loss applies.
   */
  lemma StepOnBattery(v: Vars, d: Draws, initialRuntime: int, n: Numbers)
    requires StatusKey in v && (v[StatusKey] == "OB" || v[StatusKey] == "LB")
    ensures var r := Step(v, d, initialRuntime, n);
      r.Some? ==>
        && IntAt(v, ChargeKey, n).Some? && IntAt(v, ChargeLowKey, n).Some?
        && var charge := IntAt(v, ChargeKey, n).value;
          var charge' := if charge > 0 then charge - 1 else charge;
          && ChargeKey in r.value && StatusKey in r.value
          && r.value[ChargeKey] == (if charge > 0 then IntToString(charge - 1) else v[ChargeKey])
          && r.value[StatusKey] == (if charge' <= IntAt(v, ChargeLowKey, n).value then "LB" else v[StatusKey])
          && (ReadsBackInts(n) ==> IntAt(r.value, ChargeKey, n) == Some(charge'))
  {
    var r := Step(v, d, initialRuntime, n);
    if r.Some? {
      KeysDistinct();
      var v1 := LoadStep(v, d.loadDelta, n).value;
      var v2 := VoltageStep(v1, d.fraction, n).value;
      EarlyStepsFrame(v, d, n, StatusKey);
      EarlyStepsFrame(v, d, n, ChargeKey);
      EarlyStepsFrame(v, d, n, ChargeLowKey);
      var v3 := DischargeStep(v2, n).value;
      DischargeFacts(v2, n);
      assert r.value == v3;
    }
  }

  /** Online: what the recharge part leaves in the charge and the runtime. */
  lemma RechargeFacts(v: Vars, initialRuntime: int, n: Numbers)
    requires ReadsBackInts(n)
    ensures var r := RechargeStep(v, initialRuntime, n);
      r.Some? ==>
        && IntAt(v, ChargeKey, n).Some?
        && var charge := IntAt(v, ChargeKey, n).value;
          && ChargeKey in r.value
          && r.value[ChargeKey] == (if charge < 100 then IntToString(charge + 1) else v[ChargeKey])
          && (charge < 100 ==> IntAt(r.value, RuntimeKey, n).Some? && IntAt(r.value, RuntimeKey, n).value <= initialRuntime)
  {
    KeysDistinct();
  }

  /** Online: what the battery part leaves in the charge, the runtime and the status. */
  lemma OnlineBatteryFacts(v: Vars, initialRuntime: int, n: Numbers)
    requires StatusKey in v && v[StatusKey] == "OL"
    requires ReadsBackInts(n)
    ensures var r := BatteryStep(v, initialRuntime, n);
      r.Some? ==>
        && IntAt(v, ChargeKey, n).Some?
        && var charge := IntAt(v, ChargeKey, n).value;
          && ChargeKey in r.value && StatusKey in r.value && r.value[StatusKey] == "OL"
          && r.value[ChargeKey] == (if charge < 100 then IntToString(charge + 1) else v[ChargeKey])
          && (charge < 100 ==> IntAt(r.value, RuntimeKey, n).Some? && IntAt(r.value, RuntimeKey, n).value <= initialRuntime)
  {
    var r := BatteryStep(v, initialRuntime, n);
    if r.Some? {
      KeysDistinct();
      var w := RechargeStep(v, initialRuntime, n).value;
      RechargeFacts(v, initialRuntime, n);
      assert Agree(v, w, StatusKey);
      var v3 := FloatChargeStep(w, n).value;
      assert Agree(w, v3, ChargeKey) && Agree(w, v3, RuntimeKey) && Agree(w, v3, StatusKey);
    }
  }

  /**
   * Online (OL): a charge below 100 rises by one, and then the runtime reads back at most
   * the device's initial runtime; a full charge stays. The status stays OL unless the
   * power-loss draw hits, which makes it OB with the reason "simulated power loss".
   */
  lemma StepOnline(v: Vars, d: Draws, initialRuntime: int, n: Numbers)
    requires StatusKey in v && v[StatusKey] == "OL"
    requires ReadsBackInts(n)
    ensures var r := Step(v, d, initialRuntime, n);
      r.Some? ==>
        && IntAt(v, ChargeKey, n).Some?
        && var charge := IntAt(v, ChargeKey, n).value;
          && ChargeKey in r.value && StatusKey in r.value
          && r.value[ChargeKey] == (if charge < 100 then IntToString(charge + 1) else v[ChargeKey])
          && (charge < 100 ==> IntAt(r.value, RuntimeKey, n).Some? && IntAt(r.value, RuntimeKey, n).value <= initialRuntime)
          && r.value[StatusKey] == (if d.powerLoss then "OB" else "OL")
          && (d.powerLoss ==> ReasonKey in r.value && r.value[ReasonKey] == "simulated power loss")
  {
    var r := Step(v, d, initialRuntime, n);
    if r.Some? {
      KeysDistinct();
      var v1 := LoadStep(v, d.loadDelta, n).value;
      var v2 := VoltageStep(v1, d.fraction, n).value;
      EarlyStepsFrame(v, d, n, StatusKey);
      EarlyStepsFrame(v, d, n, ChargeKey);
      var v3 := BatteryStep(v2, initialRuntime, n).value;
      OnlineBatteryFacts(v2, initialRuntime, n);
      PowerLossFrame(v3, d.powerLoss, ChargeKey);
      PowerLossFrame(v3, d.powerLoss, RuntimeKey);
    }
  }

  /** Any other status leaves the charge, the runtime and the status alone. */
  lemma StepOtherStatus(v: Vars, d: Draws, initialRuntime: int, n: Numbers)
    requires StatusKey in v && v[StatusKey] != "OB" && v[StatusKey] != "LB" && v[StatusKey] != "OL"
    ensures var r := Step(v, d, initialRuntime, n);
      r.Some? ==> Agree(v, r.value, ChargeKey) && Agree(v, r.value, RuntimeKey) && Agree(v, r.value, StatusKey)
  {
    var r := Step(v, d, initialRuntime, n);
    if r.Some? {
      KeysDistinct();
      EarlyStepsFrame(v, d, n, StatusKey);
      EarlyStepsFrame(v, d, n, ChargeKey);
      EarlyStepsFrame(v, d, n, RuntimeKey);
    }
  }
}
