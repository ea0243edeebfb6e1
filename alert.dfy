/**
 * nutalert/alert.py: the alert decision. Telemetry becomes a numeric environment; in
 * "basic" mode five threshold rules each contribute a message, in "formula" mode a user
 * expression is evaluated; the status rule can suppress repeats of the last alerted status
 * through one module-wide `previous_ups_status`, modelled as the field of AlertEvaluator.
 *
 * Python's `eval`, `str.format` and number formatting are not modelled: they are oracles
 * collected in `Oracles`.
 */
module Alert {
  import opened Common
  import opened PyText
  import opened Parser

  /** The dictionary built by prepare_ups_env. */
  datatype Env = Env(
    upsLoad: real,
    batteryCharge: real,
    batteryRuntime: real,
    actualRuntimeMinutes: real,
    batteryVoltage: real,
    inputVoltage: real,
    upsStatus: string)

  /** `str.format(**env)`: the text, a KeyError (rendered as `str(e)`), or any other exception. */
  datatype FormatResult = Formatted(text: string) | FormatKeyError(key: string) | FormatFailed(exception: string)

  /** `eval(expression, {"__builtins__": {}}, env)`: the truthiness of the value, or the exception text. */
  datatype EvalResult = Evaluated(truthy: bool) | EvalFailed(error: string)

  /** The Python operations the model takes as given. */
  datatype Oracles = Oracles(
    parseFloat: FloatParser,                  // float(s)
    fixed1: real -> string,                   // f"{x:.1f}"
    show: real -> string,                     // f"{x}"
    format: (string, Env) -> FormatResult,    // message.format(**env)
    eval: (string, Env) -> EvalResult)        // eval(expression, ..., env)

  /** A key of a configuration dict: not there, there with the value None, or there with a value. */
  datatype Entry<+T> = Missing | Null | Given(value: T)

  /** `f"{x}"` of a looked-up text: the fallback when the key is missing, "None" for None. */
  function Render(e: Entry<string>, fallback: string): (r: string)
    ensures e.Given? ==> r == e.value
    ensures e.Null? ==> r == "None"
    ensures e.Missing? ==> r == fallback
  {
    match e
    case Missing => fallback
    case Null => "None"
    case Given(s) => s
  }

  /**
   * One `basic_alerts` entry with min/max bounds. `enabled` is the truthiness of
   * `.get("enabled")`, so a missing key and None are both false.
   */
  datatype ThresholdRule = ThresholdRule(enabled: bool, min: Entry<real>, max: Entry<real>, message: Entry<string>)

  /** The `basic_alerts.ups_status` entry; `alert_when_status_changed` is read for its truthiness. */
  datatype StatusRule = StatusRule(
    enabled: bool,
    acceptable: Entry<seq<string>>,
    alertWhenStatusChanged: bool,
    message: Entry<string>)

  /** The `basic_alerts` section; a rule absent from the dict is None. */
  datatype BasicAlerts = BasicAlerts(
    batteryCharge: Option<ThresholdRule>,
    runtime: Option<ThresholdRule>,
    load: Option<ThresholdRule>,
    inputVoltage: Option<ThresholdRule>,
    upsStatus: Option<StatusRule>)

  datatype FormulaAlert = FormulaAlert(expression: Entry<string>, message: Entry<string>)

  /** The keys of the configuration that should_alert reads. */
  datatype AlertConfig = AlertConfig(
    alertMode: Entry<string>,
    basicAlerts: Option<BasicAlerts>,
    formulaAlert: Option<FormulaAlert>)

  /** The pair `(is_alerting, message)` returned by should_alert. */
  datatype Verdict = Verdict(isAlerting: bool, message: string)

  /** `float(nut_values.get(key, 0))`; float() of a text value that is not a number raises. */
  function FloatOf(values: map<string, NutValue>, key: string, parseFloat: FloatParser): Outcome<real> {
    if key !in values then Returned(0.0)
    else
      match values[key]
      case IntValue(i) => Returned(i as real)
      case FloatValue(x) => Returned(x)
      case StrValue(s) =>
        match parseFloat(s)
        case Some(x) => Returned(x)
        case None => Raised("ValueError")
  }

  /** `nut_values.get("ups.status", "").lower()`; a number has no `lower` and raises. */
  function StatusOf(values: map<string, NutValue>): Outcome<string> {
    if "ups.status" !in values then Returned("")
    else
      match values["ups.status"]
      case StrValue(s) => Returned(Lower(s))
      case _ => Raised("AttributeError")
  }

  /** prepare_ups_env: the reads happen in source order and the first exception escapes. */
  function PrepareEnv(values: map<string, NutValue>, parseFloat: FloatParser): Outcome<Env> {
    match FloatOf(values, "ups.load", parseFloat)
    case Raised(e) => Raised(e)
    case Returned(load) =>
      match FloatOf(values, "battery.charge", parseFloat)
      case Raised(e) => Raised(e)
      case Returned(charge) =>
        match FloatOf(values, "battery.runtime", parseFloat)
        case Raised(e) => Raised(e)
        case Returned(runtime) =>
          match FloatOf(values, "battery.voltage", parseFloat)
          case Raised(e) => Raised(e)
          case Returned(battV) =>
            match FloatOf(values, "input.voltage", parseFloat)
            case Raised(e) => Raised(e)
            case Returned(inV) =>
              match StatusOf(values)
              case Raised(e) => Raised(e)
              case Returned(status) => Returned(Env(load, charge, runtime, runtime / 60.0, battV, inV, status))
  }

  /**
   * What `float(nut_values.get(key, 0))` gives for a reading: 0 when it is absent, an
   * integer or float reading exactly, and float() of a text reading.
   */
  predicate ReadAs(values: map<string, NutValue>, key: string, parseFloat: FloatParser, x: real) {
    if key !in values then x == 0.0
    else
      match values[key]
      case IntValue(n) => x == n as real
      case FloatValue(y) => x == y
      case StrValue(s) => parseFloat(s) == Some(x)
  }

  /**
   * The environment exists exactly when every numeric reading converts and the status is
   * text (or absent); then each of the five numeric fields is its reading as float() reads
   * it (missing readings are 0 and integer readings are taken exactly), the runtime in
   * minutes is the runtime in seconds over 60, and the status is lower-cased.
   */
  lemma PrepareEnvSpec(values: map<string, NutValue>, parseFloat: FloatParser)
    ensures var r := PrepareEnv(values, parseFloat);
      r.Returned? <==>
        && FloatOf(values, "ups.load", parseFloat).Returned?
        && FloatOf(values, "battery.charge", parseFloat).Returned?
        && FloatOf(values, "battery.runtime", parseFloat).Returned?
        && FloatOf(values, "battery.voltage", parseFloat).Returned?
        && FloatOf(values, "input.voltage", parseFloat).Returned?
        && StatusOf(values).Returned?
    ensures var r := PrepareEnv(values, parseFloat);
      r.Returned? ==>
        && r.value.actualRuntimeMinutes * 60.0 == r.value.batteryRuntime
        && ("ups.load" !in values ==> r.value.upsLoad == 0.0)
        && ("battery.charge" !in values ==> r.value.batteryCharge == 0.0)
        && ("battery.runtime" !in values ==> r.value.actualRuntimeMinutes == 0.0)
        && ("battery.voltage" !in values ==> r.value.batteryVoltage == 0.0)
        && ("input.voltage" !in values ==> r.value.inputVoltage == 0.0)
        && ("ups.status" !in values ==> r.value.upsStatus == "")
        && ReadAs(values, "ups.load", parseFloat, r.value.upsLoad)
        && ReadAs(values, "battery.charge", parseFloat, r.value.batteryCharge)
        && ReadAs(values, "battery.runtime", parseFloat, r.value.batteryRuntime)
        && ReadAs(values, "battery.voltage", parseFloat, r.value.batteryVoltage)
        && ReadAs(values, "input.voltage", parseFloat, r.value.inputVoltage)
        && (forall n :: "ups.load" in values && values["ups.load"] == IntValue(n) ==> r.value.upsLoad == n as real)
        && (forall s :: "ups.status" in values && values["ups.status"] == StrValue(s) ==> r.value.upsStatus == Lower(s))
  {
  }

  /** A text reading that float() rejects makes prepare_ups_env raise, whatever the other readings. */
  lemma UnparsableReadingRaises(values: map<string, NutValue>, parseFloat: FloatParser, key: string)
    requires key in ["ups.load", "battery.charge", "battery.runtime", "battery.voltage", "input.voltage"]
    requires key in values && values[key].StrValue? && parseFloat(values[key].s).None?
    ensures PrepareEnv(values, parseFloat).Raised?
  {
    PrepareEnvSpec(values, parseFloat);
  }

  /**
   * check_battery_charge as written: the configured message is returned by itself, so a
   * message that is "" or None comes back as no alert at all. A None min raises TypeError
   * in the comparison.
   */
  function CheckBatteryChargeAsWritten(rule: ThresholdRule, env: Env): (r: Outcome<Option<string>>)
    ensures rule.min.Missing? ==> r == Returned(Some("config error: battery_charge.min not specified"))
    ensures r.Raised? <==> rule.min.Null?
    ensures rule.min.Given? ==> r.Returned? && (r.value.Some? <==> env.batteryCharge < rule.min.value && !rule.message.Null?)
    ensures rule.min.Given? && r.Returned? && r.value.Some? ==>
      r.value.value == Render(rule.message, "battery charge below threshold")
  {
    match rule.min
    case Missing => Returned(Some("config error: battery_charge.min not specified"))
    case Null => Raised("TypeError")
    case Given(min) =>
      if env.batteryCharge < min then
        Returned(if rule.message.Null? then None else Some(Render(rule.message, "battery charge below threshold")))
      else Returned(None)
  }

  /**
   * check_battery_charge with an empty or None message falling back to the default text:
   * an enabled rule with a numeric min alerts exactly when the charge is below it. Where
   * the message is a non-empty text or missing, it is check_battery_charge as written.
   */
  function CheckBatteryCharge(rule: ThresholdRule, env: Env): (r: Outcome<Option<string>>)
    ensures rule.min.Missing? ==> r == Returned(Some("config error: battery_charge.min not specified"))
    ensures r.Raised? <==> rule.min.Null?
    ensures rule.min.Given? ==> r.Returned? && (Kept(r.value) != [] <==> env.batteryCharge < rule.min.value)
    ensures rule.message.Missing? || (rule.message.Given? && rule.message.value != "") ==>
      r == CheckBatteryChargeAsWritten(rule, env)
  {
    match rule.min
    case Missing => Returned(Some("config error: battery_charge.min not specified"))
    case Null => Raised("TypeError")
    case Given(min) =>
      if env.batteryCharge < min then
        Returned(Some(if rule.message.Given? && rule.message.value != "" then rule.message.value
                      else "battery charge below threshold"))
      else Returned(None)
  }

  /**
   * check_runtime: alert strictly below min minutes, the message followed by both numbers;
   * a None min raises TypeError and a None message shows as "None".
   */
  function CheckRuntime(rule: ThresholdRule, env: Env, o: Oracles): (r: Outcome<Option<string>>)
    ensures rule.min.Missing? ==> r == Returned(Some("config error: runtime.min not specified"))
    ensures r.Raised? <==> rule.min.Null?
    ensures rule.min.Given? ==> r.Returned? && (r.value.Some? <==> env.actualRuntimeMinutes < rule.min.value)
    ensures rule.min.Given? && r.Returned? && r.value.Some? ==>
      StartsWith(r.value.value, Render(rule.message, "runtime below minimum threshold") + " (")
  {
    match rule.min
    case Missing => Returned(Some("config error: runtime.min not specified"))
    case Null => Raised("TypeError")
    case Given(min) =>
      if env.actualRuntimeMinutes < min then
        Returned(Some(Render(rule.message, "runtime below minimum threshold") + " ("
                      + o.fixed1(env.actualRuntimeMinutes) + "min < " + o.show(min) + "min)"))
      else Returned(None)
  }

  /** check_load: alert strictly above max percent; a None max raises TypeError. */
  function CheckLoad(rule: ThresholdRule, env: Env, o: Oracles): (r: Outcome<Option<string>>)
    ensures rule.max.Missing? ==> r == Returned(Some("config error: load.max not specified"))
    ensures r.Raised? <==> rule.max.Null?
    ensures rule.max.Given? ==> r.Returned? && (r.value.Some? <==> env.upsLoad > rule.max.value)
    ensures rule.max.Given? && r.Returned? && r.value.Some? ==>
      StartsWith(r.value.value, Render(rule.message, "ups load exceeds maximum threshold") + " (")
  {
    match rule.max
    case Missing => Returned(Some("config error: load.max not specified"))
    case Null => Raised("TypeError")
    case Given(max) =>
      if env.upsLoad > max then
        Returned(Some(Render(rule.message, "ups load exceeds maximum threshold") + " ("
                      + o.fixed1(env.upsLoad) + "% > " + o.show(max) + "%)"))
      else Returned(None)
  }

  /**
   * check_input_voltage: no reading (<= 0) never alerts, not even with a bound missing;
   * otherwise the accepted range is [min, max], both ends included. The `or` compares with
   * min first, so a None max raises only for a reading at or above min.
   */
  function CheckInputVoltage(rule: ThresholdRule, env: Env, o: Oracles): (r: Outcome<Option<string>>)
    ensures env.inputVoltage <= 0.0 ==> r == Returned(None)
    ensures env.inputVoltage > 0.0 && (rule.min.Missing? || rule.max.Missing?) ==>
      r == Returned(Some("config error: voltage min/max not specified"))
    ensures r.Raised? <==>
      && env.inputVoltage > 0.0 && !rule.min.Missing? && !rule.max.Missing?
      && (rule.min.Null? || (env.inputVoltage >= rule.min.value && rule.max.Null?))
    ensures env.inputVoltage > 0.0 && rule.min.Given? && env.inputVoltage < rule.min.value && !rule.max.Missing? ==>
      r.Returned? && r.value.Some?
    ensures env.inputVoltage > 0.0 && rule.min.Given? && rule.max.Given? ==>
      r.Returned? && (r.value.Some? <==> env.inputVoltage < rule.min.value || env.inputVoltage > rule.max.value)
    ensures env.inputVoltage > 0.0 && rule.min.Given? && !rule.max.Missing? && r.Returned? && r.value.Some? ==>
      StartsWith(r.value.value, Render(rule.message, "input voltage outside acceptable range") + " (")
  {
    if env.inputVoltage <= 0.0 then Returned(None)
    else if rule.min.Missing? || rule.max.Missing? then Returned(Some("config error: voltage min/max not specified"))
    else if rule.min.Null? then Raised("TypeError")
    else
      var message := Render(rule.message, "input voltage outside acceptable range") + " (" + o.fixed1(env.inputVoltage) + "v)";
      if env.inputVoltage < rule.min.value then Returned(Some(message))
      else if rule.max.Null? then Raised("TypeError")
      else if env.inputVoltage > rule.max.value then Returned(Some(message))
      else Returned(None)
  }

  /** _should_skip_due_to_unchanged_status: whether to skip, and the new previous_ups_status. */
  function SkipStep(alertWhenStatusChanged: bool, current: string, previous: string): (r: (bool, string))
    ensures r.0 <==> alertWhenStatusChanged && current == previous
    ensures r.1 == (if alertWhenStatusChanged then current else previous)
  {
    if !alertWhenStatusChanged then (false, previous)
    else if current == previous then (true, previous)
    else (false, current)
  }

  /**
   * check_ups_status together with the global it reads and writes: the alert and the new
   * previous_ups_status. A None acceptable list raises TypeError in the `not in` test,
   * before the global is read.
   */
  function StatusCheck(rule: StatusRule, status: string, previous: string): (r: (Outcome<Option<string>>, string))
    ensures status == "" ==> r == (Returned(None), previous)
    ensures status != "" && rule.acceptable.Missing? ==>
      r == (Returned(Some("config error: acceptable ups statuses not defined")), previous)
    ensures r.0.Raised? <==> status != "" && rule.acceptable.Null?
    ensures status != "" && rule.acceptable.Given? ==>
      && r.0.Returned?
      && (r.0.value.Some? <==> status !in rule.acceptable.value && !(rule.alertWhenStatusChanged && status == previous))
    ensures r.1 != previous ==> r.1 == status && r.0.Returned? && r.0.value.Some? && rule.alertWhenStatusChanged
    ensures status != "" && rule.acceptable.Given? && r.0.Returned? && r.0.value.Some? ==>
      r.0.value.value == Render(rule.message, "ups status not in acceptable list") + " (" + status + ")"
  {
    if status == "" then (Returned(None), previous)
    else
      match rule.acceptable
      case Missing => (Returned(Some("config error: acceptable ups statuses not defined")), previous)
      case Null => (Raised("TypeError"), previous)
      case Given(acceptable) =>
        if status !in acceptable then
          var message := Render(rule.message, "ups status not in acceptable list");
          var (skip, previous') := SkipStep(rule.alertWhenStatusChanged, status, previous);
          if skip then (Returned(None), previous') else (Returned(Some(message + " (" + status + ")")), previous')
        else (Returned(None), previous)
  }

  /** Whether a check returned a message (which may still be ""). */
  predicate Fired(alert: Outcome<Option<string>>) {
    alert.Returned? && alert.value.Some?
  }

  /** The statuses that raise a status alert when the rule sees them in order. */
  function AlertedStatuses(rule: StatusRule, statuses: seq<string>, previous: string): seq<string> {
    if |statuses| == 0 then []
    else
      var (alert, previous') := StatusCheck(rule, statuses[0], previous);
      (if Fired(alert) then [statuses[0]] else []) + AlertedStatuses(rule, statuses[1..], previous')
  }

  predicate NoAdjacentRepeats(s: seq<string>) {
    forall k :: 0 < k < |s| ==> s[k] != s[k - 1]
  }

  /**
   * With alert_when_status_changed, a status is reported again only after a different
   * unacceptable status was reported in between: the alerted statuses never repeat back
   * to back, and the first one differs from the stored previous status.
   */
  lemma {:induction false} ChangedStatusesOnly(rule: StatusRule, statuses: seq<string>, previous: string)
    requires rule.alertWhenStatusChanged && rule.acceptable.Given?
    ensures var run := AlertedStatuses(rule, statuses, previous);
      NoAdjacentRepeats(run) && (|run| > 0 ==> run[0] != previous)
  {
    if |statuses| > 0 {
      var (alert, previous') := StatusCheck(rule, statuses[0], previous);
      ChangedStatusesOnly(rule, statuses[1..], previous');
      var rest := AlertedStatuses(rule, statuses[1..], previous');
      if Fired(alert) {
        assert previous' == statuses[0];
        var run := [statuses[0]] + rest;
        forall k | 0 < k < |run| ensures run[k] != run[k - 1] {
          if k > 1 {
            assert run[k] == rest[k - 1] && run[k - 1] == rest[k - 2];
          }
        }
      } else {
        assert previous' == previous;
        assert AlertedStatuses(rule, statuses, previous) == rest;
      }
    }
  }

  /** Going on battery, back online, then on battery again reports the outage once. */
  lemma OutageReportedOnce()
    ensures var rule := StatusRule(true, Given(["ol", "online"]), true, Missing);
      AlertedStatuses(rule, ["ob", "ol", "ob"], "") == ["ob"]
  {
    var rule := StatusRule(true, Given(["ol", "online"]), true, Missing);
    assert "ob"[1] != "ol"[1] && |"ob"| != |"online"|;
    assert "ob" !in ["ol", "online"];
    assert Fired(StatusCheck(rule, "ob", "").0) && StatusCheck(rule, "ob", "").1 == "ob";
    assert StatusCheck(rule, "ol", "ob") == (Returned(None), "ob");
    assert StatusCheck(rule, "ob", "ob") == (Returned(None), "ob");
    assert ["ob", "ol", "ob"][1..] == ["ol", "ob"];
    assert ["ol", "ob"][1..] == ["ob"];
  }

  /** Without alert_when_status_changed every unacceptable status alerts and the global is left alone. */
  lemma EveryUnacceptableStatusAlerts(rule: StatusRule, status: string, previous: string)
    requires !rule.alertWhenStatusChanged && rule.acceptable.Given?
    requires status != "" && status !in rule.acceptable.value
    ensures Fired(StatusCheck(rule, status, previous).0)
    ensures StatusCheck(rule, status, previous).1 == previous
  {
  }

  /** `if alert: alerts_triggered.append(alert)`: None and "" are dropped. */
  function Kept(alert: Option<string>): (r: seq<string>)
    ensures r == [] <==> alert.None? || alert.value == ""
    ensures r != [] ==> r == [alert.value]
  {
    if alert.Some? && alert.value != "" then [alert.value] else []
  }

  /** `if alert: alerts_triggered.append(alert)` as a statement. */
  method AppendIfSet(alerts: seq<string>, alert: Option<string>) returns (alerts': seq<string>)
    ensures alerts' == alerts + Kept(alert)
  {
    alerts' := alerts;
    if alert.Some? && alert.value != "" {
      alerts' := alerts' + [alert.value];
    }
  }

  predicate IsEnabled(rule: Option<ThresholdRule>) {
    rule.Some? && rule.value.enabled
  }

  /** What one rule adds to alerts_triggered, or the exception its check let escape. */
  function KeptOutcome(alert: Outcome<Option<string>>): Outcome<seq<string>> {
    match alert
    case Raised(e) => Raised(e)
    case Returned(a) => Returned(Kept(a))
  }

  /** The contribution of each threshold rule; a missing or disabled rule is not evaluated. */
  function ChargeAlerts(b: BasicAlerts, env: Env): Outcome<seq<string>> {
    if IsEnabled(b.batteryCharge) then KeptOutcome(CheckBatteryCharge(b.batteryCharge.value, env)) else Returned([])
  }

  /** The battery-charge part of check_basic_alerts as written, with check_battery_charge as written. */
  function ChargeAlertsAsWritten(b: BasicAlerts, env: Env): Outcome<seq<string>> {
    if IsEnabled(b.batteryCharge) then KeptOutcome(CheckBatteryChargeAsWritten(b.batteryCharge.value, env)) else Returned([])
  }

  /**
   * The combined checks use the corrected battery-charge check. They differ from
   * check_basic_alerts as written in one case only: an enabled rule with a numeric min,
   * the charge below it and a message that is "" or None. There the program as written
   * reports nothing and the corrected check reports the default text.
   */
  lemma ChargeAlertsDiffer(b: BasicAlerts, env: Env)
    ensures ChargeAlerts(b, env) != ChargeAlertsAsWritten(b, env) <==>
      && IsEnabled(b.batteryCharge)
      && b.batteryCharge.value.min.Given?
      && env.batteryCharge < b.batteryCharge.value.min.value
      && (b.batteryCharge.value.message == Given("") || b.batteryCharge.value.message.Null?)
    ensures ChargeAlerts(b, env) != ChargeAlertsAsWritten(b, env) ==>
      ChargeAlertsAsWritten(b, env) == Returned([]) && ChargeAlerts(b, env) == Returned(["battery charge below threshold"])
  {
    if IsEnabled(b.batteryCharge) {
      var rule := b.batteryCharge.value;
      if rule.min.Given? && env.batteryCharge < rule.min.value && (rule.message == Given("") || rule.message.Null?) {
        EmptyChargeMessageDropped(rule, env);
      }
    }
  }

  function RuntimeAlerts(b: BasicAlerts, env: Env, o: Oracles): Outcome<seq<string>> {
    if IsEnabled(b.runtime) then KeptOutcome(CheckRuntime(b.runtime.value, env, o)) else Returned([])
  }

  function LoadAlerts(b: BasicAlerts, env: Env, o: Oracles): Outcome<seq<string>> {
    if IsEnabled(b.load) then KeptOutcome(CheckLoad(b.load.value, env, o)) else Returned([])
  }

  function VoltageAlerts(b: BasicAlerts, env: Env, o: Oracles): Outcome<seq<string>> {
    if IsEnabled(b.inputVoltage) then KeptOutcome(CheckInputVoltage(b.inputVoltage.value, env, o)) else Returned([])
  }

  /** The status rule's contribution and the new previous_ups_status. */
  function StatusAlerts(b: BasicAlerts, env: Env, previous: string): (Outcome<seq<string>>, string) {
    if b.upsStatus.Some? && b.upsStatus.value.enabled then
      var (alert, previous') := StatusCheck(b.upsStatus.value, env.upsStatus, previous);
      (KeptOutcome(alert), previous')
    else (Returned([]), previous)
  }

  /** The messages so far followed by those of the next rule; the first exception stops the list. */
  function Then(first: Outcome<seq<string>>, next: Outcome<seq<string>>): Outcome<seq<string>> {
    match first
    case Raised(e) => Raised(e)
    case Returned(xs) =>
      match next
      case Raised(e) => Raised(e)
      case Returned(ys) => Returned(xs + ys)
  }

  /**
   * check_basic_alerts: the triggered messages in rule order, and the new
   * previous_ups_status; the status rule runs last, so an exception leaves it unread.
   */
  function BasicAlertList(basic: Option<BasicAlerts>, env: Env, o: Oracles, previous: string): (Outcome<seq<string>>, string) {
    match basic
    case None => (Returned(["config error: basic_alerts not specified"]), previous)
    case Some(b) =>
      var (status, previous') := StatusAlerts(b, env, previous);
      var all := Then(Then(Then(Then(ChargeAlerts(b, env), RuntimeAlerts(b, env, o)), LoadAlerts(b, env, o)),
        VoltageAlerts(b, env, o)), status);
      (all, if all.Raised? then previous else previous')
  }

  /**
   * What check_basic_alerts promises: at most one message per rule, none of them empty,
   * an exception exactly when an enabled rule's check raises, a rule that is absent or
   * disabled contributes nothing, and only an enabled status rule can move
   * previous_ups_status.
   */
  lemma BasicAlertListSpec(basic: Option<BasicAlerts>, env: Env, o: Oracles, previous: string)
    ensures var (alerts, _) := BasicAlertList(basic, env, o, previous);
      alerts.Returned? ==>
        && 1 <= |alerts.value| + (if basic.Some? then 1 else 0) <= 5 + (if basic.Some? then 1 else 0)
        && forall k :: 0 <= k < |alerts.value| ==> alerts.value[k] != ""
    ensures var (alerts, _) := BasicAlertList(basic, env, o, previous);
      alerts.Raised? <==>
        && basic.Some?
        && (|| ChargeAlerts(basic.value, env).Raised? || RuntimeAlerts(basic.value, env, o).Raised?
            || LoadAlerts(basic.value, env, o).Raised? || VoltageAlerts(basic.value, env, o).Raised?
            || StatusAlerts(basic.value, env, previous).0.Raised?)
    ensures var (alerts, previous') := BasicAlertList(basic, env, o, previous);
      previous' != previous ==>
        alerts.Returned? && basic.Some? && basic.value.upsStatus.Some? && basic.value.upsStatus.value.enabled
    ensures basic.Some? && !IsEnabled(basic.value.batteryCharge) && !IsEnabled(basic.value.runtime)
      && !IsEnabled(basic.value.load) && !IsEnabled(basic.value.inputVoltage)
      && !(basic.value.upsStatus.Some? && basic.value.upsStatus.value.enabled)
      ==> BasicAlertList(basic, env, o, previous) == (Returned([]), previous)
  {
    if basic.Some? {
      var b := basic.value;
      var c, r, l, v, s := ChargeAlerts(b, env), RuntimeAlerts(b, env, o), LoadAlerts(b, env, o),
        VoltageAlerts(b, env, o), StatusAlerts(b, env, previous).0;
      RulePartsShown(b, env, o, previous);
      ThenShown(c, r, 1, 1);
      ThenShown(Then(c, r), l, 2, 1);
      ThenShown(Then(Then(c, r), l), v, 3, 1);
      ThenShown(Then(Then(Then(c, r), l), v), s, 4, 1);
    }
  }

  /** At most n messages, none of them empty, unless the checks raised. */
  predicate ShownAtMost(part: Outcome<seq<string>>, n: nat) {
    part.Returned? ==> |part.value| <= n && forall k :: 0 <= k < |part.value| ==> part.value[k] != ""
  }

  lemma RulePartsShown(b: BasicAlerts, env: Env, o: Oracles, previous: string)
    ensures ShownAtMost(ChargeAlerts(b, env), 1) && ShownAtMost(RuntimeAlerts(b, env, o), 1)
    ensures ShownAtMost(LoadAlerts(b, env, o), 1) && ShownAtMost(VoltageAlerts(b, env, o), 1)
    ensures ShownAtMost(StatusAlerts(b, env, previous).0, 1)
  {
  }

  lemma ThenShown(first: Outcome<seq<string>>, next: Outcome<seq<string>>, n: nat, m: nat)
    requires ShownAtMost(first, n) && ShownAtMost(next, m)
    ensures ShownAtMost(Then(first, next), n + m)
    ensures Then(first, next).Raised? <==> first.Raised? || next.Raised?
  {
    if first.Returned? && next.Returned? {
      var all := first.value + next.value;
      forall k | 0 <= k < |all| ensures all[k] != "" {
        if k >= |first.value| {
          assert all[k] == next.value[k - |first.value|];
        }
      }
    }
  }

  /**
   * check_battery_charge as written never reports a rule whose message is "" (the default
   * the settings page writes) or None, whatever the charge: the message is returned by
   * itself and `if alert:` drops it. The corrected check reports the same rule whenever
   * the charge is below min.
   */
  lemma EmptyChargeMessageDropped(rule: ThresholdRule, env: Env)
    requires rule.min.Given? && (rule.message == Given("") || rule.message.Null?)
    ensures CheckBatteryChargeAsWritten(rule, env).Returned?
    ensures Kept(CheckBatteryChargeAsWritten(rule, env).value) == []
    ensures env.batteryCharge < rule.min.value ==> Kept(CheckBatteryCharge(rule, env).value) != []
  {
  }

  /** The "ups ok" message of basic mode. */
  function BasicOkMessage(env: Env, o: Oracles): string {
    "ups ok: " + o.fixed1(env.actualRuntimeMinutes) + " min runtime, " + o.show(env.upsLoad) + "% load, "
    + o.show(env.batteryCharge) + "% charge"
  }

  /** The "ups ok" message of formula mode (no space before "min"). */
  function FormulaOkMessage(env: Env, o: Oracles): string {
    "ups ok: " + o.fixed1(env.actualRuntimeMinutes) + "min runtime, " + o.show(env.upsLoad) + "% load, "
    + o.show(env.batteryCharge) + "% charge"
  }

  /** What `eval` raises when the expression is None; `except Exception` turns it into an alert. */
  const EvalOfNone := "eval() arg 1 must be a string, bytes or code object"

  /**
   * check_formula_alert. A missing section or expression, a KeyError in the message and an
   * exception from eval all give an alert; any other exception from formatting escapes,
   * including the AttributeError of a message that is None. An expression that is None
   * reaches eval, whose TypeError is caught like any other.
   */
  function CheckFormulaAlert(formula: Option<FormulaAlert>, env: Env, o: Oracles): Outcome<Verdict> {
    if formula.None? then Returned(Verdict(true, "ups alert: configuration error - formula_alert not specified"))
    else if formula.value.expression.Missing? then
      Returned(Verdict(true, "ups alert: configuration error - formula expression not specified"))
    else
      var expression := formula.value.expression;
      var message :=
        match formula.value.message
        case Missing => Formatted("ups alert: formula conditions not met")
        case Null => FormatFailed("AttributeError")
        case Given(m) => o.format(m, env);
      match message
      case FormatKeyError(key) => Returned(Verdict(true, "ups alert: invalid variable in formula message: " + key))
      case FormatFailed(e) => Raised(e)
      case Formatted(text) =>
        var result := if expression.Given? then o.eval(expression.value, env) else EvalFailed(EvalOfNone);
        match result
        case EvalFailed(e) =>
          Returned(Verdict(true, "ups alert: error evaluating formula '" + Render(expression, "") + "': " + e))
        case Evaluated(truthy) => Returned(if truthy then Verdict(true, text) else Verdict(false, FormulaOkMessage(env, o)))
  }

  /**
   * Formula mode fails closed: it reports "ok" exactly when the section, a textual
   * expression and a formattable message (or none) are there and the expression evaluates
   * to a falsy value. The message is formatted before the expression is evaluated.
   */
  lemma FormulaFailsClosed(formula: Option<FormulaAlert>, env: Env, o: Oracles)
    ensures var r := CheckFormulaAlert(formula, env, o);
      (r.Returned? && !r.value.isAlerting) <==>
        && formula.Some? && formula.value.expression.Given?
        && (formula.value.message.Missing?
            || (formula.value.message.Given? && o.format(formula.value.message.value, env).Formatted?))
        && o.eval(formula.value.expression.value, env) == Evaluated(false)
    ensures var r := CheckFormulaAlert(formula, env, o);
      r.Raised? <==>
        && formula.Some? && !formula.value.expression.Missing?
        && (|| formula.value.message.Null?
            || (formula.value.message.Given? && o.format(formula.value.message.value, env).FormatFailed?))
    ensures formula.Some? && !formula.value.expression.Missing? && formula.value.message.Given?
      && o.format(formula.value.message.value, env).FormatKeyError?
      ==> CheckFormulaAlert(formula, env, o).Returned? && CheckFormulaAlert(formula, env, o).value.isAlerting
    ensures formula.Some? && formula.value.expression.Null? && formula.value.message.Missing? ==>
      CheckFormulaAlert(formula, env, o)
        == Returned(Verdict(true, "ups alert: error evaluating formula 'None': " + EvalOfNone))
  {
    if formula.Some? && !formula.value.expression.Missing? {
      match formula.value.message
      case Missing =>
        var prefix := "ups alert: error evaluating formula '";
        assert prefix + "None" + "': " + EvalOfNone == "ups alert: error evaluating formula 'None': " + EvalOfNone;
      case Null =>
      case Given(m) =>
    }
  }

  /** should_alert, with the previous_ups_status before and after. */
  function Decide(values: map<string, NutValue>, config: AlertConfig, o: Oracles, previous: string): (Outcome<Verdict>, string) {
    match PrepareEnv(values, o.parseFloat)
    case Raised(e) => (Raised(e), previous)
    case Returned(env) => DecideMode(env, config, o, previous)
  }

  /** should_alert once prepare_ups_env has returned: the dispatch on alert_mode. */
  function DecideMode(env: Env, config: AlertConfig, o: Oracles, previous: string): (Outcome<Verdict>, string) {
    if config.alertMode.Missing? then
      (Returned(Verdict(true, "ups alert: configuration error - alert_mode not specified")), previous)
    else if config.alertMode == Given("basic") then
      var (alerts, previous') := BasicAlertList(config.basicAlerts, env, o, previous);
      match alerts
      case Raised(e) => (Raised(e), previous')
      case Returned(list) =>
        if |list| > 0 then (Returned(Verdict(true, "ups alert: " + Join("; ", list))), previous')
        else (Returned(Verdict(false, BasicOkMessage(env, o))), previous')
    else if config.alertMode == Given("formula") then
      (CheckFormulaAlert(config.formulaAlert, env, o), previous)
    else
      (Returned(Verdict(true, "ups alert: unknown alert mode '" + Render(config.alertMode, "") + "'")), previous)
  }

  /**
   * The decision in every mode: a missing or unknown mode (None included) always alerts,
   * basic mode alerts exactly when some rule produced a message and then lists them after
   * "ups alert: ", only basic mode without an exception moves previous_ups_status, and the
   * decision raises exactly when preparation, the basic checks or the formula raise.
   */
  lemma DecideSpec(values: map<string, NutValue>, config: AlertConfig, o: Oracles, previous: string)
    ensures var (r, _) := Decide(values, config, o, previous);
      r.Returned? && config.alertMode != Given("basic") && config.alertMode != Given("formula") ==> r.value.isAlerting
    ensures var (r, previous') := Decide(values, config, o, previous);
      r.Returned? && config.alertMode == Given("basic") ==>
        var (alerts, p) := BasicAlertList(config.basicAlerts, PrepareEnv(values, o.parseFloat).value, o, previous);
        && alerts.Returned?
        && previous' == p
        && (r.value.isAlerting <==> |alerts.value| > 0)
        && (r.value.isAlerting ==> r.value.message == "ups alert: " + Join("; ", alerts.value))
    ensures var (r, previous') := Decide(values, config, o, previous);
      config.alertMode != Given("basic") || r.Raised? ==> previous' == previous
    ensures Decide(values, config, o, previous).0.Raised? <==>
      || PrepareEnv(values, o.parseFloat).Raised?
      || (&& config.alertMode == Given("basic")
          && BasicAlertList(config.basicAlerts, PrepareEnv(values, o.parseFloat).value, o, previous).0.Raised?)
      || (&& config.alertMode == Given("formula")
          && CheckFormulaAlert(config.formulaAlert, PrepareEnv(values, o.parseFloat).value, o).Raised?)
  {
    var prepared := PrepareEnv(values, o.parseFloat);
    if prepared.Returned? {
      DecideModeSpec(prepared.value, config, o, previous);
    }
  }

  lemma DecideModeSpec(env: Env, config: AlertConfig, o: Oracles, previous: string)
    ensures var (r, _) := DecideMode(env, config, o, previous);
      r.Returned? && config.alertMode != Given("basic") && config.alertMode != Given("formula") ==> r.value.isAlerting
    ensures var (r, previous') := DecideMode(env, config, o, previous);
      r.Returned? && config.alertMode == Given("basic") ==>
        var (alerts, p) := BasicAlertList(config.basicAlerts, env, o, previous);
        && alerts.Returned?
        && previous' == p
        && (r.value.isAlerting <==> |alerts.value| > 0)
        && (r.value.isAlerting ==> r.value.message == "ups alert: " + Join("; ", alerts.value))
    ensures var (r, previous') := DecideMode(env, config, o, previous);
      config.alertMode != Given("basic") || r.Raised? ==> previous' == previous
    ensures DecideMode(env, config, o, previous).0.Raised? <==>
      || (config.alertMode == Given("basic") && BasicAlertList(config.basicAlerts, env, o, previous).0.Raised?)
      || (config.alertMode == Given("formula") && CheckFormulaAlert(config.formulaAlert, env, o).Raised?)
  {
    if config.alertMode == Given("basic") {
      BasicAlertListSpec(config.basicAlerts, env, o, previous);
    }
  }

  /** Every "not alerting" verdict, in either mode, is an "ups ok: " message. */
  lemma DecideOkMessage(values: map<string, NutValue>, config: AlertConfig, o: Oracles, previous: string)
    ensures var (r, _) := Decide(values, config, o, previous);
      r.Returned? && !r.value.isAlerting ==> StartsWith(r.value.message, "ups ok: ")
  {
    var prepared := PrepareEnv(values, o.parseFloat);
    if prepared.Returned? {
      OkMessagesStartOk(prepared.value, o);
      DecideModeOk(prepared.value, config, o, previous);
    }
  }

  lemma DecideModeOk(env: Env, config: AlertConfig, o: Oracles, previous: string)
    ensures var (r, _) := DecideMode(env, config, o, previous);
      r.Returned? && !r.value.isAlerting ==> r.value.message in {BasicOkMessage(env, o), FormulaOkMessage(env, o)}
  {
  }

  lemma OkMessagesStartOk(env: Env, o: Oracles)
    ensures StartsWith(BasicOkMessage(env, o), "ups ok: ") && StartsWith(FormulaOkMessage(env, o), "ups ok: ")
  {
    var b := BasicOkMessage(env, o);
    var f := FormulaOkMessage(env, o);
    assert b[..8] == "ups ok: ";
    assert f[..8] == "ups ok: ";
  }

  /**
   * The evaluator and the module-wide state it carries between calls. One field for the
   * whole process, shared by every device: the source keeps no per-device status.
   */
  class AlertEvaluator {
    var previousUpsStatus: string

    constructor()
      ensures previousUpsStatus == ""
    {
      previousUpsStatus := "";
    }

    /** _should_skip_due_to_unchanged_status. */
    method ShouldSkipDueToUnchangedStatus(rule: StatusRule, current: string) returns (skip: bool)
      modifies this
      ensures (skip, previousUpsStatus) == SkipStep(rule.alertWhenStatusChanged, current, old(previousUpsStatus))
    {
      if !rule.alertWhenStatusChanged {
        return false;
      }
      if current == previousUpsStatus {
        return true;
      }
      previousUpsStatus := current;
      return false;
    }

    /** check_ups_status. */
    method CheckUpsStatus(rule: StatusRule, env: Env) returns (alert: Outcome<Option<string>>)
      modifies this
      ensures (alert, previousUpsStatus) == StatusCheck(rule, env.upsStatus, old(previousUpsStatus))
    {
      if env.upsStatus == "" {
        return Returned(None);
      }
      if rule.acceptable.Missing? {
        return Returned(Some("config error: acceptable ups statuses not defined"));
      }
      if rule.acceptable.Null? {
        return Raised("TypeError");
      }
      if env.upsStatus !in rule.acceptable.value {
        var message := Render(rule.message, "ups status not in acceptable list");
        var skip := ShouldSkipDueToUnchangedStatus(rule, env.upsStatus);
        if skip {
          return Returned(None);
        }
        return Returned(Some(message + " (" + env.upsStatus + ")"));
      }
      return Returned(None);
    }

    /** check_basic_alerts: appends each enabled rule's message in order; an exception escapes. */
    method CheckBasicAlerts(basic: Option<BasicAlerts>, env: Env, o: Oracles) returns (alerts: Outcome<seq<string>>)
      modifies this
      ensures (alerts, previousUpsStatus) == BasicAlertList(basic, env, o, old(previousUpsStatus))
    {
      if basic.None? {
        return Returned(["config error: basic_alerts not specified"]);
      }
      var b := basic.value;
      var triggered := ThresholdAlerts(b, env, o);
      if triggered.Raised? {
        return triggered;
      }
      ghost var previous := previousUpsStatus;
      var list := triggered.value;
      if b.upsStatus.Some? && b.upsStatus.value.enabled {
        var alert := CheckUpsStatus(b.upsStatus.value, env);
        if alert.Raised? {
          return Raised(alert.exception);
        }
        list := AppendIfSet(list, alert.value);
      } else {
        assert list + [] == list;
      }
      alerts := Returned(list);
      var (status, previous') := StatusAlerts(b, env, previous);
      assert Then(triggered, status) == alerts;
    }

    /** The four threshold rules of check_basic_alerts, in order; they leave the global alone. */
    method ThresholdAlerts(b: BasicAlerts, env: Env, o: Oracles) returns (alerts: Outcome<seq<string>>)
      ensures alerts == Then(Then(Then(ChargeAlerts(b, env), RuntimeAlerts(b, env, o)), LoadAlerts(b, env, o)),
        VoltageAlerts(b, env, o))
    {
      var list: seq<string> := [];
      if IsEnabled(b.batteryCharge) {
        var alert := CheckBatteryCharge(b.batteryCharge.value, env);
        if alert.Raised? {
          return Raised(alert.exception);
        }
        list := AppendIfSet(list, alert.value);
        assert list == Kept(alert.value);
      }
      assert Returned(list) == ChargeAlerts(b, env);
      if IsEnabled(b.runtime) {
        var alert := CheckRuntime(b.runtime.value, env, o);
        if alert.Raised? {
          return Raised(alert.exception);
        }
        list := AppendIfSet(list, alert.value);
      } else {
        assert list + [] == list;
      }
      assert Returned(list) == Then(ChargeAlerts(b, env), RuntimeAlerts(b, env, o));
      if IsEnabled(b.load) {
        var alert := CheckLoad(b.load.value, env, o);
        if alert.Raised? {
          return Raised(alert.exception);
        }
        list := AppendIfSet(list, alert.value);
      } else {
        assert list + [] == list;
      }
      assert Returned(list) == Then(Then(ChargeAlerts(b, env), RuntimeAlerts(b, env, o)), LoadAlerts(b, env, o));
      if IsEnabled(b.inputVoltage) {
        var alert := CheckInputVoltage(b.inputVoltage.value, env, o);
        if alert.Raised? {
          return Raised(alert.exception);
        }
        list := AppendIfSet(list, alert.value);
      } else {
        assert list + [] == list;
      }
      return Returned(list);
    }

    /** should_alert. */
    method ShouldAlert(values: map<string, NutValue>, config: AlertConfig, o: Oracles) returns (r: Outcome<Verdict>)
      modifies this
      ensures (r, previousUpsStatus) == Decide(values, config, o, old(previousUpsStatus))
    {
      var prepared := PrepareEnv(values, o.parseFloat);
      if prepared.Raised? {
        return Raised(prepared.exception);
      }
      var env := prepared.value;
      if config.alertMode.Missing? {
        return Returned(Verdict(true, "ups alert: configuration error - alert_mode not specified"));
      }
      var mode := config.alertMode;
      if mode == Given("basic") {
        var alerts := CheckBasicAlerts(config.basicAlerts, env, o);
        if alerts.Raised? {
          return Raised(alerts.exception);
        }
        if |alerts.value| > 0 {
          return Returned(Verdict(true, "ups alert: " + Join("; ", alerts.value)));
        }
        return Returned(Verdict(false, BasicOkMessage(env, o)));
      } else if mode == Given("formula") {
        return CheckFormulaAlert(config.formulaAlert, env, o);
      }
      return Returned(Verdict(true, "ups alert: unknown alert mode '" + Render(mode, "") + "'"));
    }
  }
}
