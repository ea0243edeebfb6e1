/**
 * nutalert/ui/models.py: the configuration records the settings page validates against.
 * A document is a tree of plain values; validating it against a record either gives the
 * record (defaults filled in, unknown keys ignored) or rejects it. Dumping a record gives
 * the document it would be written back as, and the round-trip lemmas tie the two together.
 */
module Schema {
  import opened Common

  /** A value of a parsed configuration document. */
  datatype Doc =
    | Null
    | Flag(b: bool)
    | Whole(i: int)
    | Decimal(r: real)
    | Str(s: string)
    | Items(items: seq<Doc>)
    | Fields(fields: map<string, Doc>)

  datatype MinMaxAlert = MinMaxAlert(enabled: bool, min: Option<real>, max: Option<real>, message: Option<string>)

  datatype StatusAlert = StatusAlert(enabled: bool, acceptable: seq<string>, message: Option<string>, alertWhenStatusChanged: bool)

  datatype BasicAlerts = BasicAlerts(
    batteryCharge: Option<MinMaxAlert>,
    runtime: Option<MinMaxAlert>,
    load: Option<MinMaxAlert>,
    inputVoltage: Option<MinMaxAlert>,
    upsStatus: Option<StatusAlert>)

  datatype NutServerConfig = NutServerConfig(host: string, port: int, checkInterval: int) {
    /** The field constraints: `port` in 1..65535 and `check_interval` at least 5. */
    predicate Valid() {
      0 < port <= 65535 && checkInterval >= 5
    }
  }

  datatype FormulaAlert = FormulaAlert(message: string, expression: string)

  datatype NotificationsConfig = NotificationsConfig(enabled: bool, cooldown: int, urls: seq<map<string, Doc>>)

  datatype AppConfig = AppConfig(upsDevices: map<string, Doc>, nutServer: NutServerConfig, notifications: Option<NotificationsConfig>) {
    predicate Valid() {
      nutServer.Valid()
    }
  }

  /* ---------- Field readers: absent or wrongly typed fields ---------- */

  /** A field read from a document object: missing, present with a value of the field's type, or present with some other value. */
  datatype Read<+T> = Missing | Value(v: T) | Wrong

  function ReadBool(m: map<string, Doc>, key: string): (r: Read<bool>)
    ensures r.Missing? <==> key !in m
    ensures r.Value? <==> key in m && m[key].Flag?
  {
    if key !in m then Missing else if m[key].Flag? then Value(m[key].b) else Wrong
  }

  function ReadInt(m: map<string, Doc>, key: string): (r: Read<int>)
    ensures r.Missing? <==> key !in m
    ensures r.Value? <==> key in m && m[key].Whole?
  {
    if key !in m then Missing else if m[key].Whole? then Value(m[key].i) else Wrong
  }

  function ReadStr(m: map<string, Doc>, key: string): (r: Read<string>)
    ensures r.Missing? <==> key !in m
    ensures r.Value? <==> key in m && m[key].Str?
  {
    if key !in m then Missing else if m[key].Str? then Value(m[key].s) else Wrong
  }

  /** An `Optional[float]` field: null reads as None, and an integer is accepted as a float. */
  function ReadOptReal(m: map<string, Doc>, key: string): (r: Read<Option<real>>)
    ensures r == Wrong <==> key in m && !(m[key].Null? || m[key].Whole? || m[key].Decimal?)
  {
    if key !in m || m[key].Null? then Value(None)
    else if m[key].Whole? then Value(Some(m[key].i as real))
    else if m[key].Decimal? then Value(Some(m[key].r))
    else Wrong
  }

  /** An `Optional[str]` field. */
  function ReadOptStr(m: map<string, Doc>, key: string): (r: Read<Option<string>>)
    ensures r == Wrong <==> key in m && !(m[key].Null? || m[key].Str?)
  {
    if key !in m || m[key].Null? then Value(None)
    else if m[key].Str? then Value(Some(m[key].s))
    else Wrong
  }

  /** A field with a default: absence gives the default. */
  function OrDefault<T>(r: Read<T>, default: T): Read<T> {
    if r.Missing? then Value(default) else r
  }

  predicate AllStr(items: seq<Doc>) {
    forall k :: 0 <= k < |items| ==> items[k].Str?
  }

  function Strs(items: seq<Doc>): (r: seq<string>)
    requires AllStr(items)
    ensures |r| == |items| && forall k :: 0 <= k < |items| ==> r[k] == items[k].s
  {
    if |items| == 0 then [] else [items[0].s] + Strs(items[1..])
  }

  /** A `List[str]` field. */
  function ReadStrList(m: map<string, Doc>, key: string): Read<seq<string>> {
    if key !in m then Missing
    else if m[key].Items? && AllStr(m[key].items) then Value(Strs(m[key].items))
    else Wrong
  }

  /* ---------- Validation ---------- */

  function ValidateMinMax(d: Doc): Option<MinMaxAlert> {
    if !d.Fields? then None
    else
      var enabled := OrDefault(ReadBool(d.fields, "enabled"), false);
      var min := ReadOptReal(d.fields, "min");
      var max := ReadOptReal(d.fields, "max");
      var message := ReadOptStr(d.fields, "message");
      if enabled.Value? && min.Value? && max.Value? && message.Value? then
        Some(MinMaxAlert(enabled.v, min.v, max.v, message.v))
      else None
  }

  function ValidateStatus(d: Doc): Option<StatusAlert> {
    if !d.Fields? then None
    else
      var enabled := OrDefault(ReadBool(d.fields, "enabled"), false);
      var acceptable := OrDefault(ReadStrList(d.fields, "acceptable"), []);
      var message := ReadOptStr(d.fields, "message");
      var changed := OrDefault(ReadBool(d.fields, "alert_when_status_changed"), false);
      if enabled.Value? && acceptable.Value? && message.Value? && changed.Value? then
        Some(StatusAlert(enabled.v, acceptable.v, message.v, changed.v))
      else None
  }

  /** An optional nested record: absent or null gives None, anything else must validate. */
  function OptionalMinMax(m: map<string, Doc>, key: string): Read<Option<MinMaxAlert>> {
    if key !in m || m[key].Null? then Value(None)
    else
      var a := ValidateMinMax(m[key]);
      if a.Some? then Value(Some(a.value)) else Wrong
  }

  function ValidateBasicAlerts(d: Doc): Option<BasicAlerts> {
    if !d.Fields? then None
    else
      var charge := OptionalMinMax(d.fields, "battery_charge");
      var runtime := OptionalMinMax(d.fields, "runtime");
      var load := OptionalMinMax(d.fields, "load");
      var voltage := OptionalMinMax(d.fields, "input_voltage");
      var status :=
        if "ups_status" !in d.fields || d.fields["ups_status"].Null? then Value(None)
        else
          var s := ValidateStatus(d.fields["ups_status"]);
          if s.Some? then Value(Some(s.value)) else Wrong;
      if charge.Value? && runtime.Value? && load.Value? && voltage.Value? && status.Value? then
        Some(BasicAlerts(charge.v, runtime.v, load.v, voltage.v, status.v))
      else None
  }

  function ValidateNutServer(d: Doc): Option<NutServerConfig> {
    if !d.Fields? then None
    else
      var host := ReadStr(d.fields, "host");
      var port := ReadInt(d.fields, "port");
      var interval := ReadInt(d.fields, "check_interval");
      if host.Value? && port.Value? && interval.Value? && 0 < port.v <= 65535 && interval.v >= 5 then
        Some(NutServerConfig(host.v, port.v, interval.v))
      else None
  }

  function ValidateFormula(d: Doc): Option<FormulaAlert> {
    if !d.Fields? then None
    else
      var message := ReadStr(d.fields, "message");
      var expression := ReadStr(d.fields, "expression");
      if message.Value? && expression.Value? then Some(FormulaAlert(message.v, expression.v)) else None
  }

  predicate AllFields(items: seq<Doc>) {
    forall k :: 0 <= k < |items| ==> items[k].Fields?
  }

  function FieldMaps(items: seq<Doc>): (r: seq<map<string, Doc>>)
    requires AllFields(items)
    ensures |r| == |items| && forall k :: 0 <= k < |items| ==> r[k] == items[k].fields
  {
    if |items| == 0 then [] else [items[0].fields] + FieldMaps(items[1..])
  }

  function ValidateNotifications(d: Doc): Option<NotificationsConfig> {
    if !d.Fields? then None
    else
      var enabled := ReadBool(d.fields, "enabled");
      var cooldown := ReadInt(d.fields, "cooldown");
      var urls :=
        if "urls" in d.fields && d.fields["urls"].Items? && AllFields(d.fields["urls"].items)
        then Value(FieldMaps(d.fields["urls"].items))
        else Wrong;
      if enabled.Value? && cooldown.Value? && urls.Value? then Some(NotificationsConfig(enabled.v, cooldown.v, urls.v)) else None
  }

  function ValidateAppConfig(d: Doc): Option<AppConfig> {
    if !d.Fields? || "ups_devices" !in d.fields || !d.fields["ups_devices"].Fields? || "nut_server" !in d.fields then None
    else
      var server := ValidateNutServer(d.fields["nut_server"]);
      var notifications :=
        if "notifications" !in d.fields || d.fields["notifications"].Null? then Value(None)
        else
          var n := ValidateNotifications(d.fields["notifications"]);
          if n.Some? then Value(Some(n.value)) else Wrong;
      if server.Some? && notifications.Value? then
        Some(AppConfig(d.fields["ups_devices"].fields, server.value, notifications.v))
      else None
  }

  /* ---------- Dumping a record back to a document ---------- */

  function OptReal(x: Option<real>): Doc {
    if x.Some? then Decimal(x.value) else Null
  }

  function OptStr(x: Option<string>): Doc {
    if x.Some? then Str(x.value) else Null
  }

  function StrItems(items: seq<string>): (r: seq<Doc>)
    ensures |r| == |items| && forall k :: 0 <= k < |items| ==> r[k] == Str(items[k])
  {
    if |items| == 0 then [] else [Str(items[0])] + StrItems(items[1..])
  }

  function DumpMinMax(a: MinMaxAlert): Doc {
    Fields(map["enabled" := Flag(a.enabled), "min" := OptReal(a.min), "max" := OptReal(a.max), "message" := OptStr(a.message)])
  }

  function DumpStatus(a: StatusAlert): Doc {
    Fields(map["enabled" := Flag(a.enabled), "acceptable" := Items(StrItems(a.acceptable)), "message" := OptStr(a.message),
               "alert_when_status_changed" := Flag(a.alertWhenStatusChanged)])
  }

  function DumpNutServer(c: NutServerConfig): Doc {
    Fields(map["host" := Str(c.host), "port" := Whole(c.port), "check_interval" := Whole(c.checkInterval)])
  }

  function DumpFormula(f: FormulaAlert): Doc {
    Fields(map["message" := Str(f.message), "expression" := Str(f.expression)])
  }

  function FieldItems(maps: seq<map<string, Doc>>): (r: seq<Doc>)
    ensures |r| == |maps| && forall k :: 0 <= k < |maps| ==> r[k] == Fields(maps[k])
  {
    if |maps| == 0 then [] else [Fields(maps[0])] + FieldItems(maps[1..])
  }

  function DumpNotifications(n: NotificationsConfig): Doc {
    Fields(map["enabled" := Flag(n.enabled), "cooldown" := Whole(n.cooldown), "urls" := Items(FieldItems(n.urls))])
  }

  /* ---------- Properties ---------- */

  /** Every field of MinMaxAlert is optional: the empty object gives a disabled rule with no bounds and no message. */
  lemma MinMaxDefaults()
    ensures ValidateMinMax(Fields(map[])) == Some(MinMaxAlert(false, None, None, None))
  {
  }

  /** StatusAlert's defaults: disabled, nothing acceptable, no message, no change-only suppression. */
  lemma StatusDefaults()
    ensures ValidateStatus(Fields(map[])) == Some(StatusAlert(false, [], None, false))
  {
  }

  /** A missing field of MinMaxAlert takes its default and a present one is kept. */
  lemma MinMaxFields(m: map<string, Doc>)
    ensures var r := ValidateMinMax(Fields(m));
      r.Some? ==>
        && r.value.enabled == ("enabled" in m && m["enabled"].b)
        && ("min" !in m ==> r.value.min.None?)
        && ("max" !in m ==> r.value.max.None?)
        && ("message" !in m ==> r.value.message.None?)
    ensures var r := ValidateMinMax(Fields(m));
      r.None? <==>
        || ("enabled" in m && !m["enabled"].Flag?)
        || ReadOptReal(m, "min") == Wrong
        || ReadOptReal(m, "max") == Wrong
        || ReadOptStr(m, "message") == Wrong
  {
  }

  /** Writing a rule out and reading it back gives the same rule. */
  lemma MinMaxRoundTrip(a: MinMaxAlert)
    ensures ValidateMinMax(DumpMinMax(a)) == Some(a)
  {
    var m := DumpMinMax(a).fields;
    assert |"enabled"| == 7 && |"min"| == 3 && |"max"| == 3 && |"message"| == 7;
    assert "min" != "max";
    assert ReadBool(m, "enabled") == Value(a.enabled);
    assert ReadOptReal(m, "min") == Value(a.min);
    assert ReadOptReal(m, "max") == Value(a.max);
    assert ReadOptStr(m, "message") == Value(a.message);
  }

  lemma {:induction false} StrsOfStrItems(items: seq<string>)
    ensures AllStr(StrItems(items)) && Strs(StrItems(items)) == items
  {
    var d := StrItems(items);
    assert AllStr(d);
    var back := Strs(d);
    assert |back| == |items|;
    assert forall k :: 0 <= k < |items| ==> back[k] == items[k];
  }

  lemma StatusAlertRoundTrip(a: StatusAlert)
    ensures ValidateStatus(DumpStatus(a)) == Some(a)
  {
    var m := DumpStatus(a).fields;
    assert |"enabled"| == 7 && |"acceptable"| == 10 && |"message"| == 7 && |"alert_when_status_changed"| == 25;
    StrsOfStrItems(a.acceptable);
    assert ReadBool(m, "enabled") == Value(a.enabled);
    assert ReadStrList(m, "acceptable") == Value(a.acceptable);
    assert ReadOptStr(m, "message") == Value(a.message);
    assert ReadBool(m, "alert_when_status_changed") == Value(a.alertWhenStatusChanged);
  }

  lemma {:induction false} FieldMapsOfFieldItems(maps: seq<map<string, Doc>>)
    ensures AllFields(FieldItems(maps)) && FieldMaps(FieldItems(maps)) == maps
  {
    var d := FieldItems(maps);
    assert AllFields(d);
    var back := FieldMaps(d);
    assert |back| == |maps|;
    assert forall k :: 0 <= k < |maps| ==> back[k] == maps[k];
  }

  /** Dumping a notifications section and validating the dump gives it back, URL objects included. */
  lemma NotificationsRoundTrip(n: NotificationsConfig)
    ensures ValidateNotifications(DumpNotifications(n)) == Some(n)
  {
    var m := DumpNotifications(n).fields;
    assert |"enabled"| == 7 && |"cooldown"| == 8 && |"urls"| == 4;
    FieldMapsOfFieldItems(n.urls);
    assert ReadBool(m, "enabled") == Value(n.enabled);
    assert ReadInt(m, "cooldown") == Value(n.cooldown);
  }

  /** Every field of NotificationsConfig is required: a section missing one of them is rejected. */
  lemma NotificationsRequireAll(d: Doc)
    ensures ValidateNotifications(d).Some? ==>
      d.Fields? && "enabled" in d.fields && "cooldown" in d.fields && "urls" in d.fields
  {
  }

  /** The NUT server section is accepted exactly when host, port and interval are there, typed, and in range. */
  lemma NutServerAccepted(d: Doc)
    ensures ValidateNutServer(d).Some? <==>
      && d.Fields?
      && "host" in d.fields && d.fields["host"].Str?
      && "port" in d.fields && d.fields["port"].Whole? && 0 < d.fields["port"].i <= 65535
      && "check_interval" in d.fields && d.fields["check_interval"].Whole? && d.fields["check_interval"].i >= 5
    ensures ValidateNutServer(d).Some? ==> ValidateNutServer(d).value.Valid()
  {
  }

  /** A server section round-trips exactly when it satisfies the field constraints. */
  lemma NutServerRoundTrip(c: NutServerConfig)
    ensures ValidateNutServer(DumpNutServer(c)).Some? <==> c.Valid()
    ensures c.Valid() ==> ValidateNutServer(DumpNutServer(c)) == Some(c)
  {
    var m := DumpNutServer(c).fields;
    assert |"host"| == 4 && |"port"| == 4 && |"check_interval"| == 14;
    assert "host" != "port";
    assert ReadStr(m, "host") == Value(c.host);
    assert ReadInt(m, "port") == Value(c.port);
    assert ReadInt(m, "check_interval") == Value(c.checkInterval);
  }

  /** A formula section needs both its message and its expression, as strings. */
  lemma FormulaRequiresBoth(d: Doc)
    ensures ValidateFormula(d).Some? <==>
      d.Fields? && "message" in d.fields && d.fields["message"].Str? && "expression" in d.fields && d.fields["expression"].Str?
    ensures ValidateFormula(d).Some? ==>
      ValidateFormula(d).value == FormulaAlert(d.fields["message"].s, d.fields["expression"].s)
  {
  }

  lemma FormulaRoundTrip(f: FormulaAlert)
    ensures ValidateFormula(DumpFormula(f)) == Some(f)
  {
    assert |"message"| == 7 && |"expression"| == 10;
  }

  /** The empty basic-alerts object is valid: every rule is optional. */
  lemma BasicAlertsAllOptional()
    ensures ValidateBasicAlerts(Fields(map[])) == Some(BasicAlerts(None, None, None, None, None))
  {
  }

  /**
   * The application config needs `ups_devices` (an object) and a valid `nut_server`;
   * `notifications` may be absent or null. Whatever it accepts satisfies the constraints.
   */
  lemma AppConfigRequired(d: Doc)
    ensures ValidateAppConfig(d).Some? ==>
      && d.Fields? && "ups_devices" in d.fields && d.fields["ups_devices"].Fields?
      && "nut_server" in d.fields && ValidateNutServer(d.fields["nut_server"]).Some?
    ensures ValidateAppConfig(d).Some? ==> ValidateAppConfig(d).value.Valid()
    ensures d.Fields? && "ups_devices" in d.fields && d.fields["ups_devices"].Fields?
      && "nut_server" in d.fields && ValidateNutServer(d.fields["nut_server"]).Some?
      && ("notifications" !in d.fields || d.fields["notifications"].Null?)
      ==> ValidateAppConfig(d).Some? && ValidateAppConfig(d).value.notifications.None?
  {
    if ValidateAppConfig(d).Some? {
      NutServerAccepted(d.fields["nut_server"]);
    }
  }
}
