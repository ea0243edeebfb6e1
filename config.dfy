/**
 * nutalert/config.py: the module-level defaults DEFAULT_UPS_CONFIG and DEFAULT_CONFIG,
 * the device merge of load_config in its two branches (no configuration file, and a parsed
 * YAML document), and the result text of save_config. The file system, the YAML codec and
 * the network discovery of UPS names are outside the model: the parsed document and the
 * discovered names are inputs (discovery is a function of the host and port it is given),
 * and saving is reduced to the error it may raise.
 *
 * Dictionaries are heap objects (PyDicts.Dict), so the shallow `.copy()` calls of the
 * source show their effect: a new device entry is a new dictionary whose nested rule
 * dictionaries are those of DEFAULT_UPS_CONFIG, and without a file the merge writes into
 * DEFAULT_CONFIG's own `ups_devices` dictionary.
 */
module Config {
  import opened Common
  import opened PyDicts

  /**
   * Discovery of UPS names (fetch_nut_ups_names), given the host and port values it is passed.
   * nutalert/fetcher.py does not define that function, so the import at config.py:5 fails as
   * written; the model takes it to exist and to return the names the server lists.
   */
  type Discovery = (Value, Value) -> seq<string>

  const DefaultPort: int := 3493

  /** The dictionary under "ups_devices", when that entry holds a dictionary. */
  function DeviceDict(entries: map<string, Value>): Option<Dict> {
    if "ups_devices" in entries && entries["ups_devices"].Ref? then Some(entries["ups_devices"].dict) else None
  }

  /** The top-level entries of a parsed document; a document that is not a mapping counts as {}. */
  function DocEntries(doc: Value): map<string, Value>
    reads if doc.Ref? then {doc.dict} else {}
  {
    if doc.Ref? then doc.dict.entries else map[]
  }

  /** The dictionaries of a parsed document that the merge may write: the document itself and its `ups_devices`. */
  function DocObjects(doc: Value): set<object>
    reads if doc.Ref? then {doc.dict} else {}
  {
    if !doc.Ref? then {}
    else if DeviceDict(doc.dict.entries).Some? then {doc.dict, DeviceDict(doc.dict.entries).value}
    else {doc.dict}
  }

  /** The devices already present in a parsed document, or none when `ups_devices` is missing or not a mapping. */
  function ExistingDevices(doc: Value): map<string, Value>
    reads if doc.Ref? then {doc.dict} else {}
    reads if doc.Ref? && DeviceDict(doc.dict.entries).Some? then {DeviceDict(doc.dict.entries).value} else {}
  {
    if doc.Ref? && DeviceDict(doc.dict.entries).Some? then DeviceDict(doc.dict.entries).value.entries else map[]
  }

  /**
   * The host and port passed to discovery for a parsed document:
   * `config.get("nut_server", {}).get("host", "")` and `.get("port", 3493)`; a `nut_server`
   * that is not a mapping has no `.get`, and the lookup raises AttributeError.
   */
  function DiscoveryTarget(entries: map<string, Value>): (r: Outcome<(Value, Value)>)
    reads if "nut_server" in entries && entries["nut_server"].Ref? then {entries["nut_server"].dict} else {}
    ensures r.Raised? <==> "nut_server" in entries && !entries["nut_server"].Ref?
  {
    if "nut_server" !in entries then Returned((Text(""), Int(DefaultPort)))
    else match entries["nut_server"]
      case Ref(d) => Returned((d.Get("host", Text("")), d.Get("port", Int(DefaultPort))))
      case _ => Raised("AttributeError")
  }

  /** Discovery falls back to host "" and port 3493 for whichever of the two is absent. */
  lemma DiscoveryDefaults(entries: map<string, Value>)
    requires "nut_server" !in entries || entries["nut_server"].Ref?
    ensures DiscoveryTarget(entries).Returned?
    ensures "nut_server" !in entries ==> DiscoveryTarget(entries).value == (Text(""), Int(3493))
    ensures "nut_server" in entries ==>
      var d := entries["nut_server"].dict;
      && ("host" !in d.entries ==> DiscoveryTarget(entries).value.0 == Text(""))
      && ("host" in d.entries ==> DiscoveryTarget(entries).value.0 == d.entries["host"])
      && ("port" !in d.entries ==> DiscoveryTarget(entries).value.1 == Int(3493))
      && ("port" in d.entries ==> DiscoveryTarget(entries).value.1 == d.entries["port"])
  {
  }

  /** The elements of a sequence of names, as a set. */
  function Names(names: seq<string>, n: nat): set<string>
    requires n <= |names|
  {
    set j | 0 <= j < n :: names[j]
  }

  /** The module `nutalert.config` with its two module-level default dictionaries. */
  class ConfigStore {
    /** DEFAULT_UPS_CONFIG. */
    const defaultUpsConfig: Dict
    /** DEFAULT_CONFIG, with its `nut_server` and `ups_devices` dictionaries. */
    const defaultConfig: Dict
    const defaultNutServer: Dict
    const defaultDevices: Dict
    /** DEFAULT_UPS_CONFIG["basic_alerts"] and its "battery_charge" rule. */
    const defaultBasicAlerts: Dict
    const defaultChargeRule: Dict

    /** The default dictionaries, each distinct from the others. */
    function StoreObjects(): set<object>
      reads this
    {
      {defaultUpsConfig, defaultConfig, defaultNutServer, defaultDevices, defaultBasicAlerts, defaultChargeRule}
    }

    ghost predicate Valid()
      reads this, defaultConfig, defaultNutServer, defaultUpsConfig, defaultBasicAlerts
    {
      && "nut_server" in defaultConfig.entries && defaultConfig.entries["nut_server"] == Ref(defaultNutServer)
      && "ups_devices" in defaultConfig.entries && defaultConfig.entries["ups_devices"] == Ref(defaultDevices)
      && "host" in defaultNutServer.entries && "port" in defaultNutServer.entries
      && "basic_alerts" in defaultUpsConfig.entries && defaultUpsConfig.entries["basic_alerts"] == Ref(defaultBasicAlerts)
      && "battery_charge" in defaultBasicAlerts.entries && defaultBasicAlerts.entries["battery_charge"] == Ref(defaultChargeRule)
      && defaultDevices !in {defaultConfig, defaultNutServer, defaultUpsConfig, defaultBasicAlerts}
      && defaultChargeRule !in {defaultUpsConfig, defaultBasicAlerts}
    }

    /** A device entry made by `DEFAULT_UPS_CONFIG.copy()`: a dictionary with exactly the default's entries. */
    predicate IsDefaultCopy(v: Value)
      reads this, defaultUpsConfig
      reads if v.Ref? then {v.dict} else {}
    {
      v.Ref? && v.dict.entries == defaultUpsConfig.entries
    }

    /** The module-level dictionaries as the source initialises them. */
    constructor()
      ensures Valid()
      ensures fresh(StoreObjects())
      ensures defaultConfig.entries.Keys == {"nut_server", "notifications", "ups_devices"}
      ensures defaultNutServer.entries == map["host" := Text("10.0.10.101"), "port" := Int(3493), "check_interval" := Int(15)]
      ensures defaultDevices.entries == map[]
      ensures defaultUpsConfig.entries.Keys == {"alert_mode", "gauge_settings", "basic_alerts", "formula_alert"}
      ensures defaultUpsConfig.entries["alert_mode"] == Text("basic")
      ensures defaultBasicAlerts.entries.Keys == {"battery_charge", "runtime", "load", "input_voltage", "ups_status"}
      ensures defaultChargeRule.entries == DefaultChargeRule()
    {
      var ups, basic, charge := NewDefaultUpsConfig();
      var top, nut, devices := NewDefaultConfig();
      defaultUpsConfig := ups;
      defaultConfig := top;
      defaultNutServer := nut;
      defaultDevices := devices;
      defaultBasicAlerts := basic;
      defaultChargeRule := charge;
    }

    /** `devices[name] = DEFAULT_UPS_CONFIG.copy()` for every name in turn, overwriting. */
    method StoreDefaults(devices: Dict, names: seq<string>)
      requires devices != defaultUpsConfig
      modifies devices
      ensures devices.entries.Keys == old(devices.entries).Keys + Names(names, |names|)
      ensures forall k :: k in old(devices.entries) && k !in names ==> devices.entries[k] == old(devices.entries)[k]
      ensures forall k :: k in names ==> IsDefaultCopy(devices.entries[k]) && fresh(devices.entries[k].dict)
    {
      for i := 0 to |names|
        invariant devices.entries.Keys == old(devices.entries).Keys + Names(names, i)
        invariant forall k :: k in old(devices.entries) && k !in names[..i] ==> devices.entries[k] == old(devices.entries)[k]
        invariant forall k :: k in names[..i] ==> IsDefaultCopy(devices.entries[k]) && fresh(devices.entries[k].dict)
      {
        var entry := defaultUpsConfig.Copy();
        devices.Set(names[i], Ref(entry));
        assert names[..i + 1] == names[..i] + [names[i]];
      }
      assert names[..|names|] == names;
    }

    /** `if name not in devices: devices[name] = DEFAULT_UPS_CONFIG.copy()` for every name in turn. */
    method AddMissingDefaults(devices: Dict, names: seq<string>)
      requires devices != defaultUpsConfig
      modifies devices
      ensures devices.entries.Keys == old(devices.entries).Keys + Names(names, |names|)
      ensures forall k :: k in old(devices.entries) ==> devices.entries[k] == old(devices.entries)[k]
      ensures forall k :: k in devices.entries && k !in old(devices.entries) ==> IsDefaultCopy(devices.entries[k]) && fresh(devices.entries[k].dict)
    {
      for i := 0 to |names|
        invariant devices.entries.Keys == old(devices.entries).Keys + Names(names, i)
        invariant forall k :: k in old(devices.entries) ==> devices.entries[k] == old(devices.entries)[k]
        invariant forall k :: k in devices.entries && k !in old(devices.entries) ==> IsDefaultCopy(devices.entries[k]) && fresh(devices.entries[k].dict)
      {
        if names[i] !in devices.entries {
          var entry := defaultUpsConfig.Copy();
          devices.Set(names[i], Ref(entry));
        }
      }
    }

    /**
     * load_config when no configuration file exists: a shallow copy of DEFAULT_CONFIG, with
     * a fresh shallow copy of DEFAULT_UPS_CONFIG stored under every discovered name. The
     * copy shares DEFAULT_CONFIG's `ups_devices` dictionary, so the names land in
     * DEFAULT_CONFIG itself, and a name already there is overwritten.
     */
    method LoadConfigWithoutFile(discover: Discovery) returns (config: Dict)
      requires Valid()
      modifies defaultDevices
      ensures Valid()
      ensures fresh(config) && config.entries == defaultConfig.entries
      ensures config.entries["ups_devices"] == Ref(defaultDevices)
      ensures var names := discover(defaultNutServer.entries["host"], defaultNutServer.entries["port"]);
        && defaultDevices.entries.Keys == old(defaultDevices.entries).Keys + Names(names, |names|)
        && (forall k :: k in old(defaultDevices.entries) && k !in names ==> defaultDevices.entries[k] == old(defaultDevices.entries)[k])
        && (forall k :: k in names ==> IsDefaultCopy(defaultDevices.entries[k]) && fresh(defaultDevices.entries[k].dict))
    {
      config := defaultConfig.Copy();
      var nut := config.entries["nut_server"].dict;
      var names := discover(nut.entries["host"], nut.entries["port"]);
      var devices := config.entries["ups_devices"].dict;
      StoreDefaults(devices, names);
    }

    /**
     * load_config on a parsed YAML document: a document that is not a mapping is replaced
     * by {}, discovery is asked about the document's server (raising when `nut_server` is
     * not a mapping), a missing or non-mapping `ups_devices` is replaced by {}, and a fresh
     * shallow copy of DEFAULT_UPS_CONFIG is added for every discovered name not already
     * there. The document is updated in place and returned. YAML loading builds new
     * objects, so the document shares nothing with the module's defaults.
     */
    method LoadConfigFromDocument(doc: Value, discover: Discovery) returns (r: Outcome<Dict>)
      requires Valid()
      requires DocObjects(doc) !! StoreObjects()
      requires doc.Ref? && DeviceDict(doc.dict.entries).Some? ==> DeviceDict(doc.dict.entries).value != doc.dict
      modifies DocObjects(doc)
      ensures Valid()
      ensures r.Raised? <==> old(DiscoveryTarget(DocEntries(doc))).Raised?
      ensures r.Raised? ==> unchanged(old(DocObjects(doc)))
      ensures r.Returned? ==> (if doc.Ref? then r.value == doc.dict else fresh(r.value))
      ensures r.Returned? ==>
        var target := old(DiscoveryTarget(DocEntries(doc))).value;
        var names := discover(target.0, target.1);
        var before := old(ExistingDevices(doc));
        && "ups_devices" in r.value.entries && r.value.entries["ups_devices"].Ref?
        && var devices := r.value.entries["ups_devices"].dict;
        && r.value.entries == old(DocEntries(doc))["ups_devices" := Ref(devices)]
        && devices.entries.Keys == before.Keys + Names(names, |names|)
        && (forall k :: k in before ==> devices.entries[k] == before[k])
        && (forall k :: k in devices.entries && k !in before ==> IsDefaultCopy(devices.entries[k]) && fresh(devices.entries[k].dict))
    {
      var config := AsMapping(doc);
      var target := DiscoveryTarget(config.entries);
      if target.Raised? {
        return Raised(target.exception);
      }
      var names := discover(target.value.0, target.value.1);
      var devices := DeviceMapping(config);
      AddMissingDefaults(devices, names);
      r := Returned(config);
    }
  }

  /** The battery-charge rule of DEFAULT_UPS_CONFIG. */
  function DefaultChargeRule(): map<string, Value> {
    map["enabled" := Bool(true), "min" := Int(90), "message" := Text("UPS battery charge below minimum threshold")]
  }

  /** The other rules of DEFAULT_UPS_CONFIG["basic_alerts"]. */
  function DefaultRuntimeRule(): map<string, Value> {
    map["enabled" := Bool(true), "min" := Int(15), "message" := Text("UPS runtime below minimum threshold")]
  }

  function DefaultLoadRule(): map<string, Value> {
    map["enabled" := Bool(true), "max" := Int(50), "message" := Text("UPS load exceeds maximum threshold")]
  }

  function DefaultVoltageRule(): map<string, Value> {
    map["enabled" := Bool(false), "min" := Real(110.0), "max" := Real(130.0), "message" := Text("UPS input voltage outside acceptable range")]
  }

  function DefaultStatusAlert(): map<string, Value> {
    map[
      "enabled" := Bool(true),
      "acceptable" := List([Text("ol"), Text("online")]),
      "alert_when_status_changed" := Bool(false),
      "message" := Text("UPS status not in acceptable list")]
  }

  /** DEFAULT_UPS_CONFIG["formula_alert"]. */
  function DefaultFormulaAlert(): map<string, Value> {
    map["expression" := Text(DefaultFormula), "message" := Text(DefaultFormulaMessage)]
  }

  /** The expression of DEFAULT_UPS_CONFIG["formula_alert"]. */
  const DefaultFormula: string := "(battery_charge < 90 or actual_runtime_minutes < 20) and ups_load > 20"

  /** The message template of DEFAULT_UPS_CONFIG["formula_alert"]. */
  const DefaultFormulaMessage: string := "UPS load: {ups_load}%, charge: {battery_charge}%, runtime: {actual_runtime_minutes:.1f} mins"

  /** A gauge of DEFAULT_UPS_CONFIG["gauge_settings"] with a warning and a high threshold. */
  function GaugeThresholds(warn: int, high: int): map<string, Value> {
    map["warn_threshold" := Int(warn), "high_threshold" := Int(high)]
  }

  function DefaultVoltageGauge(): map<string, Value> {
    map["nominal" := Int(120), "warn_deviation" := Int(10), "high_deviation" := Int(15)]
  }

  /** DEFAULT_CONFIG["notifications"]. */
  function DefaultNotifications(): map<string, Value> {
    map["enabled" := Bool(true), "cooldown" := Int(60), "urls" := List([])]
  }

  /** DEFAULT_UPS_CONFIG, with its `basic_alerts` dictionary and that dictionary's battery-charge rule. */
  method NewDefaultUpsConfig() returns (ups: Dict, basic: Dict, charge: Dict)
    ensures fresh(ups) && fresh(basic) && fresh(charge)
    ensures ups != basic && ups != charge && basic != charge
    ensures ups.entries.Keys == {"alert_mode", "gauge_settings", "basic_alerts", "formula_alert"}
    ensures ups.entries["alert_mode"] == Text("basic") && ups.entries["basic_alerts"] == Ref(basic)
    ensures basic.entries.Keys == {"battery_charge", "runtime", "load", "input_voltage", "ups_status"}
    ensures basic.entries["battery_charge"] == Ref(charge)
    ensures charge.entries == DefaultChargeRule()
  {
    var gauges := NewDefaultGaugeSettings();
    basic, charge := NewDefaultBasicAlerts();
    var formula := NewDefaultFormulaAlert();
    ups := new Dict(map["alert_mode" := Text("basic"), "gauge_settings" := Ref(gauges), "basic_alerts" := Ref(basic), "formula_alert" := Ref(formula)]);
  }

  /** DEFAULT_UPS_CONFIG["formula_alert"]. */
  method NewDefaultFormulaAlert() returns (formula: Dict)
    ensures fresh(formula)
    ensures formula.entries == DefaultFormulaAlert()
  {
    formula := new Dict(DefaultFormulaAlert());
  }

  /** DEFAULT_UPS_CONFIG["gauge_settings"]. */
  method NewDefaultGaugeSettings() returns (gauges: Dict)
    ensures fresh(gauges)
    ensures gauges.entries.Keys == {"load", "charge_remaining", "runtime", "voltage"}
  {
    var load, charge, runtime, voltage := NewDefaultGauges();
    gauges := new Dict(map["load" := Ref(load), "charge_remaining" := Ref(charge), "runtime" := Ref(runtime), "voltage" := Ref(voltage)]);
  }

  /** The four gauges of DEFAULT_UPS_CONFIG["gauge_settings"]: load, charge_remaining, runtime and voltage. */
  method NewDefaultGauges() returns (load: Dict, charge: Dict, runtime: Dict, voltage: Dict)
    ensures fresh(load) && fresh(charge) && fresh(runtime) && fresh(voltage)
    ensures load.entries == GaugeThresholds(80, 100)
    ensures charge.entries == GaugeThresholds(35, 15)
    ensures runtime.entries == GaugeThresholds(15, 5)
    ensures voltage.entries == DefaultVoltageGauge()
  {
    load := new Dict(GaugeThresholds(80, 100));
    charge := new Dict(GaugeThresholds(35, 15));
    runtime := new Dict(GaugeThresholds(15, 5));
    voltage := new Dict(DefaultVoltageGauge());
  }

  /** DEFAULT_UPS_CONFIG["basic_alerts"], with its battery-charge rule. */
  method NewDefaultBasicAlerts() returns (basic: Dict, charge: Dict)
    ensures fresh(basic) && fresh(charge) && basic != charge
    ensures basic.entries.Keys == {"battery_charge", "runtime", "load", "input_voltage", "ups_status"}
    ensures basic.entries["battery_charge"] == Ref(charge)
    ensures charge.entries == DefaultChargeRule()
  {
    charge := new Dict(DefaultChargeRule());
    var runtime, load, voltage, status := NewDefaultRules();
    basic := new Dict(map["battery_charge" := Ref(charge), "runtime" := Ref(runtime), "load" := Ref(load), "input_voltage" := Ref(voltage), "ups_status" := Ref(status)]);
  }

  /** The runtime, load, input_voltage and ups_status rules of DEFAULT_UPS_CONFIG["basic_alerts"]. */
  method NewDefaultRules() returns (runtime: Dict, load: Dict, voltage: Dict, status: Dict)
    ensures fresh(runtime) && fresh(load) && fresh(voltage) && fresh(status)
    ensures runtime.entries == DefaultRuntimeRule()
    ensures load.entries == DefaultLoadRule()
    ensures voltage.entries == DefaultVoltageRule()
    ensures status.entries == DefaultStatusAlert()
  {
    runtime := new Dict(DefaultRuntimeRule());
    load := new Dict(DefaultLoadRule());
    voltage := new Dict(DefaultVoltageRule());
    status := new Dict(DefaultStatusAlert());
  }

  /** DEFAULT_CONFIG, with its `nut_server` and `ups_devices` dictionaries. */
  method NewDefaultConfig() returns (top: Dict, nut: Dict, devices: Dict)
    ensures fresh(top) && fresh(nut) && fresh(devices)
    ensures top != nut && top != devices && nut != devices
    ensures top.entries.Keys == {"nut_server", "notifications", "ups_devices"}
    ensures top.entries["nut_server"] == Ref(nut) && top.entries["ups_devices"] == Ref(devices)
    ensures nut.entries == map["host" := Text("10.0.10.101"), "port" := Int(3493), "check_interval" := Int(15)]
    ensures devices.entries == map[]
  {
    nut := new Dict(map["host" := Text("10.0.10.101"), "port" := Int(3493), "check_interval" := Int(15)]);
    var notifications := NewDefaultNotifications();
    devices := new Dict(map[]);
    top := new Dict(map["nut_server" := Ref(nut), "notifications" := Ref(notifications), "ups_devices" := Ref(devices)]);
  }

  /** DEFAULT_CONFIG["notifications"]. */
  method NewDefaultNotifications() returns (notifications: Dict)
    ensures fresh(notifications)
    ensures notifications.entries == DefaultNotifications()
  {
    notifications := new Dict(DefaultNotifications());
  }

  /** `if not isinstance(config, dict): config = {}`. */
  method AsMapping(doc: Value) returns (config: Dict)
    ensures doc.Ref? ==> config == doc.dict
    ensures !doc.Ref? ==> fresh(config) && config.entries == map[]
  {
    if doc.Ref? {
      config := doc.dict;
    } else {
      config := new Dict(map[]);
    }
  }

  /** `if "ups_devices" not in config or not isinstance(config["ups_devices"], dict): config["ups_devices"] = {}`. */
  method DeviceMapping(config: Dict) returns (devices: Dict)
    modifies config
    ensures config.entries == old(config.entries)["ups_devices" := Ref(devices)]
    ensures old(DeviceDict(config.entries)).Some? ==> devices == old(DeviceDict(config.entries)).value
    ensures old(DeviceDict(config.entries)).None? ==> fresh(devices) && devices.entries == map[]
  {
    var existing := DeviceDict(config.entries);
    if existing.Some? {
      devices := existing.value;
    } else {
      devices := new Dict(map[]);
      config.Set("ups_devices", Ref(devices));
    }
  }

  /** save_config's result, given the exception text of a failed write (None when the write succeeds). */
  function SaveConfigMessage(writeError: Option<string>): (r: string)
    ensures writeError.None? ==> r == "config saved successfully."
    ensures writeError.Some? ==> r == "failed to save config: " + writeError.value
  {
    match writeError
    case None => "config saved successfully."
    case Some(e) => "failed to save config: " + e
  }

  /** Python's `w in s` for strings. */
  ghost predicate ContainsText(s: string, w: string) {
    exists i :: OccursAt(s, w, i)
  }

  predicate OccursAt(s: string, w: string, i: int) {
    0 <= i && i + |w| <= |s| && s[i..i + |w|] == w
  }

  /** "successfully" cannot start inside the prefix of a failure message: "u" does not occur in it. */
  lemma NotInSaveFailurePrefix(e: string, i: int)
    requires 0 <= i < 23
    ensures !OccursAt("failed to save config: " + e, "successfully", i)
  {
    var p := "failed to save config: ";
    var m := p + e;
    var w := "successfully";
    if i + |w| <= |m| {
      if i < 22 {
        assert m[i + 1] == p[i + 1] && p[i + 1] in p;
        assert 'u' !in p;
        assert m[i..i + |w|][1] != w[1];
      } else {
        assert m[22] == ' ';
        assert m[i..i + |w|][0] != w[0];
      }
    }
  }

  /**
   * The settings page reports a save as positive when "successfully" occurs in the result
   * (nutalert/ui/tabs/settings.py:16): that is the case for every successful save, and for
   * a failed one exactly when the error text itself contains the word.
   */
  lemma SaveStatusPositive(writeError: Option<string>)
    ensures ContainsText(SaveConfigMessage(writeError), "successfully") <==>
      writeError.None? || ContainsText(writeError.value, "successfully")
  {
    var w := "successfully";
    var m := SaveConfigMessage(writeError);
    match writeError
    case None =>
      assert m[13..13 + |w|] == w;
      assert OccursAt(m, w, 13);
    case Some(e) =>
      var p := "failed to save config: ";
      assert |p| == 23 && m == p + e;
      if ContainsText(e, w) {
        var i :| OccursAt(e, w, i);
        assert m[23 + i..23 + i + |w|] == w;
        assert OccursAt(m, w, 23 + i);
      }
      if ContainsText(m, w) {
        var i :| OccursAt(m, w, i);
        if i < 23 {
          NotInSaveFailurePrefix(e, i);
        }
        assert e[i - 23..i - 23 + |w|] == w;
        assert OccursAt(e, w, i - 23);
      }
  }

  /** `d[key]` where the entry must be a dictionary: KeyError when absent, TypeError when it is not a mapping. */
  function Child(d: Dict, key: string): (r: Outcome<Dict>)
    reads d
    ensures r.Returned? <==> key in d.entries && d.entries[key].Ref?
    ensures r.Returned? ==> d.entries[key] == Ref(r.value)
  {
    if key !in d.entries then Raised("KeyError")
    else if d.entries[key].Ref? then Returned(d.entries[key].dict)
    else Raised("TypeError")
  }

  function Objects(o: Outcome<Dict>): set<object> {
    if o.Returned? then {o.value} else {}
  }

  /** A further subscript on a lookup that may already have raised. */
  function Then(o: Outcome<Dict>, key: string): Outcome<Dict>
    reads Objects(o)
  {
    if o.Returned? then Child(o.value, key) else o
  }

  /** `devices[name]["basic_alerts"]["battery_charge"]`. */
  function ChargeRuleOf(devices: Dict, name: string): Outcome<Dict>
    reads devices, Objects(Child(devices, name)), Objects(Then(Child(devices, name), "basic_alerts"))
  {
    Then(Then(Child(devices, name), "basic_alerts"), "battery_charge")
  }

  /**
   * Editing one field of a device's battery-charge rule, as the settings page's bindings
   * do (nutalert/ui/tabs/settings.py:104-112): the rule dictionary is reached through the
   * device, and only that dictionary changes, so whatever else refers to it sees the change.
   */
  method EditChargeRule(devices: Dict, name: string, field: string, value: Value) returns (r: Outcome<Dict>)
    modifies Objects(ChargeRuleOf(devices, name))
    ensures r == old(ChargeRuleOf(devices, name))
    ensures r.Returned? ==> r.value.entries == old(r.value.entries)[field := value]
  {
    r := ChargeRuleOf(devices, name);
    if r.Returned? {
      r.value.Set(field, value);
    }
  }

  /**
   * Two devices discovered with no configuration file share their rule dictionaries with
   * each other and with DEFAULT_UPS_CONFIG: after the first device's battery-charge
   * minimum is edited, the second device and the defaults read the new minimum too.
   */
  method SharedRulesAfterDiscovery() returns (seenByOther: Value, seenInDefaults: Value)
    ensures seenByOther == Int(50) && seenInDefaults == Int(50)
  {
    var store := new ConfigStore();
    var config := store.LoadConfigWithoutFile((host, port) => ["ups1", "ups2"]);
    assert "ups1" in ["ups1", "ups2"] && "ups2" in ["ups1", "ups2"];
    var devices := config.entries["ups_devices"].dict;
    var first := devices.entries["ups1"].dict;
    var second := devices.entries["ups2"].dict;
    assert first.entries["basic_alerts"] == Ref(store.defaultBasicAlerts);
    var edited := EditChargeRule(devices, "ups1", "min", Int(50));
    assert edited == Returned(store.defaultChargeRule);
    var basic := second.entries["basic_alerts"].dict;
    seenByOther := basic.entries["battery_charge"].dict.entries["min"];
    seenInDefaults := store.defaultUpsConfig.entries["basic_alerts"].dict.entries["battery_charge"].dict.entries["min"];
  }
}
