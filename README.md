# nutalert in Dafny

nutalert watches UPS devices through a Network UPS Tools (NUT) server. Each poll cycle does four things:

- It reads the server's `VAR ups <key> "<value>"` telemetry lines into a value map.
- It judges the values against either the basic threshold rules or a formula rule. The basic rules cover battery charge, runtime, load, input voltage and UPS status. The status rule has a suppression mode that works through one module-wide `previous_ups_status`.
- It shapes the verdict for the notifier.
- It hands the recent log lines to the dashboard.

The surrounding code merges discovered UPS names into the YAML configuration and keeps a bounded log buffer. It also validates the configuration against pydantic models, fills in settings defaults and turns thresholds into coloured gauge bands. A test simulator (`tests/simulate_nut_server.py`) speaks the NUT line protocol and updates its simulated devices on every tick.

This project models that core in Dafny and proves the properties the code promises. There is one module per source file:

| module | source | form |
|---|---|---|
| `Common` | — | `Option` and `Outcome`. `Outcome` is a value, or a Python exception that escapes, given by name. |
| `PyText` | — | The Python `str` behaviour the code relies on: `isspace`, `strip`, ASCII `lower`/`upper`, `split`, whitespace `split()`, `join`, `splitlines` and decimal `int()`. |
| `Parser` | `nutalert/parser.py` | The regular expression as a function with a proved characterisation. The line loop as a method against a fold. |
| `Alert` | `nutalert/alert.py` | The rule functions as pure functions. `previous_ups_status` is the single field of class `AlertEvaluator`, whose methods are proved against state-threading functions. |
| `Processor` | `nutalert/processor.py` | The poll decision as a function. The configuration and the fetched text are inputs. |
| `Notifier` | `nutalert/notifier.py` | Body shortening, the notifier's delivery record and the `send_all` gate. |
| `PyDicts` | — | Python dictionaries as heap objects (`class Dict`), so that aliasing through shallow copies is visible. |
| `Config` | `nutalert/config.py` | `load_config`'s merge as methods of a `ConfigStore` that owns the default dictionaries. Also `save_config`'s result text. |
| `Utils` | `nutalert/utils.py` | `LOG_BUFFER` as class `LogBuffer`, plus `get_recent_logs` and `get_config_path`. |
| `Schema` | `nutalert/ui/models.py` | The pydantic models as records. Validation is a function from a parsed document, and dumping is proved to be its inverse. |
| `Settings` | `nutalert/ui/tabs/settings.py` | The acceptable-status text/list converters as functions. The `setdefault` defaulting as methods on `Dict`. |
| `Gauge` | `nutalert/ui/components.py` | Threshold, band and colour computation of `create_dial_gauge`. |
| `SimState` | `tests/simulate_nut_server.py` | One device's step of `update_dynamic_values`. |
| `SimProtocol` | `tests/simulate_nut_server.py` | The LIST UPS and LIST VAR reply texts, proved to be what `Parser` reads back. |
| `Simulator` | `tests/simulate_nut_server.py` | `handle_client` and one pass of the updater as methods of class `NutServer`, which owns `UPS_DATA`. |

Python's `float()`, the `:.1f`/`:.2f` renderings, `str.format(**env)` and `eval` are not reimplemented. They reach the model as function-valued parameters: `Oracles` in `Alert` and `Numbers` in `SimState`. Every property proved holds for every choice of them, unless it names the fact about them that it uses. For example, `SimState.ReadsBackInts` says that `int(str(k)) == k`, which `PyText.ParseIntToString` proves for the modelled `int()`.

## Model

| member | source | states |
|---|---|---|
| Parser.MatchLine | nutalert/parser.py:10 | A match yields a non-empty key without spaces and a non-empty value without `"`. |
| Parser.MatchIsRegexMatch | nutalert/parser.py:10 | A match is a genuine match of `^VAR ups\s+([^ ]+)\s+"([^"]+)"$` on the stripped line. The value is the text between the last two quotes. The key and separators are the ones the backtracking regex engine picks, that is, the greatest split: the longest leading whitespace, then the longest key. |
| Parser.NoMatchIsNoShape | nutalert/parser.py:10 | When the function finds no match, no way of reading the line fits the pattern. |
| Parser.ParseNutData | nutalert/parser.py:9-23 | The loop over `splitlines()` produces exactly the fold of the recorded matches over the lines. Empty input gives an empty map. |
| Parser.ParsedEntry | nutalert/parser.py:12-22 | A key is in the result iff some line defines it. Its value is the coercion of the value on the last line that defines it. |
| Parser.ParsedKeysWellFormed | nutalert/parser.py:10 | Every key in the result is non-empty and has no space. |
| Parser.CoerceIntFirst | nutalert/parser.py:16-22 | Integer coercion comes first: the text of an integer is stored as that integer, whatever `float()` would say. |
| Parser.FoldLastDefining | nutalert/parser.py:12-22 | For any line matcher, later lines overwrite earlier ones: the stored value comes from the last defining line. |
| Alert.PrepareEnvSpec | nutalert/alert.py:7-24 | The environment is built iff every reading converts. Missing readings are 0 and a missing status is "". Runtime minutes times 60 is the runtime in seconds. The status is lower-cased. Each of ups.load, battery.charge, battery.runtime, battery.voltage and input.voltage is its reading as `float()` reads it: integer and float readings exactly, text readings through `float()`. |
| Alert.UnparsableReadingRaises | nutalert/alert.py:7-24 | A numeric reading held as text that `float()` rejects makes the preparation raise. |
| Alert.CheckBatteryChargeAsWritten | nutalert/alert.py:27-39 | As written: a missing min gives "config error: battery_charge.min not specified" whatever the charge, and a min present as None raises TypeError. Otherwise the rule fires iff charge < min (charge == min is fine) and returns the configured message by itself: nothing for a None message, the default text for a missing one. |
| Alert.CheckBatteryCharge | nutalert/alert.py:27-39 | Corrected: the same config error and TypeError. With a numeric min the rule yields a kept (non-empty) alert iff charge < min, because an empty or None message falls back to the default text. For a missing or non-empty message it returns exactly what the as-written check returns. |
| Alert.CheckRuntime | nutalert/alert.py:42-56 | A missing min gives its own config error, and a min present as None raises TypeError. Otherwise the rule alerts iff runtime minutes < min. The message starts with the configured text ("None" for a None message, the default text for a missing one) followed by " (". |
| Alert.CheckLoad | nutalert/alert.py:59-73 | A missing max gives its own config error, and a max present as None raises TypeError. Otherwise the rule alerts iff load > max. The message starts with the configured text ("None" for a None message, the default text for a missing one) followed by " (". |
| Alert.CheckInputVoltage | nutalert/alert.py:76-94 | A voltage of at most 0 never alerts, even with bounds missing or None. Otherwise a missing bound is a config error. A None min raises TypeError, and a None max raises iff the voltage is at least min, since `or` compares with min first. With both bounds numeric the rule alerts iff voltage < min or voltage > max. The message starts with the configured text ("None" for None) followed by " (". |
| Alert.SkipStep | nutalert/alert.py:121-132 | The status is skipped iff alert-on-change is set and the status equals the previous one. The stored status changes only when the flag is set. |
| Alert.StatusCheck | nutalert/alert.py:97-115 | An empty status never alerts. A missing acceptable list is a config error, and a None list raises TypeError. Otherwise the rule alerts iff the status is unacceptable and not suppressed, with "<message> (<status>)", where a None message shows as "None". The stored status changes only on an unsuppressed unacceptable status under alert-on-change. |
| Alert.ChangedStatusesOnly | nutalert/alert.py:97-132 | Under alert-on-change, the statuses that alert over a run of polls never repeat back to back, and the first differs from the stored status. |
| Alert.OutageReportedOnce | nutalert/alert.py:97-132 | With acceptable [ol, online] and alert-on-change, the polls OB, OL, OB raise one alert only. |
| Alert.EveryUnacceptableStatusAlerts | nutalert/alert.py:97-115 | Without alert-on-change, every non-empty unacceptable status alerts and the stored status stays as it was. |
| Alert.Render | nutalert/alert.py:50-55 | A configured message is used as given, a message present as None shows as "None", and a missing one gives the default text. |
| Alert.Kept | nutalert/alert.py:148-150 | `if alert:` keeps a message iff it exists and is non-empty. |
| Alert.AppendIfSet | nutalert/alert.py:147-150 | Appending adds exactly the kept message at the end. |
| Alert.BasicAlertListSpec | nutalert/alert.py:139-172 | A missing section gives exactly the one config-error message. Otherwise there are at most five messages, none of them empty. The list raises iff the check of an enabled rule raises. Only an enabled status rule can change the stored status. With no rule enabled, the list is empty. The charge part is the corrected check (see `Alert.ChargeAlertsDiffer`). |
| Alert.ChargeAlertsDiffer | nutalert/alert.py:147-150 | The charge part of the combined checks differs from the program as written only for an enabled rule with a numeric min, the charge below it and a message that is "" or None. There the program as written adds nothing and the model adds "battery charge below threshold". |
| Alert.EmptyChargeMessageDropped | nutalert/alert.py:33-39 | As written, a charge rule with a numeric min whose message is "" or None never contributes an alert, whatever the charge. The corrected check contributes one whenever charge < min. |
| Alert.FormulaFailsClosed | nutalert/alert.py:175-214 | The formula rule is not alerting iff the section and expression exist, the message formats (or is absent) and the expression evaluates falsy. It raises iff formatting fails with something other than a KeyError. A KeyError in formatting is alerting. |
| Alert.DecideSpec | nutalert/alert.py:217-244 | A missing or unknown mode is alerting. In basic mode the verdict is alerting iff the list is non-empty, with "ups alert: " plus the messages joined by "; ". Only basic mode changes the stored status. The decision raises iff preparation raises, or the mode is basic and a basic check raises (a rule whose bound is None, say), or the mode is formula and the formula raises. Basic mode uses the corrected charge check. |
| Alert.DecideOkMessage | nutalert/alert.py:232-238 | Every verdict that is not alerting carries a message starting "ups ok: ". |
| Alert.AlertEvaluator.constructor | nutalert/alert.py:118 | The stored status starts as "". |
| Alert.AlertEvaluator.ShouldSkipDueToUnchangedStatus | nutalert/alert.py:121-132 | The method returns and stores what `SkipStep` gives for the old stored status. |
| Alert.AlertEvaluator.CheckUpsStatus | nutalert/alert.py:97-115 | The method returns and stores what `StatusCheck` gives for the old stored status. |
| Alert.AlertEvaluator.CheckBasicAlerts | nutalert/alert.py:139-172 | The list built step by step and the new stored status are those of `BasicAlertList`, with the corrected charge check. |
| Alert.AlertEvaluator.ThresholdAlerts | nutalert/alert.py:147-165 | The four threshold rules run in the source's order: charge, runtime, load, voltage. Each enabled rule adds its kept message, and the first check that raises ends the run with its exception. The stored status is not touched. The charge rule is the corrected check. |
| Alert.AlertEvaluator.ShouldAlert | nutalert/alert.py:217-244 | The verdict and the new stored status are those of `Decide` on the old stored status, with the corrected charge check. |
| Processor.PollSpec | nutalert/processor.py:12-59 | A failed guard gives ({}, "Configuration error", True, logs). Empty data gives ({}, "Error: No data from NUT server", True, logs). Otherwise the values are the parse of the data and the flag and message are exactly the verdict's. The call raises iff the verdict does. The verdict uses the corrected charge check. |
| Processor.MissingKeyFailsGuard | nutalert/processor.py:27-30 | Missing any of host, port or timeout fails the guard. |
| Processor.AsWrittenNeverPolls | nutalert/processor.py:33-37 | As written, every configuration that passes the guards ends in a TypeError. Every other configuration gets "Configuration error". |
| Processor.FirstIndexOf | nutalert/processor.py:55 | The first index of a character, if it occurs at all. |
| Processor.OkLogText | nutalert/processor.py:55 | The OK log text is the stripped text after the first ":", or the whole message when there is no ":". |
| Processor.OkLogTextOfOkMessage | nutalert/processor.py:55 | For "ups ok: …" messages the log text is the summary, stripped. |
| Notifier.ShortBody | nutalert/notifier.py:23 | A message of at most 1900 characters is the body unchanged. A longer one becomes the notice followed by its first 1900 characters. |
| Notifier.ShortBodyBounds | nutalert/notifier.py:23 | The body is at most 1900 characters plus the notice. It is an optional notice followed by a prefix of the message. |
| Notifier.NutAlertNotifier.NotifyApprise | nutalert/notifier.py:14-33 | Without an apprise URL the call raises. Otherwise the result is True iff the library call does not raise. The delivery carries the title and the shortened body, with an attachment iff a non-empty file path is given. |
| Notifier.NutAlertNotifier.SendAll | nutalert/notifier.py:35-47 | Something is sent iff apprise exists, is enabled and has a non-empty URL. What is sent is exactly `notify_apprise`'s delivery. |
| Notifier.SendAllNeverRaises | nutalert/notifier.py:41-47 | Past the gate, sending never raises and targets a non-empty URL. |
| Notifier.DisabledSendsNothing | nutalert/notifier.py:41-47 | A disabled apprise section sends nothing. |
| PyDicts.Dict.Get | nutalert/config.py:85-86 | `dict.get`: the stored value, or the default when the key is absent. |
| PyDicts.Dict.SetDefault | nutalert/ui/tabs/settings.py:84 | `setdefault` leaves an existing key alone, inserts the default otherwise, and returns the stored value. |
| Config.DiscoveryTarget | nutalert/config.py:84-87 | Discovery raises iff `nut_server` exists but is not a mapping. |
| Config.DiscoveryDefaults | nutalert/config.py:84-87 | Discovery uses host "" and port 3493 when they are absent, and the configured values otherwise. |
| Config.ConfigStore.constructor | nutalert/config.py:11-66 | DEFAULT_CONFIG holds nut_server, notifications and ups_devices. nut_server is host "10.0.10.101", port 3493 and check_interval 15, and ups_devices is empty. DEFAULT_UPS_CONFIG holds alert_mode "basic", gauge_settings, basic_alerts and formula_alert. basic_alerts holds the five rules, and its battery_charge rule is enabled with min 90 and its message. |
| Config.NewDefaultUpsConfig | nutalert/config.py:11-52 | DEFAULT_UPS_CONFIG and its basic_alerts are new distinct dictionaries with those keys, alert_mode "basic" and the battery_charge rule. |
| Config.NewDefaultGauges | nutalert/config.py:13-18 | The gauges: load warns at 80 and is high at 100, charge_remaining at 35 and 15, runtime at 15 and 5, and voltage has nominal 120 with deviations 10 and 15. |
| Config.NewDefaultGaugeSettings | nutalert/config.py:13-18 | gauge_settings holds load, charge_remaining, runtime and voltage. |
| Config.NewDefaultBasicAlerts | nutalert/config.py:19-47 | basic_alerts holds battery_charge, runtime, load, input_voltage and ups_status, and its battery_charge rule is enabled with min 90 and its message. |
| Config.NewDefaultRules | nutalert/config.py:25-46 | runtime: enabled, min 15. load: enabled, max 50. input_voltage: disabled, 110.0 to 130.0. ups_status: enabled, acceptable ["ol", "online"], no alert on change. Each has its message. |
| Config.NewDefaultFormulaAlert | nutalert/config.py:48-51 | formula_alert holds the default expression and message. |
| Config.NewDefaultConfig | nutalert/config.py:54-66 | DEFAULT_CONFIG holds nut_server, notifications and ups_devices. nut_server is host "10.0.10.101", port 3493 and check_interval 15, and ups_devices is empty. |
| Config.NewDefaultNotifications | nutalert/config.py:60-64 | notifications is enabled, with cooldown 60 and no URLs. |
| Config.ConfigStore.StoreDefaults | nutalert/config.py:75-76 | Every discovered name maps to a fresh shallow copy of DEFAULT_UPS_CONFIG. Other devices are unchanged. |
| Config.ConfigStore.AddMissingDefaults | nutalert/config.py:90-92 | Every discovered name becomes a device. Existing devices are never overwritten or removed. Only new devices get shallow copies of the defaults. |
| Config.ConfigStore.LoadConfigWithoutFile | nutalert/config.py:69-78 | With no file, the result holds DEFAULT_CONFIG's own entries. DEFAULT_CONFIG's device dictionary itself gains the discovered devices. |
| Config.ConfigStore.LoadConfigFromDocument | nutalert/config.py:79-94 | A non-mapping document becomes {}. A missing or non-mapping `ups_devices` becomes {}. Discovered names are added without overwriting. The call raises iff discovery does. |
| Config.AsMapping | nutalert/config.py:81-82 | A document that is not a mapping is replaced by a fresh empty one. |
| Config.DeviceMapping | nutalert/config.py:88-89 | An existing device mapping is kept. Anything else is replaced by a fresh empty mapping. |
| Config.EditChargeRule | nutalert/config.py:76 | Editing one device's charge rule edits the dictionary that the shallow copy shares. |
| Config.SharedRulesAfterDiscovery | nutalert/config.py:76 | After discovering two devices, setting one device's charge minimum to 50 is seen by the other device and by DEFAULT_UPS_CONFIG. |
| Config.SaveConfigMessage | nutalert/config.py:96-102 | The message is "config saved successfully." on success and "failed to save config: <error>" on failure. |
| Config.SaveStatusPositive | nutalert/ui/tabs/settings.py:15-16 | The settings page's "successfully" test is positive iff the write succeeded or the error text itself says "successfully". |
| Utils.Newest | nutalert/utils.py:11 | The bounded deque keeps the newest min(n, 100) entries in order. |
| Utils.NewestAppend | nutalert/utils.py:11-17 | Appending to a bounded deque is the same as appending to the unbounded history and keeping the newest 100. |
| Utils.LogBuffer.Write | nutalert/utils.py:15-17 | A message that is blank after stripping changes nothing. Otherwise the stripped message is appended and the buffer keeps the newest 100 entries. |
| Utils.LogBuffer.Flush | nutalert/utils.py:19-20 | `flush` changes nothing. |
| Utils.WritesKeepNewest | nutalert/utils.py:15-17 | One more write after a run of writes on a buffer that held some entries: a blank message leaves the newest 100 as they were. Any other message is appended, stripped, to the newest 100 so far, and the newest 100 of that are kept. |
| Utils.LogBuffer.WriteAll | nutalert/utils.py:15-17 | Writing a run of messages, one `write` at a time, leaves the newest 100 of the old entries followed by the stripped non-blank messages, in order. |
| Utils.RecentLogsSplit | nutalert/utils.py:41-42 | For entries without line breaks, splitting the recent-logs text at "\n" gives the entries back. |
| Utils.EmptyBufferNoLogs | nutalert/utils.py:41-42 | An empty buffer gives "". |
| Utils.DirnameOfChild | nutalert/utils.py:51-54 | The `dirname` of an absolute path plus "/child" is that path. |
| Utils.ConfigPathInProjectRoot | nutalert/utils.py:45-57 | For a module at <root>/<pkg>/<file>, the config path is <root>/config.yaml. |
| Schema.MinMaxFields | nutalert/ui/models.py:5-9 | Every field of MinMaxAlert is optional: enabled defaults to False and min, max and message to None. Validation fails iff a present field has the wrong type. |
| Schema.MinMaxRoundTrip | nutalert/ui/models.py:5-9 | Dumping a MinMaxAlert and validating the dump gives it back. |
| Schema.MinMaxDefaults | nutalert/ui/models.py:5-9 | An empty MinMaxAlert is disabled, with min, max and message None. |
| Schema.StatusDefaults | nutalert/ui/models.py:12-16 | An empty StatusAlert is disabled, with acceptable [] and alert-on-change off. |
| Schema.StatusAlertRoundTrip | nutalert/ui/models.py:12-16 | Dumping a StatusAlert and validating the dump gives it back. |
| Schema.BasicAlertsAllOptional | nutalert/ui/models.py:19-24 | Every BasicAlerts rule is optional. |
| Schema.NutServerAccepted | nutalert/ui/models.py:27-30 | A NutServerConfig validates iff host is text, 0 < port ≤ 65535 and check_interval ≥ 5. |
| Schema.NutServerRoundTrip | nutalert/ui/models.py:27-30 | A dumped server config validates back to itself iff it satisfies those bounds. |
| Schema.FormulaRequiresBoth | nutalert/ui/models.py:33-35 | A FormulaAlert needs both message and expression as text. |
| Schema.FormulaRoundTrip | nutalert/ui/models.py:33-35 | Dumping a FormulaAlert and validating the dump gives it back. |
| Schema.NotificationsRoundTrip | nutalert/ui/models.py:38-41 | Dumping a NotificationsConfig and validating the dump gives it back, URL objects included. |
| Schema.NotificationsRequireAll | nutalert/ui/models.py:38-41 | enabled, cooldown and urls are all required: a section missing one is rejected. |
| Schema.AppConfigRequired | nutalert/ui/models.py:44-47 | An AppConfig requires ups_devices and a valid nut_server. Missing notifications are accepted as None. |
| Settings.TextToStatusList | nutalert/ui/tabs/settings.py:141 | Each stored status is non-empty, stripped, lower-case and free of commas. |
| Settings.StatusRoundTrip | nutalert/ui/tabs/settings.py:137-141 | Parsing the ", "-joined text of normal statuses gives the same list back. |
| Settings.StatusTextIdempotent | nutalert/ui/tabs/settings.py:137-141 | Parsing any text, showing it and parsing again gives the first parse. |
| Settings.StatusNoneIsEmpty | nutalert/ui/tabs/settings.py:137-141 | `s or []` and `s or ""`: no value shows as "" and parses to []. |
| Settings.EmptyPartDropped | nutalert/ui/tabs/settings.py:141 | An empty text gives no statuses. |
| Settings.CardDefaultsSpec | nutalert/ui/tabs/settings.py:84-90 | The card's defaults never overwrite existing keys. enabled defaults to False and message to "". min and max default to 110.0 and 130.0 for input_voltage and to 0.0 otherwise. |
| Settings.CardDefaultsIdempotent | nutalert/ui/tabs/settings.py:84-90 | Defaulting twice is defaulting once. |
| Settings.CardBoundKeys | nutalert/ui/tabs/settings.py:45-48 | For each of the four cards and whatever the rule held: charge and runtime end with a min (0.0 when missing) and gain no max. Load ends with a max (0.0 when missing) and gains no min. Input voltage ends with both (110.0 and 130.0 when missing). |
| Settings.EmptyCardDefaults | nutalert/ui/tabs/settings.py:45-48 | On an empty rule each card gives exactly enabled False and message "" plus its bounds: min 0.0 for charge and runtime, max 0.0 for load, and 110.0 to 130.0 for input voltage. |
| Settings.CardOn | nutalert/ui/tabs/settings.py:83-90 | One card on the rule table raises (AttributeError) iff its entry exists and is not a dictionary. Otherwise the entry becomes the card defaults of what it held, with the bounds its call passes. |
| Settings.CardsOnRaised | nutalert/ui/tabs/settings.py:45-48 | Cards for distinct keys, run in order, raise iff one of their entries is not a dictionary, and the exception is AttributeError. |
| Settings.CardsOnCarded | nutalert/ui/tabs/settings.py:45-48 | Every card before the first entry that is not a dictionary leaves its entry as the card defaults of what it held. |
| Settings.CardsOnUntouched | nutalert/ui/tabs/settings.py:45-48 | Entries outside the keys, and those after the first entry that is not a dictionary, are left as they were. |
| Settings.CardsOnKeys | nutalert/ui/tabs/settings.py:45-48 | Cards that do not raise add exactly their keys to the table. |
| Settings.BasicAlertRulesRaised | nutalert/ui/tabs/settings.py:40-49 | `basic_alert_rules` raises iff one of the four rules is present and not a dictionary, and then with AttributeError. |
| Settings.BasicAlertRulesCarded | nutalert/ui/tabs/settings.py:40-49 | Each card up to the first rule that is not a dictionary leaves its rule as the card defaults of what it held. |
| Settings.BasicAlertRulesUntouched | nutalert/ui/tabs/settings.py:40-49 | The rules the cards do not reach are as they were: other entries, an existing status rule, and the rules after the first one that is not a dictionary. |
| Settings.BasicAlertRulesKeys | nutalert/ui/tabs/settings.py:40-49 | Without an exception the table gains exactly the four rules and the status rule, and a missing status rule becomes the default one. |
| Settings.BasicAlertRulesBounds | nutalert/ui/tabs/settings.py:40-49 | Without an exception each of the four rules is a dictionary that has a min iff its card shows one or it had one, and a max likewise. |
| Settings.BasicAlertCard | nutalert/ui/tabs/settings.py:83-90 | The card's dictionary is the existing one or a fresh one inserted under the key. Its entries become the card defaults of the old entries. A non-mapping entry raises AttributeError and changes nothing. |
| Settings.UpsStatusAlertCard | nutalert/ui/tabs/settings.py:115-124 | An existing status rule is kept. Otherwise a fresh default rule is inserted. |
| Settings.DefaultStatusRuleSpec | nutalert/ui/tabs/settings.py:116-124 | The default status rule is disabled, with acceptable [ol, online] and alert-on-change off. |
| Settings.NormalMode | nutalert/ui/tabs/settings.py:248-249 | The mode is always basic or formula. A valid mode is kept. |
| Settings.NormalModeIdempotent | nutalert/ui/tabs/settings.py:248-249 | Normalising the mode twice is normalising it once. |
| Settings.DeviceSettings | nutalert/ui/tabs/settings.py:247-252 | The device's dictionary is the existing one or a fresh one. It ends with a normal mode and with all three sections. Existing sections are kept. A missing formula_alert gets an empty expression and message. |
| Gauge.Threshold | nutalert/ui/components.py:12-58 | A missing threshold takes its default and a number is used as given. A non-number raises. |
| Gauge.DialStepsContiguous | nutalert/ui/components.py:15-18 | In every metric, consecutive bands share their endpoints, starting from 0. |
| Gauge.DialRaises | nutalert/ui/components.py:6-78 | The gauge raises iff the metric is unknown or a threshold it reads is not a number. |
| Gauge.LoadBands | nutalert/ui/components.py:12-24 | max defaults to 90 and the warning point is max/2. The bar is error iff value > max and warning iff max/2 < value ≤ max. A reading on an ordered dial gets the colour of a band that holds it. |
| Gauge.ChargeBands | nutalert/ui/components.py:25-38 | min defaults to 20 with a ±5 warning zone. The bar is error iff value < min−5 and warning inside the zone. |
| Gauge.RuntimeBands | nutalert/ui/components.py:39-54 | The value is shown in minutes. The axis ends at max(30, 1.2 × minutes), and the warning point lies halfway between min (default 5) and the axis end. The bar is red iff minutes < min and amber iff min ≤ minutes < the warning point. |
| Gauge.VoltageBands | nutalert/ui/components.py:55-78 | min and max default to 110 and 130. The bar is success iff min ≤ v ≤ max, warning within 5 beyond either bound, and error otherwise. The axis ends at max + 20. |
| SimState.StepLoadInRange | tests/simulate_nut_server.py:169-171 | After a step the load is the old load plus the draw, clamped into 5..100, written as text. It reads back as that number. |
| SimState.StepOnBattery | tests/simulate_nut_server.py:179-188 | On battery, the charge drops by 1 only while it is positive. The status becomes LB iff the new charge ≤ battery.charge.low and is kept otherwise. |
| SimState.StepOnline | tests/simulate_nut_server.py:190-209 | Online, a charge below 100 rises by 1 and the runtime stays at most its initial value. The status becomes OB with reason "simulated power loss" exactly on a power-loss draw. |
| SimState.StepOtherStatus | tests/simulate_nut_server.py:179-190 | Any other status leaves the charge, runtime and status alone. |
| SimState.StepKeepsKeys | tests/simulate_nut_server.py:168-209 | A step writes only variables that already exist. |
| SimProtocol.SplitLinesOfLines | tests/simulate_nut_server.py:224-238 | A reply built from lines without line breaks splits back into those lines. |
| SimProtocol.OtherDeviceLineNoMatch | tests/simulate_nut_server.py:237 | A `VAR <name> …` line for any device not literally named `ups` is skipped by the telemetry parser. |
| SimProtocol.UpsLineMatches | tests/simulate_nut_server.py:237 | A `VAR ups <key> "<value>"` line with a spaceless key and a non-empty quote-free value parses to exactly that key and value. |
| SimProtocol.OtherDeviceReplyParsesEmpty | tests/simulate_nut_server.py:235-238 | Parsing the LIST VAR reply of a device not named `ups` gives an empty map. |
| SimProtocol.UpsReplyParses | tests/simulate_nut_server.py:235-238 | Parsing the LIST VAR reply of a device named `ups` gives exactly its variables, each coerced. |
| Simulator.ParseSet | tests/simulate_nut_server.py:248-252 | A SET VAR request is well-formed iff it has at least five words with "=" fourth. |
| Simulator.CommandIgnoresCase | tests/simulate_nut_server.py:220 | Two requests that differ only in letter case give the same command. |
| Simulator.RepliesIgnoreCase | tests/simulate_nut_server.py:220-262 | Apart from SET VAR, which reads the text as received, the reply does not depend on letter case. |
| Simulator.OnlySetVarWrites | tests/simulate_nut_server.py:214-262 | Only SET VAR changes UPS_DATA. |
| Simulator.SetVarOnlyExisting | tests/simulate_nut_server.py:247-259 | SET VAR keeps every device and variable name. Any reply other than OK leaves UPS_DATA unchanged. Every changed value is the one a well-formed request named, for an existing variable of an existing device. |
| Simulator.SetVarStores | tests/simulate_nut_server.py:253-255 | An OK reply means the named variable now holds the requested value. |
| Simulator.AfterCommandShaped | tests/simulate_nut_server.py:214-262 | Every request keeps UPS_DATA's devices and variables as they were. |
| Simulator.PassSteps | tests/simulate_nut_server.py:168-209 | A pass that gets through gives each device exactly its step. Devices outside the pass are untouched and no device is added or removed. |
| Simulator.PassLoadInRange | tests/simulate_nut_server.py:169-171 | After a pass that gets through, every device's load is within 5..100. |
| Simulator.NutServer.constructor | tests/simulate_nut_server.py:10-162 | INITIAL_RUNTIMES holds each device's starting runtime. |
| Simulator.NutServer.HandleClient | tests/simulate_nut_server.py:214-269 | The reply is the `Response` for the old UPS_DATA: none for an empty request. The new UPS_DATA is `AfterCommand` of the old one. |
| Simulator.NutServer.ListUps | tests/simulate_nut_server.py:223-228 | The loop builds "BEGIN LIST UPS", one `UPS <name> "<model or Simulated UPS>"` line per device in order, and "END LIST UPS", each ending in "\n". |
| Simulator.NutServer.ListVar | tests/simulate_nut_server.py:235-238 | The loop builds the BEGIN line, one `VAR <name> <key> "<value>"` line per variable in order, and the END line. |
| Simulator.NutServer.UpdateDynamicValues | tests/simulate_nut_server.py:165-209 | One pass over the devices in order leaves UPS_DATA and the success flag given by `Pass` on the old data. |

## Left out

- Sockets, threads, `time.sleep` and the fetcher are not modelled. The raw NUT response and the request text are parameters. `recv(1024)` truncation and UTF-8 decoding are not modelled, and neither is the `except Exception: pass` around a failed send.
- `random` is not modelled. The draws of `randint(-2, 2)`, `uniform` and `randint(1, 200) == 1` are parameters (`SimState.Draws`).
- Simulator.NutServer.UpdateDynamicValues models one pass of the `while True` loop. A step that raises (a missing or unparsable variable) ends the updater thread. The model then leaves that device unchanged rather than partly written.
- The literal UPS_DATA table is a constructor parameter of `NutServer`, required to hold `input.voltage` and `input.transfer.reason` for each device.
- Python's `float()`, `int(float(...))`, `str.format(**env)`, `eval`, `:.1f`/`:.2f`/`{}` number rendering and `round` are oracles, not implementations. Properties that need one of them to behave name the fact they use.
- Floating point is modelled as mathematical reals. `int(runtime * 0.95)` and `int(current_runtime * 1.05)` are truncations of reals.
- Logging, including `setup_logger` and every logger call, is left out. The log buffer is fed directly.
- YAML and file I/O in `load_config`/`save_config` are left out. The parsed document and the outcome of the write are inputs.
- The apprise library is not modelled. Only the delivery record and whether the call raises are.
- pydantic's lax coercions, such as "5" accepted as the int 5, are not modelled. Validation accepts exactly the typed values.
- Case conversion covers ASCII letters only, `isspace` covers the ASCII whitespace and a few Unicode spaces, and `int()` takes ASCII digits only (Python also accepts other Unicode decimal digits).
- Notifier.NutAlertNotifier.NotifyApprise: how the apprise object is configured is not modelled. The result records the delivery and whether the call raised.
- Alert: a `basic_alerts` section, a rule or a `formula_alert` present as None or as some other non-dictionary makes Python raise (AttributeError on `.get`, TypeError on `in`). The model's sections are absent or dictionaries. Bounds are numbers or None and messages are texts or None; a bound or message of any other type is not modelled.
- Settings: the `gauge_settings` widget's `setdefault` calls (`nutalert/ui/tabs/settings.py:77-80`) are not modelled beyond the sections `Settings.DeviceSettings` adds.
- Settings.BasicAlertRulesOn: `basic_alert_rules` is modelled on values. Its first two steps, `setdefault("alert_mode", "basic")` and `get("basic_alerts", {})`, are not part of it; `Settings.NormalMode` covers the mode. The in-place update of a shared dictionary is shown per card by `Settings.BasicAlertCard` only, so aliasing between rules is not captured across the five cards. The widgets the cards build are left out.
- Config: `nutalert/config.py:5` imports `fetch_nut_ups_names`, which `nutalert/fetcher.py` does not define, so importing `nutalert.config` (and `nutalert/ui/tabs/settings.py`, which imports it) fails as written. The model takes the function to exist and to return the UPS names the server lists; discovery is the `Config.Discovery` parameter.
- Gauge: the plotly figure, its layout and `round(float(value), 1)` of the displayed number are left out. `Gauge.Setting.NotNumber` stands for any non-numeric threshold, including the bools that Python would silently treat as 0 and 1. A `basic_alerts` section or a rule present as None or as some other non-dictionary makes `create_dial_gauge` raise AttributeError on `.get` (`nutalert/ui/components.py:10-13`, 26, 41, 56); the model reads only the threshold values and does not capture that.
- Config.ConfigStore.constructor: its own contract states the keys of DEFAULT_CONFIG, DEFAULT_UPS_CONFIG and basic_alerts, the nut_server values, alert_mode and the battery_charge rule. The values of the other rules, the gauges, formula_alert and notifications are stated by `Config.NewDefaultRules`, `Config.NewDefaultGauges`, `Config.NewDefaultFormulaAlert` and `Config.NewDefaultNotifications`, whose dictionaries the constructor puts in place. They are not repeated through the nested dictionaries, because that proof is beyond the solver's resource limit.
- Alert: `check_basic_alerts`, `should_alert` and the poll use `Alert.CheckBatteryCharge`, the corrected charge check from the `nutalert/alert.py:38` finding. `Alert.ChargeAlertsDiffer` states the only inputs where this changes the result: an enabled rule with a numeric min, the charge below it and a message that is "" or None. `Alert.BasicAlertList`, `Alert.Decide`, `Alert.AlertEvaluator.CheckBasicAlerts`, `Alert.AlertEvaluator.ThresholdAlerts`, `Alert.AlertEvaluator.ShouldAlert` and the poll in `Processor` report the default text there, where the program as written reports nothing.
- Schema: `AppConfig.ups_devices` is `Dict[str, Any]` (`nutalert/ui/models.py:45`), so validating an AppConfig never validates the rule models inside the devices. The rule models are validated on their own.
- Dictionary iteration order is modelled by an explicit key order (`names`, `keyOrder`) next to each map.
- The UI, the asynchronous poll loop in `nutalert/ui/state.py`, `nutalert/dashboard.py` and the other widget code are not part of this model.
- PyText.Words, Python's whitespace `split()`, is stated by its definition only. No ensures of its own is proved.

## Findings

| source | as written | input that shows it | evidently intended | confidence | as-written member | corrected member |
|---|---|---|---|---|---|---|
| nutalert/processor.py:33-37 | `fetch_nut_data` is called with host, port and timeout but not the `command` argument it requires, so every configuration that passes the guards raises TypeError before any data is read | a configuration with `nut_server` holding host, port and timeout | fetch the `LIST VAR` reply and go on to parse and evaluate it | not executed | Processor.AsWrittenNeverPolls | Processor.PollSpec |
| nutalert/alert.py:38 | `check_battery_charge` (modelled as `Alert.CheckBatteryChargeAsWritten`) returns the configured message by itself, so a message that is "" (the default the settings card writes, `nutalert/ui/tabs/settings.py:86`) or None is dropped by `if alert:` and the low-charge alert never fires | an enabled battery_charge rule with min 20 and message "", at a charge of 10 | alert whenever charge < min, falling back to the default text as the other four rules in effect do (they append the reading, so their alert is never empty) | not executed | Alert.EmptyChargeMessageDropped | Alert.CheckBatteryCharge |

Two more behaviours the model keeps as written:
- SET VAR stores `" ".join(parts[6:])`, so the sixth word of the request is dropped (`tests/simulate_nut_server.py:252`).
- LIST VAR lower-cases the device name, so an upper-case device name can never be listed.
