/**
 * nutalert/processor.py: one poll cycle. The configuration guards come first, then the
 * fetch, the "no data" short-circuit, and finally parse followed by the alert decision.
 * Loading the configuration, the network fetch and the log buffer are inputs; the
 * previous_ups_status carried by the alert evaluator is threaded through.
 */
module Processor {
  import opened Common
  import opened PyText
  import opened Parser
  import opened Alert

  /** The part of the loaded configuration the poll reads: the `nut_server` keys present, and the alert settings. */
  datatype PollConfig = PollConfig(nutServerKeys: Option<set<string>>, alert: AlertConfig)

  /** The tuple `(nut_values, alert_message, is_alerting, logs)`. */
  datatype PollResult = PollResult(values: map<string, NutValue>, message: string, isAlerting: bool, logs: string)

  const RequiredKeys: set<string> := {"host", "port", "timeout"}

  /** The early-exit result. */
  function DefaultResult(logs: string): PollResult {
    PollResult(map[], "Configuration error", true, logs)
  }

  /**
   * The guards of get_ups_data_and_alerts: a configuration (None and {} are both falsy,
   * and {} has no `nut_server` either) with a `nut_server` section holding host, port
   * and timeout.
   */
  predicate GuardsPass(config: Option<PollConfig>) {
    && config.Some?
    && config.value.nutServerKeys.Some?
    && RequiredKeys <= config.value.nutServerKeys.value
  }

  /**
   * get_ups_data_and_alerts as written: past the guards it calls
   * `fetch_nut_data(host=..., port=..., timeout=...)`, which has a required `command`
   * parameter (nutalert/fetcher.py:9), so the call raises TypeError before any data is read.
   */
  function GetUpsDataAndAlertsAsWritten(config: Option<PollConfig>, logs: string): Outcome<PollResult> {
    if !GuardsPass(config) then Returned(DefaultResult(logs))
    else Raised("TypeError")
  }

  /** Every configuration that passes the guards makes the as-written poll raise. */
  lemma AsWrittenNeverPolls(config: Option<PollConfig>, logs: string)
    ensures GetUpsDataAndAlertsAsWritten(config, logs).Raised? <==> GuardsPass(config)
    ensures GetUpsDataAndAlertsAsWritten(config, logs).Returned? ==>
      GetUpsDataAndAlertsAsWritten(config, logs).value.message == "Configuration error"
  {
  }

  /**
   * get_ups_data_and_alerts with the fetch supplying the server's response text `raw`
   * ("" when the socket failed), and the previous_ups_status before and after.
   */
  function GetUpsDataAndAlerts(config: Option<PollConfig>, raw: string, logs: string, o: Oracles, previous: string): (Outcome<PollResult>, string) {
    if !GuardsPass(config) then (Returned(DefaultResult(logs)), previous)
    else if raw == "" then (Returned(PollResult(map[], "Error: No data from NUT server", true, logs)), previous)
    else
      var values := Parsed(SplitLines(raw), o.parseFloat);
      var (verdict, previous') := Decide(values, config.value.alert, o, previous);
      match verdict
      case Raised(e) => (Raised(e), previous')
      case Returned(v) => (Returned(PollResult(values, v.message, v.isAlerting, logs)), previous')
  }

  /**
   * The poll cycle: a failed guard gives the default result, no data gives the "no data"
   * error whatever the alert rules say, and otherwise the values are the parse of the
   * response and the flag and message are exactly those of should_alert.
   */
  lemma PollSpec(config: Option<PollConfig>, raw: string, logs: string, o: Oracles, previous: string)
    ensures !GuardsPass(config) ==>
      GetUpsDataAndAlerts(config, raw, logs, o, previous) == (Returned(PollResult(map[], "Configuration error", true, logs)), previous)
    ensures GuardsPass(config) && raw == "" ==>
      GetUpsDataAndAlerts(config, raw, logs, o, previous) ==
        (Returned(PollResult(map[], "Error: No data from NUT server", true, logs)), previous)
    ensures GuardsPass(config) && raw != "" ==>
      var (r, previous') := GetUpsDataAndAlerts(config, raw, logs, o, previous);
      var values := Parsed(SplitLines(raw), o.parseFloat);
      var (verdict, p) := Decide(values, config.value.alert, o, previous);
      && previous' == p
      && (r.Raised? <==> verdict.Raised?)
      && (r.Returned? ==>
            && r.value.values == values
            && r.value.isAlerting == verdict.value.isAlerting
            && r.value.message == verdict.value.message
            && r.value.logs == logs)
  {
    if GuardsPass(config) && raw != "" {
      var values := Parsed(SplitLines(raw), o.parseFloat);
      var (verdict, p) := Decide(values, config.value.alert, o, previous);
      var (r, previous') := GetUpsDataAndAlerts(config, raw, logs, o, previous);
      assert previous' == p;
      if verdict.Returned? {
        assert r == Returned(PollResult(values, verdict.value.message, verdict.value.isAlerting, logs));
      }
    }
  }

  /** A missing required key fails the guard whatever else the configuration holds. */
  lemma MissingKeyFailsGuard(config: PollConfig, key: string)
    requires key in RequiredKeys
    requires config.nutServerKeys.Some? ==> key !in config.nutServerKeys.value
    ensures !GuardsPass(Some(config))
  {
  }

  /** The index of the first occurrence of c, if any. */
  function FirstIndexOf(s: string, c: char): (r: Option<nat>)
    ensures r.None? <==> c !in s
    ensures r.Some? ==> r.value < |s| && s[r.value] == c && c !in s[..r.value]
  {
    if |s| == 0 then None
    else if s[0] == c then Some(0)
    else
      var r := FirstIndexOf(s[1..], c);
      if r.None? then None
      else
        assert s[..r.value + 1] == [s[0]] + s[1..][..r.value];
        Some(r.value + 1)
  }

  /** The text logged for an "ok" verdict: after the first ":", stripped; the whole message when it has none. */
  function OkLogText(message: string): (r: string)
    ensures ':' !in message ==> r == message
    ensures ':' in message ==> exists i :: 0 <= i < |message| && message[i] == ':' && ':' !in message[..i] && r == Strip(message[i + 1..])
  {
    match FirstIndexOf(message, ':')
    case None => message
    case Some(i) =>
      var r := Strip(message[i + 1..]);
      assert 0 <= i < |message| && message[i] == ':' && ':' !in message[..i] && r == Strip(message[i + 1..]);
      r
  }

  /** For the "ups ok: ..." messages of should_alert the logged text is the status summary. */
  lemma OkLogTextOfOkMessage(summary: string)
    ensures OkLogText("ups ok: " + summary) == Strip(summary)
  {
    var m := "ups ok: " + summary;
    assert m[6] == ':' && ':' !in m[..6];
    assert m[7..] == " " + summary;
    var l := TrimLeft(" " + summary);
    assert l == TrimLeft(summary);
  }
}
