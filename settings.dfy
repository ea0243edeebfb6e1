/**
 * nutalert/ui/tabs/settings.py: the defaulting that the settings page performs on the
 * configuration dictionaries before it binds widgets to them (`setdefault` in
 * basic_alert_card, ups_status_alert_card, basic_alert_rules and device_settings, and the
 * alert-mode normalisation), and the two converters between the acceptable-status list and
 * the text shown in its input field. The widgets themselves are outside the model.
 */
module Settings {
  import opened Common
  import opened PyText
  import opened PyDicts

  /* ---------- Acceptable statuses: list <-> text ---------- */

  /** The text shown for the acceptable list: `", ".join(s or [])`. */
  function StatusListToText(items: Option<seq<string>>): string {
    Join(", ", items.GetOr([]))
  }

  /** The comprehension `[i.strip().lower() for i in parts if i.strip()]`. */
  function CleanStatuses(parts: seq<string>): (r: seq<string>)
    requires forall k :: 0 <= k < |parts| ==> ',' !in parts[k]
    ensures forall k :: 0 <= k < |r| ==> NormalStatus(r[k])
    ensures |r| <= |parts|
  {
    if |parts| == 0 then []
    else
      var t := Strip(parts[0]);
      TailCommaFree(parts);
      var rest := CleanStatuses(parts[1..]);
      if t == "" then rest
      else
        StrippedLowerIsNormal(parts[0]);
        NormalCons(Lower(t), rest);
        [Lower(t)] + rest
  }

  lemma TailCommaFree(parts: seq<string>)
    requires |parts| > 0 && forall k :: 0 <= k < |parts| ==> ',' !in parts[k]
    ensures forall k :: 0 <= k < |parts[1..]| ==> ',' !in parts[1..][k]
  {
    forall k | 0 <= k < |parts[1..]| ensures ',' !in parts[1..][k] {
      assert parts[1..][k] == parts[k + 1];
    }
  }

  lemma NormalCons(x: string, rest: seq<string>)
    requires NormalStatus(x) && forall k :: 0 <= k < |rest| ==> NormalStatus(rest[k])
    ensures forall k :: 0 <= k < |[x] + rest| ==> NormalStatus(([x] + rest)[k])
  {
    forall k | 0 <= k < |[x] + rest| ensures NormalStatus(([x] + rest)[k]) {
      if k > 0 {
        assert ([x] + rest)[k] == rest[k - 1];
      }
    }
  }

  /** The list stored from the input text: `[i.strip().lower() for i in (s or "").split(",") if i.strip()]`. */
  function TextToStatusList(text: Option<string>): (r: seq<string>)
    ensures forall k :: 0 <= k < |r| ==> NormalStatus(r[k])
  {
    CleanStatuses(Split(text.GetOr(""), ','))
  }

  /** A status as the converter stores it: non-empty, without a comma, trimmed and lower-case. */
  predicate NormalStatus(s: string) {
    && s != ""
    && ',' !in s
    && !IsSpace(s[0]) && !IsSpace(s[|s| - 1])
    && Lower(s) == s
  }

  lemma StrippedLowerIsNormal(s: string)
    requires ',' !in s && Strip(s) != ""
    ensures NormalStatus(Lower(Strip(s)))
  {
    StripIsUnpadded(s);
    StripKeepsCommaFree(s);
    LowerIsNormal(Strip(s));
  }

  /** Lower-casing a non-empty, comma-free, trimmed text gives a normal status. */
  lemma LowerIsNormal(t: string)
    requires t != "" && ',' !in t && !IsSpace(t[0]) && !IsSpace(t[|t| - 1])
    ensures NormalStatus(Lower(t))
  {
    var l := Lower(t);
    LowerCharKeepsSpace(t[0]);
    LowerCharKeepsSpace(t[|t| - 1]);
    LowerIdempotent(t);
    assert ',' !in l by {
      forall k | 0 <= k < |l| ensures l[k] != ',' {
        assert t[k] != ',';
      }
    }
  }

  lemma LowerCharKeepsSpace(c: char)
    ensures IsSpace(LowerChar(c)) == IsSpace(c)
  {
    if 'A' <= c <= 'Z' {
      assert 'a' <= LowerChar(c) <= 'z';
    }
  }

  lemma LowerIdempotent(s: string)
    ensures Lower(Lower(s)) == Lower(s)
  {
    var l := Lower(s);
    assert forall k :: 0 <= k < |l| ==> LowerChar(l[k]) == l[k];
  }

  lemma StripKeepsCommaFree(s: string)
    requires ',' !in s
    ensures ',' !in Strip(s)
  {
    var l := TrimLeft(s);
    forall k | 0 <= k < |l| ensures l[k] != ',' {
      assert l[k] == s[|s| - |l| + k];
    }
    var t := TrimRight(l);
    forall k | 0 <= k < |t| ensures t[k] != ',' {
      assert t[k] == l[k];
    }
  }

  /** The text of a list splits back, at the commas, into its items with a space before all but the first. */
  lemma {:induction false} SplitJoined(items: seq<string>)
    requires |items| > 0
    requires forall k :: 0 <= k < |items| ==> ',' !in items[k]
    ensures Split(Join(", ", items), ',') == [items[0]] + seq(|items| - 1, k requires 0 <= k < |items| - 1 => " " + items[k + 1])
    decreases |items|
  {
    if |items| == 1 {
      SplitWithoutSeparator(items[0], ',');
    } else {
      var moved := Moved(items);
      MovedJoin(items);
      MovedCommaFree(items);
      MovedSpaced(items);
      SplitJoined(moved);
      SplitAtFirstSeparator(items[0], Join(", ", moved), ',');
    }
  }

  /** The items after the first, with the first of them carrying the space that follows the comma. */
  function Moved(items: seq<string>): seq<string>
    requires |items| > 1
  {
    [" " + items[1]] + items[2..]
  }

  lemma MovedJoin(items: seq<string>)
    requires |items| > 1
    ensures Join(", ", items) == items[0] + [','] + Join(", ", Moved(items))
  {
    var rest := items[1..];
    assert Join(", ", items) == items[0] + ", " + Join(", ", rest);
    MovedJoinTail(rest, Moved(items));
    CommaSpace(items[0], Join(", ", rest));
  }

  lemma MovedJoinTail(rest: seq<string>, moved: seq<string>)
    requires |rest| > 0 && moved == [" " + rest[0]] + rest[1..]
    ensures Join(", ", moved) == " " + Join(", ", rest)
  {
    if |rest| > 1 {
      assert moved[1..] == rest[1..];
    }
  }

  lemma CommaSpace(a: string, b: string)
    ensures a + ", " + b == a + [','] + (" " + b)
  {
  }

  lemma MovedCommaFree(items: seq<string>)
    requires |items| > 1
    requires forall k :: 0 <= k < |items| ==> ',' !in items[k]
    ensures forall k :: 0 <= k < |Moved(items)| ==> ',' !in Moved(items)[k]
  {
    var moved := Moved(items);
    assert ',' !in " " + items[1];
    forall k | 1 <= k < |moved| ensures ',' !in moved[k] {
      assert moved[k] == items[k + 1];
    }
  }

  lemma MovedSpaced(items: seq<string>)
    requires |items| > 1
    ensures var moved := Moved(items);
      [items[0]] + ([moved[0]] + seq(|moved| - 1, k requires 0 <= k < |moved| - 1 => " " + moved[k + 1]))
      == [items[0]] + seq(|items| - 1, k requires 0 <= k < |items| - 1 => " " + items[k + 1])
  {
  }

  lemma NormalStatusKept(s: string)
    requires NormalStatus(s)
    ensures Strip(s) == s && Strip(" " + s) == s && Lower(s) == s
  {
    StripUnpadded(s);
    assert TrimLeft(" " + s) == TrimLeft(s);
  }

  /** Cleaning parts that strip to normal statuses gives exactly those statuses. */
  lemma {:induction false} CleanNormalParts(parts: seq<string>, items: seq<string>)
    requires |parts| == |items|
    requires forall k :: 0 <= k < |parts| ==> ',' !in parts[k] && Strip(parts[k]) == items[k] && NormalStatus(items[k])
    ensures CleanStatuses(parts) == items
  {
    if |parts| > 0 {
      CleanNormalParts(parts[1..], items[1..]);
      NormalStatusKept(items[0]);
    }
  }

  /**
   * Showing a list and storing the shown text gives the list back, when its items are as
   * the converter itself stores them: non-empty, trimmed, lower-case and comma-free.
   */
  lemma StatusRoundTrip(items: seq<string>)
    requires forall k :: 0 <= k < |items| ==> NormalStatus(items[k])
    ensures TextToStatusList(Some(StatusListToText(Some(items)))) == items
  {
    var text := Join(", ", items);
    assert StatusListToText(Some(items)) == text;
    var parts := Split(text, ',');
    assert TextToStatusList(Some(text)) == CleanStatuses(parts);
    if |items| == 0 {
      assert parts == [""];
      EmptyPartDropped();
    } else {
      JoinedStatusesClean(items);
    }
  }

  lemma JoinedStatusesClean(items: seq<string>)
    requires |items| > 0 && forall k :: 0 <= k < |items| ==> NormalStatus(items[k])
    ensures CleanStatuses(Split(Join(", ", items), ',')) == items
  {
    var parts := Split(Join(", ", items), ',');
    SplitJoinedParts(items, parts);
    JoinedPartsStrip(items, parts);
    CleanNormalParts(parts, items);
  }

  lemma EmptyPartDropped()
    ensures CleanStatuses([""]) == []
  {
    assert TrimLeft("") == "";
    assert TrimRight("") == "";
    assert [""][1..] == [];
  }

  /** SplitJoined, part by part. */
  lemma SplitJoinedParts(items: seq<string>, parts: seq<string>)
    requires |items| > 0 && forall k :: 0 <= k < |items| ==> NormalStatus(items[k])
    requires parts == Split(Join(", ", items), ',')
    ensures |parts| == |items| && parts[0] == items[0]
    ensures forall k :: 1 <= k < |parts| ==> parts[k] == " " + items[k]
  {
    assert forall k :: 0 <= k < |items| ==> ',' !in items[k];
    SplitJoined(items);
    SpacedParts(items, parts);
  }

  lemma SpacedParts(items: seq<string>, parts: seq<string>)
    requires |items| > 0
    requires parts == [items[0]] + seq(|items| - 1, k requires 0 <= k < |items| - 1 => " " + items[k + 1])
    ensures |parts| == |items| && parts[0] == items[0]
    ensures forall k :: 1 <= k < |parts| ==> parts[k] == " " + items[k]
  {
    forall k | 1 <= k < |parts| ensures parts[k] == " " + items[k] {
      assert parts[k] == parts[1..][k - 1];
    }
  }

  lemma JoinedPartsStrip(items: seq<string>, parts: seq<string>)
    requires |items| > 0 && forall k :: 0 <= k < |items| ==> NormalStatus(items[k])
    requires |parts| == |items| && parts[0] == items[0]
    requires forall k :: 1 <= k < |parts| ==> parts[k] == " " + items[k]
    ensures forall k :: 0 <= k < |parts| ==> ',' !in parts[k] && Strip(parts[k]) == items[k]
  {
    forall k | 0 <= k < |parts|
      ensures ',' !in parts[k] && Strip(parts[k]) == items[k]
    {
      NormalStatusKept(items[k]);
    }
  }

  /** Storing, showing and storing again changes nothing: the stored form is a fixed point. */
  lemma StatusTextIdempotent(text: Option<string>)
    ensures TextToStatusList(Some(StatusListToText(Some(TextToStatusList(text))))) == TextToStatusList(text)
  {
    StatusRoundTrip(TextToStatusList(text));
  }

  /** No list shows as the empty text, and no text stores as the empty list. */
  lemma StatusNoneIsEmpty()
    ensures StatusListToText(None) == ""
    ensures TextToStatusList(None) == []
  {
    assert Split("", ',') == [""];
    assert Strip("") == "";
  }

  /** A stored list never holds an empty, padded or upper-case item, whatever was typed. */
  lemma StoredStatusesAreNormal(text: string, k: int)
    requires 0 <= k < |TextToStatusList(Some(text))|
    ensures TextToStatusList(Some(text))[k] != ""
    ensures Strip(TextToStatusList(Some(text))[k]) == TextToStatusList(Some(text))[k]
    ensures Lower(TextToStatusList(Some(text))[k]) == TextToStatusList(Some(text))[k]
  {
    NormalStatusKept(TextToStatusList(Some(text))[k]);
  }

  /* ---------- Defaulting of the rule dictionaries ---------- */

  /** `m.setdefault(k, v)` on the entries. */
  function WithDefault(m: map<string, Value>, k: string, v: Value): (r: map<string, Value>)
    ensures r.Keys == m.Keys + {k}
    ensures k in m ==> r == m
  {
    if k in m then m else m[k := v]
  }

  /** The default lower bound of basic_alert_card: 110.0 for input_voltage, 0.0 otherwise. */
  function DefaultMin(key: string): Value {
    Real(if key == "input_voltage" then 110.0 else 0.0)
  }

  /** The default upper bound of basic_alert_card: 130.0 for input_voltage, 0.0 otherwise. */
  function DefaultMax(key: string): Value {
    Real(if key == "input_voltage" then 130.0 else 0.0)
  }

  /** The entries of a rule dictionary after basic_alert_card's setdefault calls. */
  function CardDefaults(m: map<string, Value>, key: string, hasMin: bool, hasMax: bool): map<string, Value> {
    var m1 := WithDefault(WithDefault(m, "enabled", Bool(false)), "message", Text(""));
    var m2 := if hasMin then WithDefault(m1, "min", DefaultMin(key)) else m1;
    if hasMax then WithDefault(m2, "max", DefaultMax(key)) else m2
  }

  /** The keys a rule has after basic_alert_card. */
  function CardKeys(hasMin: bool, hasMax: bool): set<string> {
    {"enabled", "message"} + (if hasMin then {"min"} else {}) + (if hasMax then {"max"} else {})
  }

  /**
   * basic_alert_card adds exactly the missing keys among enabled, message and the bounds
   * it shows, with False, "" and the rule's default bounds, and never overwrites a key
   * that is already set.
   */
  lemma CardDefaultsSpec(m: map<string, Value>, key: string, hasMin: bool, hasMax: bool)
    ensures var r := CardDefaults(m, key, hasMin, hasMax);
      && r.Keys == m.Keys + CardKeys(hasMin, hasMax)
      && (forall k :: k in m ==> r[k] == m[k])
      && ("enabled" !in m ==> r["enabled"] == Bool(false))
      && ("message" !in m ==> r["message"] == Text(""))
      && (hasMin && "min" !in m ==> r["min"] == DefaultMin(key))
      && (hasMax && "max" !in m ==> r["max"] == DefaultMax(key))
  {
  }

  /** Applying the card defaults twice is the same as once. */
  lemma CardDefaultsIdempotent(m: map<string, Value>, key: string, hasMin: bool, hasMax: bool)
    ensures CardDefaults(CardDefaults(m, key, hasMin, hasMax), key, hasMin, hasMax) == CardDefaults(m, key, hasMin, hasMax)
  {
  }

  /** Which bounds each card of basic_alert_rules shows: charge and runtime a minimum, load a maximum, input voltage both. */
  function CardBounds(key: string): (bool, bool) {
    if key == "battery_charge" || key == "runtime" then (true, false)
    else if key == "load" then (false, true)
    else (true, true)
  }

  /** The rule keys basic_alert_rules shows a card for, in the order of its calls. */
  const CardOrder: seq<string> := ["battery_charge", "runtime", "load", "input_voltage"]

  /**
   * For every rule, whatever it held before: the charge and runtime cards end with a min
   * (0.0 when missing) and add no max, the load card ends with a max (0.0 when missing) and
   * adds no min, and the input-voltage card ends with both (110.0 and 130.0 when missing).
   */
  lemma CardBoundKeys(m: map<string, Value>, key: string)
    requires key in CardOrder
    ensures var (hasMin, hasMax) := CardBounds(key);
      var r := CardDefaults(m, key, hasMin, hasMax);
      && ("min" in r <==> key != "load" || "min" in m)
      && ("max" in r <==> key == "load" || key == "input_voltage" || "max" in m)
      && ("min" !in m && key != "load" ==> r["min"] == Real(if key == "input_voltage" then 110.0 else 0.0))
      && ("max" !in m && (key == "load" || key == "input_voltage") ==> r["max"] == Real(if key == "load" then 0.0 else 130.0))
  {
    var (hasMin, hasMax) := CardBounds(key);
    CardDefaultsSpec(m, key, hasMin, hasMax);
  }

  /** On an empty rule the cards give: charge and runtime min 0.0, load max 0.0, input voltage 110.0 to 130.0. */
  lemma EmptyCardDefaults()
    ensures forall key | key in CardOrder ::
      CardDefaults(map[], key, CardBounds(key).0, CardBounds(key).1) ==
      if key == "load" then map["enabled" := Bool(false), "message" := Text(""), "max" := Real(0.0)]
      else if key == "input_voltage" then map["enabled" := Bool(false), "message" := Text(""), "min" := Real(110.0), "max" := Real(130.0)]
      else map["enabled" := Bool(false), "message" := Text(""), "min" := Real(0.0)]
  {
  }

  /** The dictionary held under key, if the entry is one. */
  function ChildObjects(d: Dict, key: string): set<object>
    reads d
  {
    if key in d.entries && d.entries[key].Ref? then {d.entries[key].dict} else {}
  }

  /** The entries of the dictionary held under key, or none. */
  function ChildEntries(d: Dict, key: string): map<string, Value>
    reads d, ChildObjects(d, key)
  {
    if key in d.entries && d.entries[key].Ref? then d.entries[key].dict.entries else map[]
  }

  /** A rule the card has prepared: a dictionary under key with at least the card's keys. */
  predicate CardReady(basic: Dict, key: string, hasMin: bool, hasMax: bool)
    reads basic, ChildObjects(basic, key)
  {
    key in basic.entries && basic.entries[key].Ref? && CardKeys(hasMin, hasMax) <= basic.entries[key].dict.entries.Keys
  }

  /**
   * basic_alert_card: `basic.setdefault(key, {})`, then the setdefault calls on that rule.
   * An entry that is not a dictionary has no `setdefault`, so AttributeError is raised and
   * nothing changes. A rule does not contain itself (no YAML self-reference).
   */
  method BasicAlertCard(basic: Dict, key: string, hasMin: bool, hasMax: bool) returns (r: Outcome<Dict>)
    requires basic !in ChildObjects(basic, key)
    modifies basic, ChildObjects(basic, key)
    ensures r.Raised? <==> key in old(basic.entries) && !old(basic.entries)[key].Ref?
    ensures r.Raised? ==> r.exception == "AttributeError" && basic.entries == old(basic.entries)
    ensures r.Returned? && key in old(basic.entries) ==> Ref(r.value) == old(basic.entries)[key] && basic.entries == old(basic.entries)
    ensures r.Returned? && key !in old(basic.entries) ==> fresh(r.value) && basic.entries == old(basic.entries)[key := Ref(r.value)]
    ensures r.Returned? ==> r.value.entries == CardDefaults(old(ChildEntries(basic, key)), key, hasMin, hasMax)
    ensures r.Returned? ==> CardReady(basic, key, hasMin, hasMax)
  {
    var empty := new Dict(map[]);
    var conf := basic.SetDefault(key, Ref(empty));
    if !conf.Ref? {
      return Raised("AttributeError");
    }
    var rule := conf.dict;
    var _ := rule.SetDefault("enabled", Bool(false));
    var _ := rule.SetDefault("message", Text(""));
    if hasMin {
      var _ := rule.SetDefault("min", DefaultMin(key));
    }
    if hasMax {
      var _ := rule.SetDefault("max", DefaultMax(key));
    }
    CardDefaultsSpec(old(ChildEntries(basic, key)), key, hasMin, hasMax);
    r := Returned(rule);
  }

  /** The status rule ups_status_alert_card stores when there is none. */
  function DefaultStatusRule(): map<string, Value> {
    map[
      "enabled" := Bool(false),
      "acceptable" := List([Text("ol"), Text("online")]),
      "message" := Text("UPS status not in acceptable list"),
      "alert_when_status_changed" := Bool(false)]
  }

  /**
   * ups_status_alert_card: `basic.setdefault("ups_status", {...})`. An existing entry, of
   * whatever kind, is left as it is; a missing one becomes a new dictionary holding the
   * default status rule. The value now stored is returned.
   */
  method UpsStatusAlertCard(basic: Dict) returns (status: Value)
    modifies basic
    ensures "ups_status" in old(basic.entries) ==> basic.entries == old(basic.entries) && status == old(basic.entries)["ups_status"]
    ensures "ups_status" !in old(basic.entries) ==>
      && status.Ref? && fresh(status.dict) && status.dict.entries == DefaultStatusRule()
      && basic.entries == old(basic.entries)["ups_status" := status]
  {
    var d := new Dict(DefaultStatusRule());
    status := basic.SetDefault("ups_status", Ref(d));
  }

  /** The default status rule is off, accepts "ol" and "online", and alerts on any unacceptable status, not only on changes. */
  lemma DefaultStatusRuleSpec()
    ensures DefaultStatusRule()["enabled"] == Bool(false)
    ensures DefaultStatusRule()["acceptable"] == List([Text("ol"), Text("online")])
    ensures DefaultStatusRule()["alert_when_status_changed"] == Bool(false)
    ensures DefaultStatusRule().Keys == {"enabled", "acceptable", "message", "alert_when_status_changed"}
  {
  }

  /* ---------- The basic alert rules ---------- */

  /** An entry of the rule table as basic_alert_card finds it: a dictionary, by its entries, or a value of another kind. */
  datatype RuleEntry = RuleDict(entries: map<string, Value>) | NotDict

  /** The entries the card for key starts from: those of its dictionary, or none when the key is missing. */
  function Found(rules: map<string, RuleEntry>, key: string): map<string, Value> {
    if key in rules && rules[key].RuleDict? then rules[key].entries else map[]
  }

  /** The card for key can run: its entry is missing or is a dictionary. */
  predicate CardOpen(rules: map<string, RuleEntry>, key: string) {
    key !in rules || rules[key].RuleDict?
  }

  /**
   * basic_alert_card for key on the rule table, with the bounds basic_alert_rules passes
   * for it: a missing rule becomes the card defaults of an empty one, a dictionary gets the
   * card defaults of its entries, and any other value has no setdefault (AttributeError).
   */
  function CardOn(rules: map<string, RuleEntry>, key: string): (r: Outcome<map<string, RuleEntry>>)
    ensures r.Raised? <==> !CardOpen(rules, key)
    ensures r.Returned? ==> r.value == rules[key := RuleDict(CardDefaults(Found(rules, key), key, CardBounds(key).0, CardBounds(key).1))]
  {
    if CardOpen(rules, key) then Returned(rules[key := RuleDict(CardDefaults(Found(rules, key), key, CardBounds(key).0, CardBounds(key).1))])
    else Raised("AttributeError")
  }

  /** ups_status_alert_card on the rule table: a missing status rule becomes the default one; an existing entry stays. */
  function StatusCardOn(rules: map<string, RuleEntry>): map<string, RuleEntry> {
    if "ups_status" in rules then rules else rules["ups_status" := RuleDict(DefaultStatusRule())]
  }

  /** The cards for keys, in order; the first one that raises ends the sequence, leaving the table as the cards before it made it. */
  function CardsOn(rules: map<string, RuleEntry>, keys: seq<string>): (Outcome<()>, map<string, RuleEntry>)
    decreases |keys|
  {
    if keys == [] then (Returned(()), rules)
    else match CardOn(rules, keys[0])
      case Raised(e) => (Raised(e), rules)
      case Returned(next) => CardsOn(next, keys[1..])
  }

  /** basic_alert_rules on the rule table: the four cards in the order of CardOrder, then the status card. */
  function BasicAlertRulesOn(rules: map<string, RuleEntry>): (Outcome<()>, map<string, RuleEntry>) {
    var (r, after) := CardsOn(rules, CardOrder);
    if r.Raised? then (r, after) else (r, StatusCardOn(after))
  }

  /** The rule the card for key leaves in the table. */
  function Carded(rules: map<string, RuleEntry>, key: string): RuleEntry {
    RuleDict(CardDefaults(Found(rules, key), key, CardBounds(key).0, CardBounds(key).1))
  }

  /** The entry under k is as it was, or still missing. */
  predicate Untouched(after: map<string, RuleEntry>, rules: map<string, RuleEntry>, k: string) {
    (k in after <==> k in rules) && (k in rules ==> after[k] == rules[k])
  }

  /** The cards for keys[0] to keys[i] can all run. */
  predicate OpenThrough(rules: map<string, RuleEntry>, keys: seq<string>, i: int)
    requires i < |keys|
  {
    forall j | 0 <= j <= i :: CardOpen(rules, keys[j])
  }

  /** No key appears twice. */
  predicate Distinct(keys: seq<string>) {
    forall i, j | 0 <= i < j < |keys| :: keys[i] != keys[j]
  }

  /** A card changes only its own entry. */
  lemma CardOnOthers(rules: map<string, RuleEntry>, key: string, k: string)
    requires CardOpen(rules, key) && k != key
    ensures Untouched(CardOn(rules, key).value, rules, k)
    ensures CardOpen(CardOn(rules, key).value, k) == CardOpen(rules, k)
    ensures Carded(CardOn(rules, key).value, k) == Carded(rules, k)
  {
  }

  /** The keys after the first are distinct and do not repeat the first. */
  lemma DistinctTail(keys: seq<string>)
    requires keys != [] && Distinct(keys)
    ensures Distinct(keys[1..]) && keys[0] !in keys[1..]
  {
    forall i | 0 <= i < |keys| - 1
      ensures keys[1..][i] != keys[0]
    {
      assert keys[1..][i] == keys[i + 1];
    }
  }

  /** The cards raise, with AttributeError, exactly when one of their rules is not a dictionary. */
  lemma {:induction false} CardsOnRaised(rules: map<string, RuleEntry>, keys: seq<string>)
    requires Distinct(keys)
    ensures var r := CardsOn(rules, keys).0;
      && (r.Raised? <==> exists i | 0 <= i < |keys| :: !CardOpen(rules, keys[i]))
      && (r.Raised? ==> r.exception == "AttributeError")
    decreases |keys|
  {
    if keys != [] && CardOpen(rules, keys[0]) {
      var next := CardOn(rules, keys[0]).value;
      DistinctTail(keys);
      CardsOnRaised(next, keys[1..]);
      forall i | 1 <= i < |keys|
        ensures CardOpen(next, keys[i]) == CardOpen(rules, keys[i])
      {
        CardOnOthers(rules, keys[0], keys[i]);
      }
      var r := CardsOn(rules, keys).0;
      if r.Raised? {
        var i :| 0 <= i < |keys[1..]| && !CardOpen(next, keys[1..][i]);
        assert !CardOpen(rules, keys[i + 1]);
      } else {
        forall i | 1 <= i < |keys|
          ensures CardOpen(rules, keys[i])
        {
          assert keys[i] == keys[1..][i - 1];
        }
      }
    }
  }

  /** Every card up to the first rule that is not a dictionary leaves its rule with the card defaults of what it held. */
  lemma {:induction false} CardsOnCarded(rules: map<string, RuleEntry>, keys: seq<string>, i: int)
    requires Distinct(keys) && 0 <= i < |keys| && OpenThrough(rules, keys, i)
    ensures var after := CardsOn(rules, keys).1;
      keys[i] in after && after[keys[i]] == Carded(rules, keys[i])
    decreases |keys|
  {
    var next := CardOn(rules, keys[0]).value;
    DistinctTail(keys);
    if i == 0 {
      CardsOnUntouched(next, keys[1..], keys[0]);
    } else {
      CardOnOthers(rules, keys[0], keys[i]);
      forall j | 0 <= j <= i - 1
        ensures CardOpen(next, keys[1..][j])
      {
        assert CardOpen(rules, keys[j + 1]);
        CardOnOthers(rules, keys[0], keys[j + 1]);
      }
      CardsOnCarded(next, keys[1..], i - 1);
    }
  }

  /** An entry no card touches is as it was: one outside the keys, or one after the first rule that is not a dictionary. */
  lemma {:induction false} CardsOnUntouched(rules: map<string, RuleEntry>, keys: seq<string>, k: string)
    requires Distinct(keys)
    requires k !in keys || exists i | 0 <= i < |keys| && keys[i] == k :: !OpenThrough(rules, keys, i)
    ensures Untouched(CardsOn(rules, keys).1, rules, k)
    decreases |keys|
  {
    if keys != [] && CardOpen(rules, keys[0]) {
      var next := CardOn(rules, keys[0]).value;
      DistinctTail(keys);
      assert k != keys[0];
      CardOnOthers(rules, keys[0], k);
      if k in keys[1..] {
        var i :| 0 <= i < |keys| && keys[i] == k && !OpenThrough(rules, keys, i);
        assert i > 0;
        var j :| 0 <= j <= i && !CardOpen(rules, keys[j]);
        assert j > 0;
        CardOnOthers(rules, keys[0], keys[j]);
        assert keys[1..][i - 1] == k && keys[1..][j - 1] == keys[j];
        assert !OpenThrough(next, keys[1..], i - 1);
      }
      CardsOnUntouched(next, keys[1..], k);
    }
  }

  /** When no card raises, the table has gained exactly the keys. */
  lemma {:induction false} CardsOnKeys(rules: map<string, RuleEntry>, keys: seq<string>)
    requires CardsOn(rules, keys).0.Returned?
    ensures CardsOn(rules, keys).1.Keys == rules.Keys + set k | k in keys
    decreases |keys|
  {
    if keys != [] {
      var next := CardOn(rules, keys[0]).value;
      CardsOnKeys(next, keys[1..]);
      assert (set k | k in keys) == {keys[0]} + set k | k in keys[1..];
    }
  }

  /** The four keys of CardOrder are distinct, and none of them is the status rule's. */
  lemma CardOrderDistinct()
    ensures Distinct(CardOrder)
    ensures "ups_status" !in CardOrder
  {
    assert |"battery_charge"| == 14 && |"runtime"| == 7 && |"load"| == 4 && |"input_voltage"| == 13 && |"ups_status"| == 10;
  }

  /** basic_alert_rules raises, with AttributeError, exactly when one of the four rules is not a dictionary. */
  lemma BasicAlertRulesRaised(rules: map<string, RuleEntry>)
    ensures var r := BasicAlertRulesOn(rules).0;
      && (r.Raised? <==> exists i | 0 <= i < |CardOrder| :: !CardOpen(rules, CardOrder[i]))
      && (r.Raised? ==> r.exception == "AttributeError")
  {
    CardOrderDistinct();
    CardsOnRaised(rules, CardOrder);
  }

  /** Each card up to the first rule that is not a dictionary leaves its rule with the card defaults of what it held. */
  lemma BasicAlertRulesCarded(rules: map<string, RuleEntry>, i: int)
    requires 0 <= i < |CardOrder| && OpenThrough(rules, CardOrder, i)
    ensures var after := BasicAlertRulesOn(rules).1;
      CardOrder[i] in after && after[CardOrder[i]] == Carded(rules, CardOrder[i])
  {
    CardOrderDistinct();
    CardsOnCarded(rules, CardOrder, i);
  }

  /**
   * Entries the cards do not reach are as they were: the rules after the first one that is
   * not a dictionary, every entry outside the four rules and the status rule, and an
   * existing status rule.
   */
  lemma BasicAlertRulesUntouched(rules: map<string, RuleEntry>, k: string)
    requires (k !in CardOrder && (k != "ups_status" || k in rules)) || exists i | 0 <= i < |CardOrder| && CardOrder[i] == k :: !OpenThrough(rules, CardOrder, i)
    ensures Untouched(BasicAlertRulesOn(rules).1, rules, k)
  {
    CardOrderDistinct();
    CardsOnUntouched(rules, CardOrder, k);
  }

  /**
   * When basic_alert_rules does not raise, the table has gained exactly the four rules and
   * the status rule, and a status rule that was missing is the default one.
   */
  lemma BasicAlertRulesKeys(rules: map<string, RuleEntry>)
    requires BasicAlertRulesOn(rules).0.Returned?
    ensures var after := BasicAlertRulesOn(rules).1;
      && after.Keys == rules.Keys + (set k | k in CardOrder) + {"ups_status"}
      && ("ups_status" !in rules ==> after["ups_status"] == RuleDict(DefaultStatusRule()))
  {
    var mid := CardsOn(rules, CardOrder).1;
    CardsOnKeys(rules, CardOrder);
    CardOrderDistinct();
    assert "ups_status" !in rules ==> "ups_status" !in mid;
    assert BasicAlertRulesOn(rules).1 == StatusCardOn(mid);
  }

  /**
   * Which bound keys each rule has once basic_alert_rules has run without raising: a min
   * exactly when its card shows one or it had one, and a max likewise (CardBoundKeys says
   * which card shows which), whatever the rule held before.
   */
  lemma BasicAlertRulesBounds(rules: map<string, RuleEntry>, i: int)
    requires BasicAlertRulesOn(rules).0.Returned? && 0 <= i < |CardOrder|
    ensures var key, after := CardOrder[i], BasicAlertRulesOn(rules).1;
      && key in after && after[key].RuleDict?
      && ("min" in after[key].entries <==> CardBounds(key).0 || "min" in Found(rules, key))
      && ("max" in after[key].entries <==> CardBounds(key).1 || "max" in Found(rules, key))
  {
    BasicAlertRulesRaised(rules);
    assert OpenThrough(rules, CardOrder, i);
    BasicAlertRulesCarded(rules, i);
    CardDefaultsSpec(Found(rules, CardOrder[i]), CardOrder[i], CardBounds(CardOrder[i]).0, CardBounds(CardOrder[i]).1);
  }

  /* ---------- Device settings ---------- */

  /** The alert mode device_settings keeps: "basic" or "formula" as stored, anything else (or nothing) becomes "basic". */
  function NormalMode(m: map<string, Value>): (v: Value)
    ensures v == Text("basic") || v == Text("formula")
    ensures "alert_mode" in m && (m["alert_mode"] == Text("basic") || m["alert_mode"] == Text("formula")) ==> v == m["alert_mode"]
  {
    if "alert_mode" in m && (m["alert_mode"] == Text("basic") || m["alert_mode"] == Text("formula")) then m["alert_mode"] else Text("basic")
  }

  /** The entries of a device after device_settings: the mode normalised, the three sections present, nothing else changed. */
  predicate DeviceDefaulted(after: map<string, Value>, before: map<string, Value>) {
    && after.Keys == before.Keys + {"alert_mode", "basic_alerts", "formula_alert", "gauge_settings"}
    && after["alert_mode"] == NormalMode(before)
    && (forall k :: k in before && k != "alert_mode" ==> after[k] == before[k])
  }

  /** The device's normalisation and setdefault calls, on a device dictionary. */
  method DeviceDefaults(device: Dict)
    modifies device
    ensures DeviceDefaulted(device.entries, old(device.entries))
    ensures "basic_alerts" !in old(device.entries) ==>
      (device.entries["basic_alerts"].Ref? && fresh(device.entries["basic_alerts"].dict) && device.entries["basic_alerts"].dict.entries == map[])
    ensures "formula_alert" !in old(device.entries) ==>
      (device.entries["formula_alert"].Ref? && fresh(device.entries["formula_alert"].dict)
       && device.entries["formula_alert"].dict.entries == map["expression" := Text(""), "message" := Text("")])
    ensures "gauge_settings" !in old(device.entries) ==>
      (device.entries["gauge_settings"].Ref? && fresh(device.entries["gauge_settings"].dict) && device.entries["gauge_settings"].dict.entries == map[])
  {
    NormaliseMode(device);
    AddSections(device);
  }

  /** The three `setdefault` calls of device_settings, each with a new dictionary. */
  method AddSections(device: Dict)
    modifies device
    ensures device.entries.Keys == old(device.entries).Keys + {"basic_alerts", "formula_alert", "gauge_settings"}
    ensures forall k :: k in old(device.entries) ==> device.entries[k] == old(device.entries)[k]
    ensures "basic_alerts" !in old(device.entries) ==>
      (device.entries["basic_alerts"].Ref? && fresh(device.entries["basic_alerts"].dict) && device.entries["basic_alerts"].dict.entries == map[])
    ensures "formula_alert" !in old(device.entries) ==>
      (device.entries["formula_alert"].Ref? && fresh(device.entries["formula_alert"].dict)
       && device.entries["formula_alert"].dict.entries == map["expression" := Text(""), "message" := Text("")])
    ensures "gauge_settings" !in old(device.entries) ==>
      (device.entries["gauge_settings"].Ref? && fresh(device.entries["gauge_settings"].dict) && device.entries["gauge_settings"].dict.entries == map[])
  {
    assert |"basic_alerts"| == 12 && |"formula_alert"| == 13 && |"gauge_settings"| == 14;
    SetDefaultNew(device, "basic_alerts", map[]);
    ghost var withBasic := device.entries;
    SetDefaultNew(device, "formula_alert", map["expression" := Text(""), "message" := Text("")]);
    assert device.entries["basic_alerts"] == withBasic["basic_alerts"];
    SetDefaultNew(device, "gauge_settings", map[]);
  }

  /** The alert-mode check of device_settings: an unknown or missing mode is replaced by "basic". */
  method NormaliseMode(device: Dict)
    modifies device
    ensures device.entries == old(device.entries)["alert_mode" := NormalMode(old(device.entries))]
  {
    var mode := device.Get("alert_mode", NoneValue);
    if mode != Text("basic") && mode != Text("formula") {
      device.Set("alert_mode", Text("basic"));
    } else {
      assert device.entries == device.entries["alert_mode" := mode];
    }
  }

  /** `d.setdefault(key, <new dictionary with these entries>)`. */
  method SetDefaultNew(d: Dict, key: string, entries: map<string, Value>)
    modifies d
    ensures key in old(d.entries) ==> d.entries == old(d.entries)
    ensures key !in old(d.entries) ==>
      && d.entries.Keys == old(d.entries).Keys + {key}
      && d.entries[key].Ref? && fresh(d.entries[key].dict) && d.entries[key].dict.entries == entries
      && forall k :: k in old(d.entries) ==> d.entries[k] == old(d.entries)[k]
  {
    var n := new Dict(entries);
    var _ := d.SetDefault(key, Ref(n));
  }

  /**
   * device_settings before its widgets: `devices.setdefault(name, {})`, the alert-mode
   * normalisation, and setdefault of `basic_alerts` ({}), `formula_alert` (empty expression
   * and message) and `gauge_settings` ({}). A device entry that is not a dictionary has no
   * `.get`, and AttributeError is raised. A device does not contain the device table.
   */
  method DeviceSettings(devices: Dict, name: string) returns (r: Outcome<Dict>)
    requires devices !in ChildObjects(devices, name)
    modifies devices, ChildObjects(devices, name)
    ensures r.Raised? <==> name in old(devices.entries) && !old(devices.entries)[name].Ref?
    ensures r.Raised? ==> devices.entries == old(devices.entries)
    ensures r.Returned? && name in old(devices.entries) ==> Ref(r.value) == old(devices.entries)[name] && devices.entries == old(devices.entries)
    ensures r.Returned? && name !in old(devices.entries) ==> fresh(r.value) && devices.entries == old(devices.entries)[name := Ref(r.value)]
    ensures r.Returned? ==> DeviceDefaulted(r.value.entries, old(ChildEntries(devices, name)))
  {
    var empty := new Dict(map[]);
    var entry := devices.SetDefault(name, Ref(empty));
    if !entry.Ref? {
      return Raised("AttributeError");
    }
    var device := entry.dict;
    assert device.entries == old(ChildEntries(devices, name));
    DeviceDefaults(device);
    r := Returned(device);
  }

  /** After device_settings the mode is always one the page can show, and a second pass changes nothing. */
  lemma NormalModeIdempotent(m: map<string, Value>)
    ensures NormalMode(m["alert_mode" := NormalMode(m)]) == NormalMode(m)
  {
  }
}
