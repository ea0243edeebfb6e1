/**
 * tests/simulate_nut_server.py, handle_client: the text of the simulator's LIST UPS and
 * LIST VAR replies, and what nutalert's parse_nut_data makes of a LIST VAR reply.
 */
module SimProtocol {
  import opened Common
  import opened PyText
  import opened Parser

  /** Reply lines, each followed by "\n", in the order the reply is built. */
  function Lines(ls: seq<string>): string {
    if |ls| == 0 then "" else Lines(ls[..|ls| - 1]) + ls[|ls| - 1] + "\n"
  }

  /** `UPS <name> "<description>"` */
  function UpsLine(name: string, description: string): string {
    "UPS " + name + " \"" + description + "\""
  }

  /** `VAR <name> <key> "<value>"` */
  function VarLine(name: string, key: string, value: string): string {
    "VAR " + name + " " + key + " \"" + value + "\""
  }

  /** A device's description: its device.model, else "Simulated UPS". */
  function Description(vars: map<string, string>): string {
    if "device.model" in vars then vars["device.model"] else "Simulated UPS"
  }

  function UpsLines(names: seq<string>, data: map<string, map<string, string>>): (ls: seq<string>)
    requires forall n :: n in names ==> n in data
    ensures |ls| == |names|
  {
    seq(|names|, i requires 0 <= i < |names| => UpsLine(names[i], Description(data[names[i]])))
  }

  function VarLines(name: string, keys: seq<string>, vars: map<string, string>): (ls: seq<string>)
    requires forall k :: k in keys ==> k in vars
    ensures |ls| == |keys|
  {
    seq(|keys|, i requires 0 <= i < |keys| => VarLine(name, keys[i], vars[keys[i]]))
  }

  /** The lines of the reply to LIST UPS: a BEGIN line, one line per device in order, an END line. */
  function ListUpsLines(names: seq<string>, data: map<string, map<string, string>>): seq<string>
    requires forall n :: n in names ==> n in data
  {
    ["BEGIN LIST UPS"] + UpsLines(names, data) + ["END LIST UPS"]
  }

  /** The lines of the reply to `LIST VAR <name>`: a BEGIN line, one line per variable in order, an END line. */
  function ListVarLines(name: string, keys: seq<string>, vars: map<string, string>): seq<string>
    requires forall k :: k in keys ==> k in vars
  {
    ["BEGIN LIST VAR " + name] + VarLines(name, keys, vars) + ["END LIST VAR " + name]
  }

  /** Appending a line to a reply. */
  lemma LinesSnoc(ls: seq<string>, x: string)
    ensures Lines(ls + [x]) == Lines(ls) + x + "\n"
  {
    assert (ls + [x])[..|ls|] == ls;
  }

  lemma UpsLinesSnoc(names: seq<string>, data: map<string, map<string, string>>, i: nat)
    requires i < |names| && forall n :: n in names ==> n in data
    ensures UpsLines(names[..i + 1], data) == UpsLines(names[..i], data) + [UpsLine(names[i], Description(data[names[i]]))]
  {
  }

  /** One more device line of the LIST UPS reply, after the BEGIN line and the lines before it. */
  lemma UpsReplySnoc(begin: string, names: seq<string>, data: map<string, map<string, string>>, i: nat)
    requires i < |names| && forall n :: n in names ==> n in data
    ensures Lines([begin] + UpsLines(names[..i + 1], data))
      == Lines([begin] + UpsLines(names[..i], data)) + UpsLine(names[i], Description(data[names[i]])) + "\n"
  {
    var line := UpsLine(names[i], Description(data[names[i]]));
    UpsLinesSnoc(names, data, i);
    assert [begin] + UpsLines(names[..i + 1], data) == ([begin] + UpsLines(names[..i], data)) + [line];
    LinesSnoc([begin] + UpsLines(names[..i], data), line);
  }

  lemma VarLinesSnoc(name: string, keys: seq<string>, vars: map<string, string>, i: nat)
    requires i < |keys| && forall k :: k in keys ==> k in vars
    ensures VarLines(name, keys[..i + 1], vars) == VarLines(name, keys[..i], vars) + [VarLine(name, keys[i], vars[keys[i]])]
  {
  }

  /* ---------- Reading the lines back ---------- */

  lemma {:induction false} LinesFront(a: string, ls: seq<string>)
    ensures Lines([a] + ls) == a + "\n" + Lines(ls)
    decreases |ls|
  {
    if |ls| > 0 {
      var front := ls[..|ls| - 1];
      assert ([a] + ls)[..|ls|] == [a] + front;
      LinesFront(a, front);
    }
  }

  /** `splitlines()` gives back the lines of a reply when no line holds a line break. */
  lemma {:induction false} SplitLinesOfLines(ls: seq<string>)
    requires forall k :: 0 <= k < |ls| ==> NoLineBreak(ls[k])
    ensures SplitLines(Lines(ls)) == ls
    decreases |ls|
  {
    if |ls| > 0 {
      LinesFront(ls[0], ls[1..]);
      assert [ls[0]] + ls[1..] == ls;
      SplitLinesCons(ls[0], Lines(ls[1..]));
      SplitLinesOfLines(ls[1..]);
    }
  }

  lemma NoSpaceNoLineBreak(s: string)
    requires NoSpace(s)
    ensures NoLineBreak(s)
  {
    forall i | 0 <= i < |s| ensures !IsLineBreak(s[i]) {
      LineBreakIsSpace(s[i]);
    }
  }

  lemma NoLineBreakJoin(a: string, b: string)
    requires NoLineBreak(a) && NoLineBreak(b)
    ensures NoLineBreak(a + b)
  {
    assert forall i :: 0 <= i < |a + b| ==> (a + b)[i] == if i < |a| then a[i] else b[i - |a|];
  }

  lemma VarLineNoLineBreak(name: string, key: string, value: string)
    requires NoSpace(name) && NoSpace(key) && NoLineBreak(value)
    ensures NoLineBreak(VarLine(name, key, value))
  {
    NoSpaceNoLineBreak(name);
    NoSpaceNoLineBreak(key);
    NoLineBreakJoin("VAR ", name);
    NoLineBreakJoin("VAR " + name, " ");
    NoLineBreakJoin("VAR " + name + " ", key);
    NoLineBreakJoin("VAR " + name + " " + key, " \"");
    NoLineBreakJoin("VAR " + name + " " + key + " \"", value);
    NoLineBreakJoin("VAR " + name + " " + key + " \"" + value, "\"");
  }

  /** A BEGIN or END line: strip() leaves it as it is, and it does not open with `VAR ups`. */
  lemma FramingLineNoMatch(line: string)
    requires |line| > 0 && (line[0] == 'B' || line[0] == 'E')
    requires !IsSpace(line[|line| - 1])
    ensures MatchLine(line) == None
  {
    StripUnpadded(line);
  }

  /** A stripped line that does not open with `VAR ups` and whitespace does not match. */
  lemma NoSpaceAfterPrefixNoMatch(s: string)
    requires Strip(s) == s
    requires !StartsWith(s, Prefix) || (|s| > |Prefix| && !IsSpace(s[|Prefix|]))
    ensures MatchLine(s) == None
  {
  }

  /** parse_nut_data takes nothing from a VAR line of a device not named `ups`. */
  lemma OtherDeviceLineNoMatch(name: string, key: string, value: string)
    requires NoSpace(name) && name != "ups"
    ensures MatchLine(VarLine(name, key, value)) == None
  {
    var s := VarLine(name, key, value);
    assert s[0] == 'V' && s[|s| - 1] == '"';
    StripUnpadded(s);
    assert forall i :: 0 <= i < |name| ==> s[4 + i] == name[i];
    assert s[4 + |name|] == ' ';
    if StartsWith(s, Prefix) {
      assert |name| >= 3;
      assert name[..3] == "ups" by {
        assert forall i :: 0 <= i < 3 ==> name[i] == s[4 + i] == Prefix[4 + i];
      }
      assert |name| > 3;
      assert s[7] == name[3];
    }
    NoSpaceAfterPrefixNoMatch(s);
  }

  /** The text between `VAR ups` and the opening quote splits only as a space, the key, a space. */
  lemma KeySplit(key: string)
    requires |key| > 0 && NoSpace(key)
    ensures var m := " " + key + " "; FindSplit(m, |m|) == Some((1, |key| + 1))
  {
    var m := " " + key + " ";
    assert SplitOk(m, 1, |key| + 1) by {
      assert m[1..|key| + 1] == key;
    }
    FindSplitSpec(m, |m|);
    var (i, j) := FindSplit(m, |m|).value;
    assert forall t :: 1 <= t <= |key| ==> m[t] == key[t - 1];
    assert forall t :: 0 <= t < i ==> m[..i][t] == m[t];
    assert forall t :: j <= t < |m| ==> m[j..][t - j] == m[t];
    assert !IsSpace(m[1]);
    assert IsSpace(m[j]);
  }

  lemma UpsLineShape(key: string, value: string)
    requires |key| > 0 && NoSpace(key)
    requires |value| > 0 && NoQuote(value)
    ensures var s := VarLine("ups", key, value);
      && Strip(s) == s
      && Shape(s, |key| + 9, 1, |key| + 1)
      && s[|Prefix|..|key| + 9] == " " + key + " "
      && s[|key| + 10..|s| - 1] == value
  {
    var s := VarLine("ups", key, value);
    assert s[0] == 'V' && s[|s| - 1] == '"';
    StripUnpadded(s);
    var m := s[|Prefix|..|key| + 9];
    assert m == " " + key + " ";
    assert s[|key| + 10..|s| - 1] == value;
    assert StartsWith(s, Prefix);
    assert SplitOk(m, 1, |key| + 1) by {
      assert m[1..|key| + 1] == key;
    }
  }

  /** parse_nut_data reads a VAR line of the device `ups` back as its key and value. */
  lemma UpsLineMatches(key: string, value: string)
    requires |key| > 0 && NoSpace(key)
    requires |value| > 0 && NoQuote(value)
    ensures MatchLine(VarLine("ups", key, value)) == Some((key, value))
  {
    var s := VarLine("ups", key, value);
    UpsLineShape(key, value);
    ShapeQuoteIsLast(s, |key| + 9, 1, |key| + 1);
    KeySplit(key);
    var m := " " + key + " ";
    assert m[1..|key| + 1] == key;
  }

  /** A line the matcher rejects, put first, changes nothing. */
  lemma {:induction false} FoldSkipsFront(b: string, ls: seq<string>, matcher: LineMatcher, pf: FloatParser)
    requires matcher(b) == None
    ensures Fold([b] + ls, matcher, pf) == Fold(ls, matcher, pf)
    decreases |ls|
  {
    if |ls| > 0 {
      var front := ls[..|ls| - 1];
      assert ([b] + ls)[..|ls|] == [b] + front;
      assert ([b] + ls)[|ls|] == ls[|ls| - 1];
      FoldSkipsFront(b, front, matcher, pf);
    }
  }

  lemma FoldSkipsBack(ls: seq<string>, e: string, matcher: LineMatcher, pf: FloatParser)
    requires matcher(e) == None
    ensures Fold(ls + [e], matcher, pf) == Fold(ls, matcher, pf)
  {
    assert (ls + [e])[..|ls|] == ls;
  }

  /** The VAR lines of another device contribute nothing. */
  lemma {:induction false} OtherDeviceLinesParseEmpty(name: string, keys: seq<string>, vars: map<string, string>, pf: FloatParser)
    requires NoSpace(name) && name != "ups"
    requires forall k :: k in keys ==> k in vars
    ensures Parsed(VarLines(name, keys, vars), pf) == map[]
    decreases |keys|
  {
    var ls := VarLines(name, keys, vars);
    if |keys| > 0 {
      var front := keys[..|keys| - 1];
      assert ls[..|ls| - 1] == VarLines(name, front, vars);
      OtherDeviceLineNoMatch(name, keys[|keys| - 1], vars[keys[|keys| - 1]]);
      OtherDeviceLinesParseEmpty(name, front, vars, pf);
    }
  }

  /** What parse_nut_data keeps of the listed variables, one key after another; a later key wins. */
  function Listed(keys: seq<string>, vars: map<string, string>, pf: FloatParser): map<string, NutValue>
    requires forall k :: k in keys ==> k in vars
  {
    if |keys| == 0 then map[]
    else Listed(keys[..|keys| - 1], vars, pf)[keys[|keys| - 1] := Coerce(vars[keys[|keys| - 1]], pf)]
  }

  /** Each listed key holds its own coerced value, and no other key is there. */
  lemma {:induction false} ListedIsCoerced(keys: seq<string>, vars: map<string, string>, pf: FloatParser)
    requires forall k :: k in keys ==> k in vars
    ensures var r := Listed(keys, vars, pf);
      && (forall k :: k in r <==> k in keys)
      && (forall k :: k in keys ==> r[k] == Coerce(vars[k], pf))
    decreases |keys|
  {
    if |keys| > 0 {
      var front := keys[..|keys| - 1];
      ListedIsCoerced(front, vars, pf);
      assert forall k :: k in keys <==> k in front || k == keys[|keys| - 1];
    }
  }

  /** Under a matcher that reads each VAR line of `ups` back, the lines record the listed keys in order. */
  lemma {:induction false} UpsLinesFold(keys: seq<string>, vars: map<string, string>, matcher: LineMatcher, pf: FloatParser)
    requires forall k :: k in keys ==> k in vars && matcher(VarLine("ups", k, vars[k])) == Some((k, vars[k]))
    ensures Fold(VarLines("ups", keys, vars), matcher, pf) == Listed(keys, vars, pf)
    decreases |keys|
  {
    var ls := VarLines("ups", keys, vars);
    if |keys| > 0 {
      var front := keys[..|keys| - 1];
      var last := keys[|keys| - 1];
      assert ls[..|ls| - 1] == VarLines("ups", front, vars);
      assert ls[|ls| - 1] == VarLine("ups", last, vars[last]);
      UpsLinesFold(front, vars, matcher, pf);
    }
  }

  /** The VAR lines of the device `ups` record the listed keys in order. */
  lemma UpsLinesParse(keys: seq<string>, vars: map<string, string>, pf: FloatParser)
    requires forall k :: k in keys ==> k in vars && |k| > 0 && NoSpace(k) && |vars[k]| > 0 && NoQuote(vars[k])
    ensures Parsed(VarLines("ups", keys, vars), pf) == Listed(keys, vars, pf)
  {
    forall k | k in keys ensures MatchLine(VarLine("ups", k, vars[k])) == Some((k, vars[k])) {
      UpsLineMatches(k, vars[k]);
    }
    UpsLinesFold(keys, vars, MatchLine, pf);
  }

  /** parse_nut_data on a LIST VAR reply reads only its VAR lines. */
  lemma ReplyParsesBody(name: string, keys: seq<string>, vars: map<string, string>, pf: FloatParser)
    requires |name| > 0 && NoSpace(name)
    requires forall k :: k in keys ==> k in vars && NoSpace(k) && NoLineBreak(vars[k])
    ensures Parsed(SplitLines(Lines(ListVarLines(name, keys, vars))), pf) == Parsed(VarLines(name, keys, vars), pf)
  {
    ReplyLinesSplit(name, keys, vars);
    var body := VarLines(name, keys, vars);
    FramingLineNoMatch("BEGIN LIST VAR " + name);
    FramingLineNoMatch("END LIST VAR " + name);
    FoldSkipsBack(["BEGIN LIST VAR " + name] + body, "END LIST VAR " + name, MatchLine, pf);
    FoldSkipsFront("BEGIN LIST VAR " + name, body, MatchLine, pf);
  }

  /**
   * parse_nut_data on the reply to `LIST VAR <name>` for a device not literally named
   * `ups` (every device of the simulator) finds no value at all.
   */
  lemma OtherDeviceReplyParsesEmpty(name: string, keys: seq<string>, vars: map<string, string>, pf: FloatParser)
    requires |name| > 0 && NoSpace(name) && name != "ups"
    requires forall k :: k in keys ==> k in vars && NoSpace(k) && NoLineBreak(vars[k])
    ensures Parsed(SplitLines(Lines(ListVarLines(name, keys, vars))), pf) == map[]
  {
    ReplyParsesBody(name, keys, vars, pf);
    OtherDeviceLinesParseEmpty(name, keys, vars, pf);
  }

  /**
   * parse_nut_data on the reply to `LIST VAR ups` gets every listed variable, its value
   * coerced, and nothing else.
   */
  lemma UpsReplyParses(keys: seq<string>, vars: map<string, string>, pf: FloatParser)
    requires forall k :: k in keys ==> k in vars && |k| > 0 && NoSpace(k)
    requires forall k :: k in keys ==> |vars[k]| > 0 && NoQuote(vars[k]) && NoLineBreak(vars[k])
    ensures var r := Parsed(SplitLines(Lines(ListVarLines("ups", keys, vars))), pf);
      && (forall k :: k in r <==> k in keys)
      && (forall k :: k in keys ==> r[k] == Coerce(vars[k], pf))
  {
    ReplyParsesBody("ups", keys, vars, pf);
    UpsLinesParse(keys, vars, pf);
    ListedIsCoerced(keys, vars, pf);
  }

  /** The reply to LIST VAR splits back into its lines. */
  lemma ReplyLinesSplit(name: string, keys: seq<string>, vars: map<string, string>)
    requires |name| > 0 && NoSpace(name)
    requires forall k :: k in keys ==> k in vars && NoSpace(k) && NoLineBreak(vars[k])
    ensures SplitLines(Lines(ListVarLines(name, keys, vars))) == ListVarLines(name, keys, vars)
  {
    var ls := ListVarLines(name, keys, vars);
    NoSpaceNoLineBreak(name);
    NoLineBreakJoin("BEGIN LIST VAR ", name);
    NoLineBreakJoin("END LIST VAR ", name);
    forall k | 0 <= k < |ls| ensures NoLineBreak(ls[k]) {
      if 0 < k < |ls| - 1 {
        VarLineNoLineBreak(name, keys[k - 1], vars[keys[k - 1]]);
      }
    }
    SplitLinesOfLines(ls);
  }
}
