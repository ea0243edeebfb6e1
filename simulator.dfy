/**
 * tests/simulate_nut_server.py: the simulator's device table UPS_DATA, the reply
 * handle_client sends to one request, and one pass of update_dynamic_values over all
 * devices. Sockets, threads, sleeping and the random draws are left to the caller.
 */
module Simulator {
  import opened Common
  import opened PyText
  import opened SimState
  import opened SimProtocol

  /** UPS_DATA: device name to its variables. */
  type Devices = map<string, Vars>

  /** The entries of s are pairwise different, as the keys of a Python dict are. */
  predicate Distinct(s: seq<string>) {
    forall i, j :: 0 <= i < j < |s| ==> s[i] != s[j]
  }

  /**
   * names lists the devices of data in dict order and keyOrder[d] the variables of d in
   * dict order; every device has input.voltage and input.transfer.reason, the two
   * variables the updater writes without reading them first.
   */
  ghost predicate Shaped(names: seq<string>, keyOrder: map<string, seq<string>>, data: Devices) {
    && Distinct(names)
    && (forall d :: d in data <==> d in names)
    && (forall d :: d in data ==> d in keyOrder && Distinct(keyOrder[d]))
    && (forall d, k :: d in data ==> (k in data[d] <==> k in keyOrder[d]))
    && (forall d :: d in data ==> InputVoltageKey in data[d] && ReasonKey in data[d])
  }

  /* ---------- handle_client ---------- */

  /** The command as dispatched: stripped and upper-cased. */
  function Command(raw: string): string {
    Upper(Strip(raw))
  }

  datatype SetRequest = SetRequest(device: string, variable: string, value: string)

  /**
   * `SET VAR <device> = <variable> ...` split at whitespace from the text as received
   * (not upper-cased): at least five words with `=` fourth; the value is the words from
   * the seventh on, joined by single spaces, so the sixth word is dropped.
   */
  function ParseSet(raw: string): (r: Option<SetRequest>)
    ensures r.Some? <==> |Words(Strip(raw))| >= 5 && Words(Strip(raw))[3] == "="
  {
    var parts := Words(Strip(raw));
    if |parts| >= 5 && parts[3] == "=" then
      Some(SetRequest(parts[2], parts[4], Join(" ", if |parts| >= 6 then parts[6..] else [])))
    else None
  }

  /** The request sets an existing variable of an existing device. */
  predicate Applies(data: Devices, req: SetRequest) {
    req.device in data && req.variable in data[req.device]
  }

  /** The reply handle_client sends, or None when the request is empty and nothing is sent. */
  function Response(names: seq<string>, keyOrder: map<string, seq<string>>, data: Devices, raw: string): Option<string>
    requires Shaped(names, keyOrder, data)
  {
    if raw == "" then None else Some(Reply(names, keyOrder, data, Command(raw), raw))
  }

  /** The reply to the dispatched command cmd; only SET VAR goes back to the text as received. */
  function Reply(names: seq<string>, keyOrder: map<string, seq<string>>, data: Devices, cmd: string, raw: string): string
    requires Shaped(names, keyOrder, data)
  {
    if cmd == "LIST UPS" then Lines(ListUpsLines(names, data))
    else if StartsWith(cmd, "LIST VAR") then ListVarReply(keyOrder, data, cmd)
    else if StartsWith(cmd, "LOGIN") then "OK\n"
    else if StartsWith(cmd, "SET VAR") then SetVarReply(data, raw)
    else "ERR UNKNOWN-COMMAND\n"
  }

  /** LIST VAR: exactly three words, the third naming a device once lower-cased. */
  function ListVarReply(keyOrder: map<string, seq<string>>, data: Devices, cmd: string): string
    requires forall d :: d in data ==> d in keyOrder && (forall k :: k in keyOrder[d] ==> k in data[d])
  {
    var parts := Words(cmd);
    if |parts| == 3 then
      var name := Lower(parts[2]);
      if name in data then Lines(ListVarLines(name, keyOrder[name], data[name]))
      else "ERR UNKNOWN-UPS\n"
    else "ERR SYNTAX-ERROR\n"
  }

  /** SET VAR: OK when the request names an existing variable of an existing device. */
  function SetVarReply(data: Devices, raw: string): string {
    match ParseSet(raw)
    case None => "ERR SYNTAX-ERROR\n"
    case Some(req) => if Applies(data, req) then "OK\n" else "ERR UNKNOWN-UPS-OR-VAR\n"
  }

  /** What SET VAR leaves in the table. */
  function SetVarResult(data: Devices, raw: string): Devices {
    match ParseSet(raw)
    case Some(req) => if Applies(data, req) then data[req.device := data[req.device][req.variable := req.value]] else data
    case None => data
  }

  /** The command reaches the SET VAR branch. */
  predicate SetVarCommand(cmd: string) {
    && cmd != "LIST UPS"
    && !StartsWith(cmd, "LIST VAR")
    && !StartsWith(cmd, "LOGIN")
    && StartsWith(cmd, "SET VAR")
  }

  /** A request that reaches the SET VAR branch. */
  predicate IsSetVar(raw: string) {
    raw != "" && SetVarCommand(Command(raw))
  }

  /** UPS_DATA after the request: only SET VAR writes. */
  function AfterCommand(data: Devices, raw: string): Devices {
    if IsSetVar(raw) then SetVarResult(data, raw) else data
  }

  /* ---------- update_dynamic_values ---------- */

  /**
   * One pass of the updater over the devices in order, from the given point: the table it
   * leaves and whether it got through. A step that raises ends the updater thread, so the
   * pass stops there.
   */
  function Pass(data: Devices, names: seq<string>, draws: seq<Draws>, initialRuntimes: map<string, int>, n: Numbers): (Devices, bool)
    requires |draws| == |names|
    requires forall d :: d in names ==> d in data && d in initialRuntimes
    decreases |names|
  {
    if |names| == 0 then (data, true)
    else
      match Step(data[names[0]], draws[0], initialRuntimes[names[0]], n)
      case None => (data, false)
      case Some(v) => Pass(data[names[0] := v], names[1..], draws[1..], initialRuntimes, n)
  }

  /** The simulator: UPS_DATA, its order, and INITIAL_RUNTIMES. */
  class NutServer {
    const names: seq<string>
    const keyOrder: map<string, seq<string>>
    const initialRuntimes: map<string, int>
    var data: Devices

    ghost predicate Valid()
      reads this
    {
      && Shaped(names, keyOrder, data)
      && (forall d :: d in data ==> d in initialRuntimes)
    }

    /** INITIAL_RUNTIMES is `int(battery.runtime)` of every device, read once at start-up. */
    constructor(names: seq<string>, keyOrder: map<string, seq<string>>, data: Devices, numbers: Numbers)
      requires Shaped(names, keyOrder, data)
      requires forall d :: d in data ==> IntAt(data[d], RuntimeKey, numbers).Some?
      ensures Valid()
      ensures this.names == names && this.keyOrder == keyOrder && this.data == data
      ensures forall d :: d in data ==> initialRuntimes[d] == IntAt(data[d], RuntimeKey, numbers).value
    {
      this.names := names;
      this.keyOrder := keyOrder;
      this.data := data;
      this.initialRuntimes := map d | d in data :: IntAt(data[d], RuntimeKey, numbers).value;
    }

    /** handle_client on one received request. */
    method HandleClient(raw: string) returns (response: Option<string>)
      requires Valid()
      modifies this
      ensures Valid()
      ensures response == Response(names, keyOrder, old(data), raw)
      ensures data == AfterCommand(old(data), raw)
    {
      if raw == "" {
        return None;
      }
      var cmd := Upper(Strip(raw));
      var reply := Dispatch(cmd, raw);
      response := Some(reply);
    }

    /** The if-chain of handle_client on the stripped, upper-cased command. */
    method Dispatch(cmd: string, raw: string) returns (reply: string)
      requires Valid()
      modifies this
      ensures Valid()
      ensures reply == Reply(names, keyOrder, old(data), cmd, raw)
      ensures data == if SetVarCommand(cmd) then SetVarResult(old(data), raw) else old(data)
    {
      if cmd == "LIST UPS" {
        reply := ListUps();
      } else if StartsWith(cmd, "LIST VAR") {
        reply := ListVarCommand(cmd);
      } else if StartsWith(cmd, "LOGIN") {
        reply := "OK\n";
      } else if StartsWith(cmd, "SET VAR") {
        reply := SetVar(raw);
      } else {
        reply := "ERR UNKNOWN-COMMAND\n";
      }
    }

    method ListVarCommand(cmd: string) returns (reply: string)
      requires Valid()
      ensures reply == ListVarReply(keyOrder, data, cmd)
    {
      var parts := Words(cmd);
      if |parts| == 3 {
        var name := Lower(parts[2]);
        if name in data {
          reply := ListVar(name);
        } else {
          reply := "ERR UNKNOWN-UPS\n";
        }
      } else {
        reply := "ERR SYNTAX-ERROR\n";
      }
    }

    /** SET VAR, read from the text as received: a known variable of a known device takes the value. */
    method SetVar(raw: string) returns (reply: string)
      requires Valid()
      modifies this
      ensures Valid()
      ensures reply == SetVarReply(old(data), raw)
      ensures data == SetVarResult(old(data), raw)
    {
      var request := ParseSet(raw);
      SetVarOutcome(data, raw);
      if request.Some? {
        var device, variable, value := request.value.device, request.value.variable, request.value.value;
        if device in data && variable in data[device] {
          var updated := data[device := data[device][variable := value]];
          ShapedAfterReplace(names, keyOrder, data, device, data[device][variable := value]);
          data := updated;
          reply := "OK\n";
        } else {
          reply := "ERR UNKNOWN-UPS-OR-VAR\n";
        }
      } else {
        reply := "ERR SYNTAX-ERROR\n";
      }
    }

    /** The LIST UPS reply, built line by line in device order. */
    method ListUps() returns (reply: string)
      requires forall d :: d in names ==> d in data
      ensures reply == Lines(ListUpsLines(names, data))
    {
      var begin := "BEGIN LIST UPS";
      reply := begin + "\n";
      assert reply == Lines([begin] + UpsLines(names[..0], data)) by {
        LinesSnoc([], begin);
      }
      for i := 0 to |names|
        invariant reply == Lines([begin] + UpsLines(names[..i], data))
      {
        var line := UpsLine(names[i], Description(data[names[i]]));
        UpsReplySnoc(begin, names, data, i);
        reply := reply + line + "\n";
      }
      assert names[..|names|] == names;
      LinesSnoc([begin] + UpsLines(names, data), "END LIST UPS");
      reply := reply + "END LIST UPS" + "\n";
    }

    /** The reply to `LIST VAR <name>`, built line by line in variable order. */
    method ListVar(name: string) returns (reply: string)
      requires name in data && name in keyOrder && forall k :: k in keyOrder[name] ==> k in data[name]
      ensures reply == Lines(ListVarLines(name, keyOrder[name], data[name]))
    {
      var keys := keyOrder[name];
      var vars := data[name];
      var begin := "BEGIN LIST VAR " + name;
      reply := begin + "\n";
      assert reply == Lines([begin] + VarLines(name, keys[..0], vars)) by {
        LinesSnoc([], begin);
      }
      for i := 0 to |keys|
        invariant reply == Lines([begin] + VarLines(name, keys[..i], vars))
      {
        var line := VarLine(name, keys[i], vars[keys[i]]);
        VarLinesSnoc(name, keys, vars, i);
        assert [begin] + VarLines(name, keys[..i + 1], vars) == ([begin] + VarLines(name, keys[..i], vars)) + [line];
        LinesSnoc([begin] + VarLines(name, keys[..i], vars), line);
        reply := reply + line + "\n";
      }
      assert keys[..|keys|] == keys;
      LinesSnoc([begin] + VarLines(name, keys, vars), "END LIST VAR " + name);
      reply := reply + "END LIST VAR " + name + "\n";
    }

    /**
     * One pass of update_dynamic_values: each device in turn takes its step with its own
     * draws; ok is false when a step raised, and the devices after it are left as they were.
     */
    method UpdateDynamicValues(draws: seq<Draws>, numbers: Numbers) returns (ok: bool)
      requires Valid() && |draws| == |names|
      modifies this
      ensures Valid()
      ensures (data, ok) == Pass(old(data), names, draws, initialRuntimes, numbers)
    {
      ok := true;
      ghost var goal := Pass(data, names, draws, initialRuntimes, numbers);
      for i := 0 to |names|
        invariant Valid()
        invariant ok
        invariant Pass(data, names[i..], draws[i..], initialRuntimes, numbers) == goal
      {
        var name := names[i];
        var r := Step(data[name], draws[i], initialRuntimes[name], numbers);
        assert names[i..][0] == name && names[i..][1..] == names[i + 1..] && draws[i..][1..] == draws[i + 1..];
        if r.None? {
          ok := false;
          return;
        }
        StepKeepsKeys(data[name], draws[i], initialRuntimes[name], numbers);
        ShapedAfterReplace(names, keyOrder, data, name, r.value);
        data := data[name := r.value];
      }
    }
  }

  /* ---------- Properties ---------- */

  /** SET VAR's reply and resulting table, in terms of the parsed request. */
  lemma SetVarOutcome(data: Devices, raw: string)
    ensures ParseSet(raw).None? ==> SetVarReply(data, raw) == "ERR SYNTAX-ERROR\n" && SetVarResult(data, raw) == data
    ensures ParseSet(raw).Some? ==>
      var req := ParseSet(raw).value;
      && SetVarReply(data, raw) == (if Applies(data, req) then "OK\n" else "ERR UNKNOWN-UPS-OR-VAR\n")
      && SetVarResult(data, raw) == (if Applies(data, req) then data[req.device := data[req.device][req.variable := req.value]] else data)
  {
  }

  /** Replacing a device's variables by others with the same names keeps the table's shape. */
  lemma ShapedAfterReplace(names: seq<string>, keyOrder: map<string, seq<string>>, data: Devices, d: string, v: Vars)
    requires Shaped(names, keyOrder, data) && d in data && v.Keys == data[d].Keys
    ensures Shaped(names, keyOrder, data[d := v])
    ensures data[d := v].Keys == data.Keys
  {
  }

  /** The two texts differ at most in the case of ASCII letters. */
  predicate SameUpToCase(a: string, b: string) {
    |a| == |b| && forall i :: 0 <= i < |a| ==> UpperChar(a[i]) == UpperChar(b[i])
  }

  /** Characters equal up to case are both whitespace or both not. */
  lemma SameCaseSpace(x: char, y: char)
    requires UpperChar(x) == UpperChar(y)
    ensures IsSpace(x) <==> IsSpace(y)
  {
    if 'a' <= x <= 'z' {
      assert 'A' <= UpperChar(x) <= 'Z';
    }
    if 'a' <= y <= 'z' {
      assert 'A' <= UpperChar(y) <= 'Z';
    }
  }

  lemma {:induction false} TrimLeftSameCase(a: string, b: string)
    requires SameUpToCase(a, b)
    ensures SameUpToCase(TrimLeft(a), TrimLeft(b))
    decreases |a|
  {
    if |a| > 0 {
      SameCaseSpace(a[0], b[0]);
      if IsSpace(a[0]) {
        assert forall i :: 0 <= i < |a| - 1 ==> a[1..][i] == a[i + 1] && b[1..][i] == b[i + 1];
        TrimLeftSameCase(a[1..], b[1..]);
      }
    }
  }

  lemma {:induction false} TrimRightSameCase(a: string, b: string)
    requires SameUpToCase(a, b)
    ensures SameUpToCase(TrimRight(a), TrimRight(b))
    decreases |a|
  {
    if |a| > 0 {
      SameCaseSpace(a[|a| - 1], b[|b| - 1]);
      if IsSpace(a[|a| - 1]) {
        assert forall i :: 0 <= i < |a| - 1 ==> a[..|a| - 1][i] == a[i] && b[..|b| - 1][i] == b[i];
        TrimRightSameCase(a[..|a| - 1], b[..|b| - 1]);
      }
    }
  }

  lemma StripSameCase(a: string, b: string)
    requires SameUpToCase(a, b)
    ensures SameUpToCase(Strip(a), Strip(b))
  {
    TrimLeftSameCase(a, b);
    TrimRightSameCase(TrimLeft(a), TrimLeft(b));
  }

  lemma UpperSameCase(a: string, b: string)
    requires SameUpToCase(a, b)
    ensures Upper(a) == Upper(b)
  {
  }

  /** Texts equal up to case give the same command. */
  lemma CommandIgnoresCase(a: string, b: string)
    requires SameUpToCase(a, b)
    ensures Command(a) == Command(b)
  {
    StripSameCase(a, b);
    UpperSameCase(Strip(a), Strip(b));
  }

  /**
   * Command words match whatever their case: two requests that differ only in the case of
   * letters get the same reply and leave the table alike, unless they are SET VAR, which
   * reads the device, variable and value from the text as received.
   */
  lemma RepliesIgnoreCase(names: seq<string>, keyOrder: map<string, seq<string>>, data: Devices, a: string, b: string)
    requires Shaped(names, keyOrder, data)
    requires SameUpToCase(a, b)
    requires !StartsWith(Command(a), "SET VAR")
    ensures Response(names, keyOrder, data, a) == Response(names, keyOrder, data, b)
  {
    CommandIgnoresCase(a, b);
    ReplyIgnoresText(names, keyOrder, data, Command(a), a, b);
  }

  /** Only SET VAR writes to the table. */
  lemma OnlySetVarWrites(data: Devices, raw: string)
    requires !StartsWith(Command(raw), "SET VAR")
    ensures AfterCommand(data, raw) == data
  {
    assert !IsSetVar(raw);
  }

  lemma ReplyIgnoresText(names: seq<string>, keyOrder: map<string, seq<string>>, data: Devices, cmd: string, a: string, b: string)
    requires Shaped(names, keyOrder, data)
    requires !StartsWith(cmd, "SET VAR")
    ensures Reply(names, keyOrder, data, cmd, a) == Reply(names, keyOrder, data, cmd, b)
  {
  }

  /**
   * SET VAR writes only an existing variable of an existing device, and only when it
   * answers OK: then that variable holds the request's value, and every other device and
   * variable is unchanged; every other reply leaves the table as it was.
   */
  lemma SetVarOnlyExisting(names: seq<string>, keyOrder: map<string, seq<string>>, data: Devices, raw: string)
    requires Shaped(names, keyOrder, data)
    ensures var r := AfterCommand(data, raw);
      && r.Keys == data.Keys
      && (forall d :: d in data ==> r[d].Keys == data[d].Keys)
      && (Response(names, keyOrder, data, raw) != Some("OK\n") ==> r == data)
      && (forall d, k :: d in data && k in data[d] && r[d][k] != data[d][k] ==>
            && IsSetVar(raw)
            && ParseSet(raw) == Some(SetRequest(d, k, r[d][k]))
            && Response(names, keyOrder, data, raw) == Some("OK\n"))
  {
    var r := AfterCommand(data, raw);
    if IsSetVar(raw) && ParseSet(raw).Some? && Applies(data, ParseSet(raw).value) {
      var req := ParseSet(raw).value;
      assert Response(names, keyOrder, data, raw) == Some("OK\n");
      forall d, k | d in data && k in data[d] && r[d][k] != data[d][k]
        ensures ParseSet(raw) == Some(SetRequest(d, k, r[d][k]))
      {
        assert d == req.device && k == req.variable;
      }
    }
  }

  /** A request that answers OK under SET VAR stores its value. */
  lemma SetVarStores(names: seq<string>, keyOrder: map<string, seq<string>>, data: Devices, raw: string)
    requires Shaped(names, keyOrder, data)
    requires IsSetVar(raw) && Response(names, keyOrder, data, raw) == Some("OK\n")
    ensures ParseSet(raw).Some? && Applies(data, ParseSet(raw).value)
    ensures var req := ParseSet(raw).value;
      AfterCommand(data, raw)[req.device][req.variable] == req.value
  {
  }

  /** The table keeps its shape under every request. */
  lemma AfterCommandShaped(names: seq<string>, keyOrder: map<string, seq<string>>, data: Devices, raw: string)
    requires Shaped(names, keyOrder, data)
    ensures Shaped(names, keyOrder, AfterCommand(data, raw))
  {
    SetVarOnlyExisting(names, keyOrder, data, raw);
  }

  /**
   * A pass that gets through gives each listed device exactly its own step, once; devices
   * not listed are untouched, and no device is added or dropped.
   */
  lemma {:induction false} PassSteps(data: Devices, names: seq<string>, draws: seq<Draws>, initialRuntimes: map<string, int>, n: Numbers)
    requires |draws| == |names| && Distinct(names)
    requires forall d :: d in names ==> d in data && d in initialRuntimes
    ensures var (r, ok) := Pass(data, names, draws, initialRuntimes, n);
      && r.Keys == data.Keys
      && (forall d :: d in data && d !in names ==> r[d] == data[d])
      && (ok ==> forall i :: 0 <= i < |names| ==> Step(data[names[i]], draws[i], initialRuntimes[names[i]], n) == Some(r[names[i]]))
    decreases |names|
  {
    if |names| > 0 {
      var v := Step(data[names[0]], draws[0], initialRuntimes[names[0]], n);
      if v.Some? {
        var rest := names[1..];
        assert forall d :: d in rest ==> d != names[0] by {
          assert forall i :: 0 <= i < |rest| ==> rest[i] == names[i + 1];
        }
        PassSteps(data[names[0] := v.value], rest, draws[1..], initialRuntimes, n);
        var (r, ok) := Pass(data, names, draws, initialRuntimes, n);
        if ok {
          forall i | 0 <= i < |names|
            ensures Step(data[names[i]], draws[i], initialRuntimes[names[i]], n) == Some(r[names[i]])
          {
            if i > 0 {
              assert names[i] == rest[i - 1] && draws[i] == draws[1..][i - 1];
            }
          }
        }
      }
    }
  }

  /** After a pass that gets through, every device's ups.load reads back within 5..100. */
  lemma PassLoadInRange(data: Devices, names: seq<string>, draws: seq<Draws>, initialRuntimes: map<string, int>, n: Numbers)
    requires |draws| == |names| && Distinct(names)
    requires forall d :: d in names ==> d in data && d in initialRuntimes
    requires ReadsBackInts(n)
    ensures var (r, ok) := Pass(data, names, draws, initialRuntimes, n);
      ok ==> forall d :: d in names ==> d in r && IntAt(r[d], LoadKey, n).Some? && 5 <= IntAt(r[d], LoadKey, n).value <= 100
  {
    PassSteps(data, names, draws, initialRuntimes, n);
    var (r, ok) := Pass(data, names, draws, initialRuntimes, n);
    if ok {
      forall d | d in names
        ensures d in r && IntAt(r[d], LoadKey, n).Some? && 5 <= IntAt(r[d], LoadKey, n).value <= 100
      {
        var i :| 0 <= i < |names| && names[i] == d;
        StepLoadInRange(data[d], draws[i], initialRuntimes[d], n);
      }
    }
  }
}
