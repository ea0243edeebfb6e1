/**
 * nutalert/parser.py: `parse_nut_data` keeps the lines of a NUT response that match
 * `^VAR ups\s+([^ ]+)\s+"([^"]+)"$` (after stripping) and coerces each quoted value to an
 * int, else a float, else the stripped string; a later line for the same key wins.
 */
module Parser {
  import opened Common
  import opened PyText

  /** A telemetry value after coercion. */
  datatype NutValue = IntValue(i: int) | FloatValue(r: real) | StrValue(s: string)

  /**
   * Python's `float(s)`: Some(x) when it parses, None when it raises ValueError.
   * Float syntax and rounding are not modelled, so the parser takes it as a parameter.
   */
  type FloatParser = string -> Option<real>

  const Prefix: string := "VAR ups"

  predicate AllSpace(s: string) {
    forall i :: 0 <= i < |s| ==> IsSpace(s[i])
  }

  predicate NoBlank(s: string) {
    forall i :: 0 <= i < |s| ==> s[i] != ' '
  }

  predicate NoQuote(s: string) {
    forall i :: 0 <= i < |s| ==> s[i] != '"'
  }

  /** The text between `VAR ups` and the opening quote read as `\s+([^ ]+)\s+`, key = m[i..j]. */
  predicate SplitOk(m: string, i: int, j: int) {
    0 < i < j < |m| && AllSpace(m[..i]) && NoBlank(m[i..j]) && AllSpace(m[j..])
  }

  /**
   * The stripped line s matches the pattern with the opening quote of the value at q and
   * the key at s[|Prefix| + i .. |Prefix| + j].
   */
  predicate Shape(s: string, q: int, i: int, j: int) {
    && StartsWith(s, Prefix)
    && |Prefix| <= q < |s| - 2
    && s[q] == '"' && s[|s| - 1] == '"'
    && NoQuote(s[q + 1..|s| - 1])
    && SplitOk(s[|Prefix|..q], i, j)
  }

  /** Lexicographic order on the (whitespace, key) split points the regex engine backtracks over. */
  predicate SplitBefore(i: int, j: int, i': int, j': int) {
    i < i' || (i == i' && j <= j')
  }

  /** The last index below n holding c, if any. */
  function LastIndexBelow(s: string, c: char, n: nat): (r: Option<nat>)
    requires n <= |s|
    ensures r.Some? ==> r.value < n && s[r.value] == c && forall k :: r.value < k < n ==> s[k] != c
  {
    if n == 0 then None else if s[n - 1] == c then Some(n - 1) else LastIndexBelow(s, c, n - 1)
  }

  lemma {:induction false} LastIndexBelowSpec(s: string, c: char, n: nat)
    requires n <= |s|
    ensures LastIndexBelow(s, c, n).None? ==> forall k :: 0 <= k < n ==> s[k] != c
  {
    if n > 0 && s[n - 1] != c {
      LastIndexBelowSpec(s, c, n - 1);
    }
  }

  /** The greatest key end j' <= j for whitespace length i: greedy `([^ ]+)` with backtracking. */
  function FindKeyEnd(m: string, i: nat, j: nat): (r: Option<nat>)
    ensures r.Some? ==> r.value <= j && SplitOk(m, i, r.value)
  {
    if j <= i then None
    else if SplitOk(m, i, j) then Some(j)
    else FindKeyEnd(m, i, j - 1)
  }

  lemma {:induction false} FindKeyEndSpec(m: string, i: nat, j: nat)
    ensures var r := FindKeyEnd(m, i, j);
      r.Some? ==> forall j' :: r.value < j' <= j ==> !SplitOk(m, i, j')
    ensures FindKeyEnd(m, i, j).None? ==> forall j' :: j' <= j ==> !SplitOk(m, i, j')
  {
    if j > i && !SplitOk(m, i, j) {
      FindKeyEndSpec(m, i, j - 1);
    }
  }

  /** The greatest split (i, j) with i <= i0: greedy `\s+`, then greedy `([^ ]+)`. */
  function FindSplit(m: string, i0: nat): (r: Option<(nat, nat)>)
    ensures r.Some? ==> r.value.0 <= i0 && SplitOk(m, r.value.0, r.value.1)
  {
    if i0 == 0 then None
    else
      match FindKeyEnd(m, i0, |m|)
      case Some(j) => Some((i0, j))
      case None => FindSplit(m, i0 - 1)
  }

  lemma {:induction false} FindSplitSpec(m: string, i0: nat)
    ensures var r := FindSplit(m, i0);
      r.Some? ==> forall i, j :: i <= i0 && SplitOk(m, i, j) ==> SplitBefore(i, j, r.value.0, r.value.1)
    ensures FindSplit(m, i0).None? ==> forall i, j :: i <= i0 ==> !SplitOk(m, i, j)
  {
    if i0 > 0 {
      FindKeyEndSpec(m, i0, |m|);
      forall j | SplitOk(m, i0, j) ensures j <= |m| { }
      if FindKeyEnd(m, i0, |m|).None? {
        FindSplitSpec(m, i0 - 1);
      }
    }
  }

  /**
   * The regular expression of parse_nut_data applied to `line.strip()`: the key and the
   * value it captures, or None when the line does not match. Where the whitespace and the
   * key could be split in several ways (tabs are whitespace but may occur in a key), the
   * split is the one Python's backtracking engine reports: the longest leading
   * whitespace, then the longest key.
   */
  function MatchLine(line: string): (r: Option<(string, string)>)
    ensures r.Some? ==> |r.value.0| > 0 && NoBlank(r.value.0) && |r.value.1| > 0 && NoQuote(r.value.1)
  {
    MatchStripped(Strip(line))
  }

  /** The pattern against an already stripped line. */
  function MatchStripped(s: string): (r: Option<(string, string)>)
    ensures r.Some? ==> |r.value.0| > 0 && NoBlank(r.value.0) && |r.value.1| > 0 && NoQuote(r.value.1)
  {
    if !(StartsWith(s, Prefix) && |s| >= 2 && s[|s| - 1] == '"') then None
    else
      match LastIndexBelow(s, '"', |s| - 1)
      case None => None
      case Some(q) =>
        if !(|Prefix| <= q < |s| - 2) then None
        else
          var m := s[|Prefix|..q];
          match FindSplit(m, |m|)
          case None => None
          case Some((i, j)) =>
            assert forall k :: q < k < |s| - 1 ==> s[k] != '"';
            Some((m[i..j], s[q + 1..|s| - 1]))
  }

  /** In a line of the pattern's shape, the opening quote of the value is the last quote before the closing one. */
  lemma ShapeQuoteIsLast(s: string, q: int, i: int, j: int)
    requires Shape(s, q, i, j)
    ensures LastIndexBelow(s, '"', |s| - 1) == Some(q)
  {
    LastIndexBelowSpec(s, '"', |s| - 1);
    assert forall k :: q < k < |s| - 1 ==> s[k] == s[q + 1..|s| - 1][k - q - 1];
  }

  /**
   * A match of MatchLine is a decomposition of the stripped line, the one the backtracking
   * engine finds first: every other decomposition has a smaller split.
   */
  lemma MatchIsRegexMatch(s: string)
    ensures var r := MatchStripped(s);
      r.Some? ==> exists q, i, j ::
        && Shape(s, q, i, j)
        && r.value == (s[|Prefix| + i..|Prefix| + j], s[q + 1..|s| - 1])
        && forall i', j' :: Shape(s, q, i', j') ==> SplitBefore(i', j', i, j)
  {
    if MatchStripped(s).Some? {
      var q := LastIndexBelow(s, '"', |s| - 1).value;
      var m := s[|Prefix|..q];
      var (i, j) := FindSplit(m, |m|).value;
      FindSplitSpec(m, |m|);
      assert Shape(s, q, i, j);
      assert m[i..j] == s[|Prefix| + i..|Prefix| + j];
      forall i', j' | Shape(s, q, i', j') ensures SplitBefore(i', j', i, j) {
        assert SplitOk(m, i', j');
      }
    }
  }

  /** MatchLine finds no match only when the stripped line has no decomposition at all. */
  lemma NoMatchIsNoShape(s: string)
    ensures MatchStripped(s).None? ==> forall q, i, j :: !Shape(s, q, i, j)
  {
    forall q, i, j | Shape(s, q, i, j) ensures MatchStripped(s).Some? {
      ShapeQuoteIsLast(s, q, i, j);
      var m := s[|Prefix|..q];
      FindSplitSpec(m, |m|);
      assert SplitOk(m, i, j);
    }
  }

  /** One quoted value: int if `int()` accepts it, else float if `float()` does, else stripped text. */
  function Coerce(value: string, parseFloat: FloatParser): NutValue {
    match ParseInt(value)
    case Some(n) => IntValue(n)
    case None =>
      match parseFloat(value)
      case Some(x) => FloatValue(x)
      case None => StrValue(Strip(value))
  }

  /** Matches one line: the key and the raw quoted value, or None. */
  type LineMatcher = string -> Option<(string, string)>

  /** The line sets the key under the given matcher. */
  predicate Defines(matcher: LineMatcher, line: string, key: string) {
    matcher(line).Some? && matcher(line).value.0 == key
  }

  /** The line sets the key under the pattern of parse_nut_data. */
  predicate DefinesKey(line: string, key: string) {
    Defines(MatchLine, line, key)
  }

  /** The body of the loop: a matching line sets its key, any other line changes nothing. */
  function Record(before: map<string, NutValue>, m: Option<(string, string)>, parseFloat: FloatParser): map<string, NutValue> {
    match m
    case None => before
    case Some((key, value)) => before[key := Coerce(value, parseFloat)]
  }

  /** What the loop of parse_nut_data has built after the given lines, whatever the matcher. */
  function Fold(lines: seq<string>, matcher: LineMatcher, parseFloat: FloatParser): map<string, NutValue> {
    if |lines| == 0 then map[]
    else Record(Fold(lines[..|lines| - 1], matcher, parseFloat), matcher(lines[|lines| - 1]), parseFloat)
  }

  /** What the loop of parse_nut_data has built after the given lines. */
  function Parsed(lines: seq<string>, parseFloat: FloatParser): map<string, NutValue> {
    Fold(lines, MatchLine, parseFloat)
  }

  /** parse_nut_data: one pass over `raw.splitlines()`, inserting each matching line. */
  method ParseNutData(raw: string, parseFloat: FloatParser) returns (values: map<string, NutValue>)
    ensures values == Parsed(SplitLines(raw), parseFloat)
    ensures raw == "" ==> values == map[]
  {
    var lines := SplitLines(raw);
    values := map[];
    for n := 0 to |lines|
      invariant values == Fold(lines[..n], MatchLine, parseFloat)
    {
      FoldPrefix(lines, n, MatchLine, parseFloat);
      var m := MatchLine(lines[n]);
      if m.Some? {
        values := values[m.value.0 := Coerce(m.value.1, parseFloat)];
      }
    }
    assert lines[..|lines|] == lines;
  }

  lemma FoldPrefix(lines: seq<string>, n: nat, matcher: LineMatcher, parseFloat: FloatParser)
    requires n < |lines|
    ensures Fold(lines[..n + 1], matcher, parseFloat) == Record(Fold(lines[..n], matcher, parseFloat), matcher(lines[n]), parseFloat)
  {
    assert lines[..n + 1][..n] == lines[..n];
    assert lines[..n + 1][n] == lines[n];
  }

  /** The index of the last line that defines the key, if any. */
  function LastDefining(lines: seq<string>, matcher: LineMatcher, key: string): (r: Option<nat>)
    ensures r.Some? ==> r.value < |lines| && Defines(matcher, lines[r.value], key)
  {
    if |lines| == 0 then None
    else if Defines(matcher, lines[|lines| - 1], key) then Some(|lines| - 1)
    else LastDefining(lines[..|lines| - 1], matcher, key)
  }

  lemma {:induction false} LastDefiningIsLast(lines: seq<string>, matcher: LineMatcher, key: string)
    ensures LastDefining(lines, matcher, key).None? ==> forall i :: 0 <= i < |lines| ==> !Defines(matcher, lines[i], key)
    ensures LastDefining(lines, matcher, key).Some? ==>
      forall j :: LastDefining(lines, matcher, key).value < j < |lines| ==> !Defines(matcher, lines[j], key)
  {
    if |lines| > 0 && !Defines(matcher, lines[|lines| - 1], key) {
      var init := lines[..|lines| - 1];
      LastDefiningIsLast(init, matcher, key);
      assert forall j :: 0 <= j < |init| ==> init[j] == lines[j];
    }
  }

  /** The map holds the key exactly when some line defines it, with the value of the last such line. */
  lemma {:induction false} FoldLastDefining(lines: seq<string>, matcher: LineMatcher, parseFloat: FloatParser, key: string)
    ensures key in Fold(lines, matcher, parseFloat) <==> LastDefining(lines, matcher, key).Some?
    ensures key in Fold(lines, matcher, parseFloat) ==>
      Fold(lines, matcher, parseFloat)[key] == Coerce(matcher(lines[LastDefining(lines, matcher, key).value]).value.1, parseFloat)
  {
    if |lines| > 0 {
      var n := |lines| - 1;
      var init := lines[..n];
      FoldLastDefining(init, matcher, parseFloat, key);
      if !Defines(matcher, lines[n], key) && LastDefining(init, matcher, key).Some? {
        assert lines[LastDefining(init, matcher, key).value] == init[LastDefining(init, matcher, key).value];
      }
    }
  }

  /**
   * A key is present iff some line defines it, and its value is the coerced value of the
   * last line that defines it.
   */
  lemma ParsedEntry(lines: seq<string>, parseFloat: FloatParser, key: string)
    ensures key in Parsed(lines, parseFloat) <==> exists i :: 0 <= i < |lines| && DefinesKey(lines[i], key)
    ensures key in Parsed(lines, parseFloat) ==>
      exists i :: && 0 <= i < |lines| && DefinesKey(lines[i], key)
                  && Parsed(lines, parseFloat)[key] == Coerce(MatchLine(lines[i]).value.1, parseFloat)
                  && forall j :: i < j < |lines| ==> !DefinesKey(lines[j], key)
  {
    FoldLastDefining(lines, MatchLine, parseFloat, key);
    LastDefiningIsLast(lines, MatchLine, key);
  }

  /** Every recorded key is non-empty and holds no space. */
  lemma {:induction false} ParsedKeysWellFormed(lines: seq<string>, parseFloat: FloatParser)
    ensures forall key :: key in Parsed(lines, parseFloat) ==> |key| > 0 && NoBlank(key)
  {
    forall key | key in Parsed(lines, parseFloat)
      ensures |key| > 0 && NoBlank(key)
    {
      ParsedEntry(lines, parseFloat, key);
    }
  }

  /** The coercion order: an int-looking value is an int whatever the float parser says. */
  lemma CoerceIntFirst(n: int, parseFloat: FloatParser)
    ensures Coerce(IntToString(n), parseFloat) == IntValue(n)
  {
    ParseIntToString(n);
  }
}
