/**
 * nutalert/utils.py: the in-memory log buffer (a `deque(maxlen=100)` fed by a writer
 * that strips each message and drops blank ones), the text shown as recent logs, and the
 * location of `config.yaml`.
 */
module Utils {
  import opened PyText

  const MaxLogEntries: nat := 100

  /** The newest `MaxLogEntries` items of s, in order: what a bounded deque keeps. */
  function Newest(s: seq<string>): (r: seq<string>)
    ensures |r| <= MaxLogEntries
    ensures |r| == if |s| < MaxLogEntries then |s| else MaxLogEntries
    ensures r == s[|s| - |r|..]
  {
    if |s| <= MaxLogEntries then s else s[|s| - MaxLogEntries..]
  }

  /** Trimming before each append keeps what trimming once at the end keeps. */
  lemma {:induction false} NewestAppend(s: seq<string>, x: string)
    ensures Newest(Newest(s) + [x]) == Newest(s + [x])
  {
    var t := Newest(s);
    var u := t + [x];
    assert u == s[|s| - |t|..] + [x] == (s + [x])[|s| - |t|..];
    assert Newest(u) == u[|u| - |Newest(u)|..];
  }

  /** The entries written by a sequence of `write` calls, before the length bound. */
  function Written(messages: seq<string>): seq<string> {
    if |messages| == 0 then []
    else
      var before := Written(messages[..|messages| - 1]);
      var m := Strip(messages[|messages| - 1]);
      if m == "" then before else before + [m]
  }

  /** The LOG_BUFFER deque with the LogBufferIO writer over it. */
  class LogBuffer {
    var entries: seq<string>

    ghost predicate Valid()
      reads this
    {
      |entries| <= MaxLogEntries && forall k :: 0 <= k < |entries| ==> entries[k] != ""
    }

    constructor()
      ensures Valid() && entries == []
    {
      entries := [];
    }

    /** LogBufferIO.write: append the stripped message at the back unless it is blank; a full buffer drops its oldest entry. */
    method Write(message: string)
      requires Valid()
      modifies this
      ensures Valid()
      ensures Strip(message) == "" ==> entries == old(entries)
      ensures Strip(message) != "" ==> entries == Newest(old(entries) + [Strip(message)])
    {
      var m := Strip(message);
      if m != "" {
        var appended := entries + [m];
        if |appended| > MaxLogEntries {
          appended := appended[1..];
        }
        assert appended == Newest(entries + [m]);
        assert forall k :: 0 <= k < |appended| ==> appended[k] in entries + [m];
        entries := appended;
      }
    }

    /**
     * The logging stream's writes, one `write` call per message in order: the buffer ends
     * with the newest 100 of its old entries followed by the non-blank stripped messages.
     */
    method WriteAll(messages: seq<string>)
      requires Valid()
      modifies this
      ensures Valid()
      ensures entries == Newest(old(entries) + Written(messages))
    {
      ghost var start := entries;
      assert start + [] == start;
      var i := 0;
      while i < |messages|
        invariant 0 <= i <= |messages|
        invariant Valid()
        invariant entries == Newest(start + Written(messages[..i]))
      {
        assert messages[..i + 1] == messages[..i] + [messages[i]];
        WritesKeepNewest(start, messages[..i], messages[i]);
        Write(messages[i]);
        i := i + 1;
      }
      assert messages[..i] == messages;
    }

    /** LogBufferIO.flush: nothing to do. */
    method Flush()
      ensures unchanged(this)
    {
    }

    /** get_recent_logs. */
    function RecentLogs(): string
      reads this
    {
      Join("\n", entries)
    }
  }

  /**
   * One more write after a run of writes on a buffer that held start: a blank message
   * leaves the newest 100 as they were, and any other message joins, stripped, the newest
   * 100 of the run before it.
   */
  lemma {:induction false} WritesKeepNewest(start: seq<string>, messages: seq<string>, x: string)
    ensures var m := Strip(x);
      Newest(start + Written(messages + [x])) ==
        if m == "" then Newest(start + Written(messages)) else Newest(Newest(start + Written(messages)) + [m])
  {
    var all := messages + [x];
    assert all[..|all| - 1] == messages;
    var m := Strip(x);
    if m != "" {
      assert start + (Written(messages) + [m]) == start + Written(messages) + [m];
      NewestAppend(start + Written(messages), m);
    }
  }

  /** The recent-logs text splits back into the entries when none of them holds a newline. */
  lemma {:induction false} RecentLogsSplit(entries: seq<string>)
    requires |entries| > 0
    requires forall k :: 0 <= k < |entries| ==> '\n' !in entries[k]
    ensures Split(Join("\n", entries), '\n') == entries
  {
    if |entries| == 1 {
      SplitWithoutSeparator(entries[0], '\n');
    } else {
      RecentLogsSplit(entries[1..]);
      assert Join("\n", entries) == entries[0] + ['\n'] + Join("\n", entries[1..]);
      SplitAtFirstSeparator(entries[0], Join("\n", entries[1..]), '\n');
    }
  }

  /** An empty buffer shows as the empty text. */
  lemma EmptyBufferNoLogs(b: LogBuffer)
    requires b.entries == []
    ensures b.RecentLogs() == ""
  {
  }

  /** The index just past the last '/' of p, or 0. */
  function AfterLastSlash(p: string): (n: nat)
    ensures n <= |p|
    ensures n > 0 ==> p[n - 1] == '/'
    ensures forall k :: n <= k < |p| ==> p[k] != '/'
  {
    if |p| == 0 then 0 else if p[|p| - 1] == '/' then |p| else AfterLastSlash(p[..|p| - 1])
  }

  predicate AllSlashes(s: string) {
    forall k :: 0 <= k < |s| ==> s[k] == '/'
  }

  function TrimTrailingSlashes(s: string): (r: string)
    ensures r <= s
  {
    if |s| > 0 && s[|s| - 1] == '/' then TrimTrailingSlashes(s[..|s| - 1]) else s
  }

  /** `posixpath.dirname`: everything up to the last slash, without trailing slashes unless it is all slashes. */
  function Dirname(p: string): string {
    var head := p[..AfterLastSlash(p)];
    if head != "" && !AllSlashes(head) then TrimTrailingSlashes(head) else head
  }

  /** `posixpath.join(a, b)` for two components. */
  function PathJoin(a: string, b: string): string {
    if |b| > 0 && b[0] == '/' then b
    else if a == "" || a[|a| - 1] == '/' then a + b
    else a + "/" + b
  }

  /** get_config_path, given the absolute path of utils.py. */
  function GetConfigPath(modulePath: string): string {
    PathJoin(Dirname(Dirname(modulePath)), "config.yaml")
  }

  predicate NoSlash(s: string) {
    forall k :: 0 <= k < |s| ==> s[k] != '/'
  }

  lemma DirnameOfChild(parent: string, child: string)
    requires parent != "" && parent[0] == '/' && parent[|parent| - 1] != '/'
    requires NoSlash(child)
    ensures Dirname(parent + "/" + child) == parent
  {
    var p := parent + "/" + child;
    assert p[|parent|] == '/';
    var n := AfterLastSlash(p);
    assert n == |parent| + 1;
    assert p[..n] == parent + "/";
    assert !AllSlashes(p[..n]) by { assert p[..n][|parent| - 1] != '/'; }
    assert TrimTrailingSlashes(parent + "/") == TrimTrailingSlashes(parent);
  }

  /**
   * The configuration file sits next to the package directory: for
   * `<root>/<package>/utils.py` the path is `<root>/config.yaml`.
   */
  lemma ConfigPathInProjectRoot(root: string, pkg: string, fileName: string)
    requires root != "" && root[0] == '/' && root[|root| - 1] != '/'
    requires pkg != "" && NoSlash(pkg) && NoSlash(fileName)
    ensures GetConfigPath(root + "/" + pkg + "/" + fileName) == root + "/config.yaml"
  {
    var dir := root + "/" + pkg;
    assert dir[0] == '/' && dir[|dir| - 1] != '/';
    assert root + "/" + pkg + "/" + fileName == dir + "/" + fileName;
    DirnameOfChild(dir, fileName);
    DirnameOfChild(root, pkg);
    assert Dirname(Dirname(dir + "/" + fileName)) == root;
    JoinUnderDirectory(root, "config.yaml");
  }

  /** Joining a relative name onto a directory without a trailing slash puts one slash between them. */
  lemma JoinUnderDirectory(dir: string, name: string)
    requires dir != "" && dir[|dir| - 1] != '/'
    requires name != "" && name[0] != '/'
    ensures PathJoin(dir, name) == dir + "/" + name
  {
  }
}
