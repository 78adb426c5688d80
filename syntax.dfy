/**
 * What the statement handlers of entry.js recognise: the match predicates of
 * the two handler tables (`consumer.EntryOp` for the top level of a file,
 * `consumer.Generic` inside function bodies) written out from their regular
 * expressions, the tables themselves in their order, and the small pieces of
 * text arithmetic the handlers use to pick their headers apart.
 */
module Syntax {
  import opened Wrappers
  import opened Text
  import opened Dispatch

  // ------------------------------------------------------------ patterns

  /** `/p.+/.test(t)`: `p` somewhere in `t`, followed by one more character that `.` matches. */
  predicate FollowedAnywhere(t: string, p: string) {
    exists i :: 0 <= i < |t| && FollowedAt(t, p, i)
  }

  predicate FollowedAt(t: string, p: string, i: int) {
    OccursAt(t, p, i) && i + |p| < |t| && !IsLineTerminator(t[i + |p|])
  }

  /** `/^p.+/.test(t)`. */
  predicate StartsFollowed(t: string, p: string) {
    FollowedAt(t, p, 0)
  }

  /** `/p\s*\(/` matched at position `i`. */
  predicate CallAt(t: string, p: string, i: int) {
    OccursAt(t, p, i) && var k := SkipWhitespace(t, i + |p|); k < |t| && t[k] == '('
  }

  /** `/p\s*\(/.test(t)`, anywhere in `t`. */
  predicate CallAnywhere(t: string, p: string) {
    exists i :: 0 <= i < |t| && CallAt(t, p, i)
  }

  predicate DigitOrDot(c: char) { IsDigit(c) || c == '.' }

  /** The end of the run of digits and dots starting at `i`. */
  function AmountEnd(s: string, i: nat): (k: nat)
    requires i <= |s|
    ensures i <= k <= |s|
    ensures forall j :: i <= j < k ==> DigitOrDot(s[j])
    ensures k == |s| || !DigitOrDot(s[k])
    decreases |s| - i
  {
    if i < |s| && DigitOrDot(s[i]) then AmountEnd(s, i + 1) else i
  }

  /** `\s?(append|replace){0,1}$`. */
  predicate ScheduleMode(s: string) {
    var m := if s != [] && IsWhitespace(s[0]) then s[1..] else s;
    m == "" || m == "append" || m == "replace"
  }

  /** `.+` ends at `j` (nothing but line-terminator-free text before it) and the mode follows. */
  predicate TemplateSplit(m: string, j: int) {
    1 <= j <= |m| && (forall k :: 0 <= k < j ==> !IsLineTerminator(m[k])) && ScheduleMode(m[j..])
  }

  /**
   * `/^schedule\s?((\d|\.)+(d|t|s)|<%.+)\s?(append|replace){0,1}$/`: a time
   * made of digits and dots with a unit, or a template, then an optional mode.
   */
  predicate ScheduleHeader(t: string) {
    && StartsWith(t, "schedule")
    && var rest := if 8 < |t| && IsWhitespace(t[8]) then t[9..] else t[8..];
       || (var e := AmountEnd(rest, 0);
           0 < e < |rest| && (rest[e] == 'd' || rest[e] == 't' || rest[e] == 's') && ScheduleMode(rest[e + 1..]))
       || (StartsWith(rest, "<%") && exists j :: 0 <= j <= |rest| && TemplateSplit(rest[2..], j))
  }

  // ------------------------------------------------------------ the tables

  datatype EntryKind = EImport | EDir | EFunction | EClock | ELoop | EIfCall | EBang

  /** The top-level handlers, in table order. */
  function EntryTable(): (table: seq<Action<string, EntryKind>>)
    ensures |table| == 7
  {
    List([
      ((t: string) => StartsWith(t, "import"), EImport),
      ((t: string) => FollowedAnywhere(t, "dir "), EDir),
      ((t: string) => FollowedAnywhere(t, "function "), EFunction),
      ((t: string) => FollowedAnywhere(t, "clock "), EClock),
      ((t: string) => StartsWith(t, "LOOP"), ELoop),
      ((t: string) => StartsWith(t, "!IF("), EIfCall),
      ((t: string) => StartsFollowed(t, "!"), EBang)
    ])
  }

  datatype GenericKind =
    | GLoad | GTick | GScript | GWarn | GError | GMacro | GExecuteIf | GIfCall | GBang | GBlock
    | GExecuteRun | GLoop | GUntil | GAsyncWhile | GWhile | GSchedule | GSequence | GRaw

  /** The handlers inside a body, in table order. */
  function GenericTable(): (table: seq<Action<string, GenericKind>>)
    ensures |table| == 18
  {
    List([
      ((t: string) => t == "load", GLoad),
      ((t: string) => t == "tick", GTick),
      ((t: string) => t == "<%%", GScript),
      ((t: string) => StartsWith(t, "warn "), GWarn),
      ((t: string) => StartsWith(t, "error "), GError),
      ((t: string) => StartsWith(t, "macro"), GMacro),
      ((t: string) => CallAt(t, "execute", 0), GExecuteIf),
      ((t: string) => StartsWith(t, "!IF("), GIfCall),
      ((t: string) => StartsFollowed(t, "!"), GBang),
      ((t: string) => StartsWith(t, "block") || StartsWith(t, "{"), GBlock),
      ((t: string) => StartsWith(t, "execute") && IndexOf(t, "run") != -1, GExecuteRun),
      ((t: string) => StartsWith(t, "LOOP"), GLoop),
      ((t: string) => CallAnywhere(t, "until"), GUntil),
      ((t: string) => StartsWith(t, "async while"), GAsyncWhile),
      ((t: string) => StartsWith(t, "while"), GWhile),
      ((t: string) => ScheduleHeader(t), GSchedule),
      ((t: string) => t == "sequence", GSequence),
      ((t: string) => t == "(", GRaw)
    ])
  }

  /**
   * Inside a body, `!IF(…)` (which the `!…` pattern matches too) is always
   * the compile-time `if`: every earlier pattern is anchored at the start.
   */
  lemma GenericIfCall(t: string)
    requires StartsWith(t, "!IF(")
    ensures Dispatch.Dispatch(GenericTable(), t) == Some(GIfCall)
  {
    var g := GenericTable();
    assert t[0] == '!';
    assert !StartsWith(t, "warn ") by { assert "warn "[0] != t[0]; }
    assert !StartsWith(t, "error ") by { assert "error "[0] != t[0]; }
    assert !StartsWith(t, "macro") by { assert "macro"[0] != t[0]; }
    assert !OccursAt(t, "execute", 0) by { assert "execute"[0] != t[0]; }
    assert g[7].accepts(t);
    FirstAcceptIs(g, t, 7);
  }

  /**
   * At the top level the directive patterns are not anchored: any token that
   * does not start with `import` and holds `dir ` with something after it is
   * a `dir` block, whatever it starts with (`!IF(` included).
   */
  lemma EntryDirAnywhere(t: string)
    requires !StartsWith(t, "import") && FollowedAnywhere(t, "dir ")
    ensures Dispatch.Dispatch(EntryTable(), t) == Some(EDir)
  {
    var e := EntryTable();
    assert e[1].accepts(t);
    FirstAcceptIs(e, t, 1);
  }

  /** With no directive word inside it, `!IF(…)` at the top level is the compile-time `if`. */
  lemma EntryIfCall(t: string)
    requires StartsWith(t, "!IF(")
    requires !FollowedAnywhere(t, "dir ") && !FollowedAnywhere(t, "function ") && !FollowedAnywhere(t, "clock ")
    ensures Dispatch.Dispatch(EntryTable(), t) == Some(EIfCall)
  {
    var e := EntryTable();
    assert t[0] == '!';
    assert !StartsWith(t, "import") by { assert "import"[0] != t[0]; }
    assert !StartsWith(t, "LOOP") by { assert "LOOP"[0] != t[0]; }
    assert e[5].accepts(t);
    FirstAcceptIs(e, t, 5);
  }

  /** `execute (…)` holding `run` is still a conditional: that pattern comes first. */
  lemma ExecuteCallBeforeRun(t: string)
    requires CallAt(t, "execute", 0)
    ensures Dispatch.Dispatch(GenericTable(), t) == Some(GExecuteIf)
  {
    var g := GenericTable();
    assert t[..7] == "execute";
    assert t != "load" && t != "tick" && t != "<%%" by { assert t[0] == 'e'; }
    assert !StartsWith(t, "warn ") by { assert "warn "[0] != t[0]; }
    assert !StartsWith(t, "error ") by { assert "error "[1] != t[1]; }
    assert !StartsWith(t, "macro") by { assert "macro"[0] != t[0]; }
    assert g[6].accepts(t);
    FirstAcceptIs(g, t, 6);
  }

  /** When entry `k` is the first to accept `x`, it decides the dispatch. */
  lemma FirstAcceptIs<K>(table: seq<Action<string, K>>, x: string, k: nat)
    requires k < |table| && table[k].accepts(x)
    requires forall j :: 0 <= j < k ==> !table[j].accepts(x)
    ensures Dispatch.Dispatch(table, x) == Some(table[k].kind)
  {
    var r := FirstMatch(table, x);
    assert r.Some?;
    assert r.value == k;
  }

  // ------------------------------------------------------------ headers

  /**
   * The count expression and the variable of `LOOP(count, name)`: both
   * trimmed, the name "undefined" when there is no comma; when the header
   * holds a `[`, the variable is the text after the last comma (untrimmed)
   * and the count everything before it.
   */
  function LoopHeader(t: string): (string, string) {
    var inner := Substring(t, IndexOf(t, "(") + 1, |t| - 1);
    var parts := Split(inner, ',');
    if IndexOf(t, "[") != -1 then (Join(parts[..|parts| - 1], ","), parts[|parts| - 1])
    else (Trim(parts[0]), if |parts| > 1 then Trim(parts[1]) else "undefined")
  }

  /** `LOOP(n, i)` with plain parts. */
  lemma LoopHeaderPlain(count: string, name: string)
    requires ',' !in count && ',' !in name && '[' !in count && '[' !in name
    ensures LoopHeader("LOOP(" + count + "," + name + ")") == (Trim(count), Trim(name))
  {
    var t := "LOOP(" + count + "," + name + ")";
    IndexOfChar("LOOP", '(', count + "," + name + ")");
    assert "LOOP" + ['('] + (count + "," + name + ")") == t;
    assert Substring(t, 5, |t| - 1) == count + [','] + name;
    SplitConcat(count, name, ',');
    SplitNoSep(count, ',');
    SplitNoSep(name, ',');
    assert '[' !in t;
    CharRulesOut(t, "[", '[');
  }

  /** `LOOP([a, b, c], i)`: the commas of the list stay in the count. */
  lemma LoopHeaderList(list: string, name: string)
    requires list != [] && list[0] == '[' && ',' !in name
    ensures LoopHeader("LOOP(" + list + "," + name + ")") == (list, name)
  {
    var t := "LOOP(" + list + "," + name + ")";
    IndexOfChar("LOOP", '(', list + "," + name + ")");
    assert "LOOP" + ['('] + (list + "," + name + ")") == t;
    assert Substring(t, 5, |t| - 1) == list + [','] + name;
    SplitConcat(list, name, ',');
    SplitNoSep(name, ',');
    JoinSplit(list, ',');
    var parts := Split(list, ',') + [name];
    assert parts[..|parts| - 1] == Split(list, ',');
    assert OccursAt(t, "[", 5);
  }

  /** The text of `args` split at its last comma, both halves trimmed. */
  function SplitLastComma(args: string): (string, string) {
    var k := LastIndexOf(args, ",");
    (Trim(Substr(args, 0, k)), Trim(SubstrFrom(args, k + 1)))
  }

  /** The condition may hold commas; the time after the last one may not. */
  lemma SplitLastCommaAt(cond: string, time: string)
    requires ',' !in time
    ensures SplitLastComma(cond + "," + time) == (Trim(cond), Trim(time))
  {
    var a := cond + "," + time;
    assert OccursAt(a, ",", |cond|);
    forall i | i > |cond|
      ensures !OccursAt(a, ",", i)
    {
      if i < |a| {
        assert a[i..i + 1] == [time[i - |cond| - 1]];
      }
    }
    assert LastIndexOf(a, ",") == |cond|;
    assert Substr(a, 0, |cond|) == cond;
    assert SubstrFrom(a, |cond| + 1) == time;
  }

  /** `until(cond, time)`. */
  function UntilArgs(t: string): (string, string) {
    SplitLastComma(Substr(t, 6, |t| - 7))
  }

  /** `async while(cond, time)`. */
  function AsyncWhileArgs(t: string): (string, string) {
    SplitLastComma(Substr(t, 12, |t| - 13))
  }

  /** `while(cond)`. */
  function WhileCondition(t: string): string {
    Trim(Substr(t, 6, |t| - 7))
  }

  /** `!IF(cond)`. */
  function IfCondition(t: string): string {
    Substr(t, 4, |t| - 5)
  }

  /** `execute(cond)`: between the first `(` and the last character. */
  function ExecuteCondition(t: string): string {
    Substring(t, IndexOf(t, "(") + 1, |t| - 1)
  }

  /** `execute … run command`: the part up to the last `run` and the command after it, both trimmed. */
  function ExecuteRunParts(t: string): (string, string) {
    var k := LastIndexOf(t, "run");
    (Trim(Substr(t, 0, k + 3)), Trim(SubstrFrom(t, k + 3)))
  }

  /** The split is at the last `run`: a command without `run` comes out whole. */
  lemma ExecuteRunSplit(e: string, c: string)
    requires !Contains(c, "run")
    ensures ExecuteRunParts(e + "run" + c) == (Trim(e + "run"), Trim(c))
  {
    var t := e + "run" + c;
    var n := |e|;
    assert OccursAt(t, "run", n);
    forall i | i > n
      ensures !OccursAt(t, "run", i)
    {
      if i == n + 1 || i == n + 2 {
        assert t[i] != 'r';
      } else if OccursAt(t, "run", i) {
        assert c[i - n - 3..i - n] == t[i..i + 3];
        OccursContains(c, "run", i - n - 3);
      }
    }
    assert LastIndexOf(t, "run") == n;
    assert Substr(t, 0, n + 3) == e + "run";
    assert SubstrFrom(t, n + 3) == c;
  }

  /** The first whitespace at or after `i`, or the end. */
  function FirstWhitespace(s: string, i: nat): (k: nat)
    requires i <= |s|
    ensures i <= k <= |s| && (k < |s| ==> IsWhitespace(s[k]))
    ensures forall j :: i <= j < k ==> !IsWhitespace(s[j])
    decreases |s| - i
  {
    if i == |s| || IsWhitespace(s[i]) then i else FirstWhitespace(s, i + 1)
  }

  /** `s.split(/\s+/)`: the pieces between whitespace runs. */
  function SplitWhitespace(s: string): (r: seq<string>)
    ensures |r| >= 1
    decreases |s|
  {
    var i := FirstWhitespace(s, 0);
    if i == |s| then [s] else [s[..i]] + SplitWhitespace(s[SkipWhitespace(s, i)..])
  }

  predicate Word(w: string) {
    w != [] && forall i :: 0 <= i < |w| ==> !IsWhitespace(w[i])
  }

  /** Words joined by single spaces split back into the same words. */
  lemma {:induction false} SplitWhitespaceJoin(words: seq<string>)
    requires |words| >= 1 && forall i :: 0 <= i < |words| ==> Word(words[i])
    ensures SplitWhitespace(Join(words, " ")) == words
  {
    var w := words[0];
    if |words| == 1 {
      assert FirstWhitespace(w, 0) == |w|;
    } else {
      var rest := Join(words[1..], " ");
      var s := w + " " + rest;
      assert Join(words, " ") == words[0] + " " + Join(words[1..], " ");
      assert FirstWhitespace(s, 0) == |w| by {
        assert s == w + (" " + rest);
        FirstWhitespaceOfWord(w, " " + rest);
      }
      assert Word(words[1][..]) && words[1] == words[1..][0];
      JoinHead(words[1..]);
      assert SkipWhitespace(s, |w|) == |w| + 1 by {
        assert !IsWhitespace(s[|w| + 1]);
      }
      assert s[..|w|] == w && s[|w| + 1..] == rest;
      SplitWhitespaceJoin(words[1..]);
    }
  }

  /** The first character of a join of words is that of the first word. */
  lemma JoinHead(words: seq<string>)
    requires |words| >= 1 && words[0] != []
    ensures |Join(words, " ")| >= |words[0]| && Join(words, " ")[..|words[0]|] == words[0]
  {
  }

  lemma {:induction false} FirstWhitespaceOfWord(w: string, rest: string)
    requires forall i :: 0 <= i < |w| ==> !IsWhitespace(w[i])
    requires rest != [] && IsWhitespace(rest[0])
    ensures FirstWhitespace(w + rest, 0) == |w|
  {
    var s := w + rest;
    FirstWhitespaceFrom(s, 0, |w|);
  }

  lemma {:induction false} FirstWhitespaceFrom(s: string, i: nat, k: nat)
    requires i <= k < |s| && IsWhitespace(s[k])
    requires forall j :: i <= j < k ==> !IsWhitespace(s[j])
    ensures FirstWhitespace(s, i) == k
    decreases k - i
  {
    if i < k {
      FirstWhitespaceFrom(s, i + 1, k);
    }
  }

  /**
   * The `namespace:path` a library file path becomes in the load or tick
   * event list: `.mcfunction` dropped once, backslashes read as slashes,
   * then the second segment, a colon, and the segments from the fourth on.
   */
  function ToFunction(item: string): string {
    var parts := Split(ReplaceAll(ReplaceFirst(item, ".mcfunction", ""), "\\", "/"), '/');
    (if |parts| > 1 then parts[1] else "undefined") + ":" + Join(if |parts| > 3 then parts[3..] else [], "/")
  }

  predicate PlainSegment(x: string) {
    '/' !in x && '\\' !in x && '.' !in x
  }

  /** `data/<ns>/functions/<a>/<b>.mcfunction` becomes `<ns>:<a>/<b>`. */
  lemma ToFunctionOf(root: string, ns: string, kind: string, path: seq<string>)
    requires PlainSegment(root) && PlainSegment(ns) && PlainSegment(kind)
    requires |path| >= 1 && forall i :: 0 <= i < |path| ==> PlainSegment(path[i])
    ensures ToFunction(Join([root, ns, kind] + path, "/") + ".mcfunction") == ns + ":" + Join(path, "/")
  {
    var parts := [root, ns, kind] + path;
    PartsPlain(root, ns, kind, path);
    ToFunctionOfParts(parts);
    assert parts[1] == ns && parts[3..] == path;
  }

  lemma ToFunctionOfParts(parts: seq<string>)
    requires |parts| > 3 && forall i :: 0 <= i < |parts| ==> PlainSegment(parts[i])
    ensures ToFunction(Join(parts, "/") + ".mcfunction") == parts[1] + ":" + Join(parts[3..], "/")
  {
    var body := Join(parts, "/");
    JoinChars(parts);
    DropExtension(body);
    CharRulesOut(body, "\\", '\\');
    ReplaceAbsent(body, "\\", "/");
    SplitJoin(parts, '/');
    ToFunctionParts(body + ".mcfunction", body, parts);
  }

  lemma PartsPlain(root: string, ns: string, kind: string, path: seq<string>)
    requires PlainSegment(root) && PlainSegment(ns) && PlainSegment(kind)
    requires forall i :: 0 <= i < |path| ==> PlainSegment(path[i])
    ensures var parts := [root, ns, kind] + path; forall i :: 0 <= i < |parts| ==> PlainSegment(parts[i])
  {
    var parts := [root, ns, kind] + path;
    forall i | 0 <= i < |parts|
      ensures PlainSegment(parts[i])
    {
      if i == 0 {
        assert parts[i] == root;
      } else if i == 1 {
        assert parts[i] == ns;
      } else if i == 2 {
        assert parts[i] == kind;
      } else {
        assert parts[i] == path[i - 3];
      }
    }
  }

  lemma ToFunctionParts(item: string, body: string, parts: seq<string>)
    requires ReplaceFirst(item, ".mcfunction", "") == body && ReplaceAll(body, "\\", "/") == body
    requires Split(body, '/') == parts && |parts| > 3
    ensures ToFunction(item) == parts[1] + ":" + Join(parts[3..], "/")
  {
  }

  /** Without a dot in `body`, the one `.mcfunction` is the one at the end. */
  lemma DropExtension(body: string)
    requires '.' !in body
    ensures ReplaceFirst(body + ".mcfunction", ".mcfunction", "") == body
  {
    var item := body + ".mcfunction";
    IndexOfChar(body, '.', "mcfunction");
    assert body + ['.'] + "mcfunction" == item;
    assert OccursAt(item, ".mcfunction", |body|);
    IndexOfFirstChar(item, ".mcfunction", |body|);
    assert item[..|body|] == body && item[|body| + 11..] == [];
  }

  /** A pattern starting with a character first found at `k` is first found there. */
  lemma IndexOfFirstChar(s: string, p: string, k: nat)
    requires p != [] && OccursAt(s, p, k) && IndexOf(s, [p[0]]) == k
    ensures IndexOf(s, p) == k
  {
    forall i | 0 <= i < k
      ensures !OccursAt(s, p, i)
    {
      assert !OccursAt(s, [p[0]], i);
      if i < |s| {
        assert s[i..i + 1] == [s[i]];
        if i + |p| <= |s| {
          assert s[i..i + |p|][0] == s[i];
        }
      }
    }
  }

  /** A join of plain segments holds no `.` and no backslash. */
  lemma {:induction false} JoinChars(parts: seq<string>)
    requires forall i :: 0 <= i < |parts| ==> PlainSegment(parts[i])
    ensures '.' !in Join(parts, "/") && '\\' !in Join(parts, "/")
  {
    if |parts| > 1 {
      JoinChars(parts[1..]);
    }
  }
}
