/**
 * The statement compiler of entry.js: the `consumer.*` handlers, `handlemacro`
 * and `MC_LANG_HANDLER`. A `Compiler` owns what the source keeps in module
 * variables while one `.mc` file is compiled: the token deque, the namespace
 * stack, the per-reason counters `id`, the global macro table and the
 * generated `load`/`tick` buffers. Handlers consume tokens from the front of
 * the deque and append commands to the buffer they are given.
 *
 * The source recurses without bound; here every dispatch spends one unit of
 * `steps`, and running out is the error `OutOfSteps`.
 */
module Compilation {
  import opened Wrappers
  import opened Text
  import opened Tokenizer
  import opened Errors
  import opened Values
  import opened Braces
  import Dispatch
  import opened Naming
  import Macros
  import Sequence
  import opened IoModel
  import opened Syntax
  import opened Sources

  /**
   * The `<%% … %%>` evaluator: given the code, the environment and the
   * token's macro arguments, the `emit(command, isLoad)` calls it makes in
   * order, and whether it ran to the end without throwing.
   */
  type Script = (string, Env, MacroArgs) -> (seq<(string, bool)>, bool)

  /** What the compiler takes from the project around it. */
  datatype Host = Host(
    oracle: Oracle,                // `evaluate(line, token)`: JavaScript expressions
    script: Script,                // `evaluateCodeWithEnv` on a script block
    scoreboard: string,            // `CONFIG.internalScoreboard`
    libraries: map<string, map<string, map<string, seq<Token>>>>,  // `loadLib` per library: component -> macros
    lookup: map<string, LibEntry>) // `lib_function_lookup`

  /** The `functionalparent` argument of `consumer.Block`: undefined, null, or a buffer. */
  datatype Functional = Undef | Null | Buf(f: MCFunction)

  /** The `$top` a new block buffer gets from its functional parent. */
  function Top(fp: Functional): (t: MCFunction?)
    ensures fp.Buf? <==> t != null
    ensures fp.Buf? ==> t == fp.f
  {
    if fp.Buf? then fp.f else null
  }

  /** The buffer a handler writes to, when it has one. */
  function Target(func: MCFunction?): set<MCFunction> {
    if func == null then {} else {func}
  }

  /** A buffer only gains commands at its end. */
  twostate predicate Extends(f: MCFunction)
    reads f
  {
    old(f.functions) <= f.functions
  }

  // --------------------------------------------------------- interpolation

  /**
   * A script block's outcome: it passes exactly when the script completed
   * and every command it emitted interpolates, and then the buffer and
   * `load` have grown by the commands emitted to each, in order.
   */
  predicate ScriptRan(interp: Interpolator, env: Env, run: (seq<(string, bool)>, bool), r: Outcome<CompileError>,
                      own0: seq<string>, own: seq<string>, load0: seq<string>, load: seq<string>)
  {
    && (r.Pass? <==> run.1 && forall i :: 0 <= i < |run.0| ==> Interpolate(interp, env, run.0[i].0).Ok?)
    && (r.Pass? ==> own == own0 + Emitted(interp, env, run.0, false) && load == load0 + Emitted(interp, env, run.0, true))
  }

  /** Every line interpolated in turn; the first failure is the result. */
  function InterpolateAll(interp: Interpolator, env: Env, cmds: seq<string>): (r: Result<seq<string>, CompileError>)
    ensures r.Ok? ==> |r.value| == |cmds|
  {
    if cmds == [] then Ok([])
    else match InterpolateAll(interp, env, cmds[..|cmds| - 1])
      case Err(e) => Err(e)
      case Ok(done) =>
        match Interpolate(interp, env, cmds[|cmds| - 1])
        case Err(e) => Err(e)
        case Ok(line) => Ok(done + [line])
  }

  /** The lines interpolate together exactly when each does, and then line by line. */
  lemma {:induction false} InterpolateAllLines(interp: Interpolator, env: Env, cmds: seq<string>)
    ensures var r := InterpolateAll(interp, env, cmds);
            && (r.Ok? <==> forall i :: 0 <= i < |cmds| ==> Interpolate(interp, env, cmds[i]).Ok?)
            && (r.Ok? ==> |r.value| == |cmds| && forall i :: 0 <= i < |cmds| ==> Interpolate(interp, env, cmds[i]) == Ok(r.value[i]))
  {
    if cmds != [] {
      var init := cmds[..|cmds| - 1];
      InterpolateAllLines(interp, env, init);
      assert forall i :: 0 <= i < |init| ==> init[i] == cmds[i];
    }
  }

  /** A single line interpolates as itself would. */
  lemma InterpolateOne(interp: Interpolator, env: Env, line: string)
    ensures Interpolate(interp, env, line).Ok? ==> InterpolateAll(interp, env, [line]) == Ok([Interpolate(interp, env, line).value])
  {
    assert [line][..0] == [];
    var r := Interpolate(interp, env, line);
    if r.Ok? {
      assert InterpolateAll(interp, env, [line][..0]) == Ok([]);
      assert [] + [r.value] == [r.value];
    }
  }

  /** Interpolating two runs of lines one after the other. */
  lemma {:induction false} InterpolateAllAppend(interp: Interpolator, env: Env, a: seq<string>, b: seq<string>)
    ensures InterpolateAll(interp, env, a + b) ==
      match InterpolateAll(interp, env, a)
      case Err(e) => Err(e)
      case Ok(x) =>
        match InterpolateAll(interp, env, b)
        case Err(e) => Err(e)
        case Ok(y) => Ok(x + y)
    decreases |b|
  {
    if b == [] {
      assert a + b == a;
      assert InterpolateAll(interp, env, b) == Ok([]);
      match InterpolateAll(interp, env, a)
      case Err(e) =>
      case Ok(x) => assert x + [] == x;
    } else {
      var b0 := b[..|b| - 1];
      assert (a + b)[..|a + b| - 1] == a + b0;
      assert (a + b)[|a + b| - 1] == b[|b| - 1];
      InterpolateAllAppend(interp, env, a, b0);
      var last := Interpolate(interp, env, b[|b| - 1]);
      match InterpolateAll(interp, env, a)
      case Err(e) =>
        assert InterpolateAll(interp, env, a + b0) == Err(e);
      case Ok(x) =>
        match InterpolateAll(interp, env, b0)
        case Err(e) =>
          assert InterpolateAll(interp, env, a + b0) == Err(e);
          assert InterpolateAll(interp, env, b) == Err(e);
        case Ok(y) =>
          assert InterpolateAll(interp, env, a + b0) == Ok(x + y);
          if last.Ok? {
            assert InterpolateAll(interp, env, b) == Ok(y + [last.value]);
            assert InterpolateAll(interp, env, a + b) == Ok(x + y + [last.value]);
            assert x + y + [last.value] == x + (y + [last.value]);
          } else {
            assert InterpolateAll(interp, env, b) == Err(last.error);
            assert InterpolateAll(interp, env, a + b) == Err(last.error);
          }
    }
  }

  /** `for (command of commands) f.addCommand(command)`. */
  method AddAll(io: Io, f: MCFunction, cmds: seq<string>) returns (r: Outcome<CompileError>)
    modifies f`functions
    ensures Extends(f)
    ensures var all := InterpolateAll(io.interp, io.env, cmds);
            && (all.Ok? ==> r.Pass? && f.functions == old(f.functions) + all.value)
            && (all.Err? ==> r.Fail?)
  {
    var i := 0;
    while i < |cmds|
      invariant i <= |cmds|
      invariant InterpolateAll(io.interp, io.env, cmds[..i]).Ok?
      invariant f.functions == old(f.functions) + InterpolateAll(io.interp, io.env, cmds[..i]).value
    {
      assert cmds[..i + 1][..i] == cmds[..i];
      r := f.AddCommand(io, cmds[i]);
      if r.Fail? {
        InterpolateAllLines(io.interp, io.env, cmds);
        return;
      }
      i := i + 1;
    }
    assert cmds[..i] == cmds;
    r := Pass;
  }

  // --------------------------------------------------------- the `(` form

  /** Where the first `)` token is. */
  function CloseParen(ts: seq<Token>): (r: Option<nat>)
    ensures r.Some? ==> r.value < |ts| && ts[r.value].text == ")"
    ensures r.Some? ==> forall i :: 0 <= i < r.value ==> ts[i].text != ")"
    ensures r.None? ==> forall i :: 0 <= i < |ts| ==> ts[i].text != ")"
  {
    if ts == [] then None
    else if ts[0].text == ")" then Some(0)
    else match CloseParen(ts[1..])
      case None => None
      case Some(k) => Some(k + 1)
  }

  /** Each token's text followed by one space. */
  function Spaced(ts: seq<Token>): string {
    if ts == [] then "" else Spaced(ts[..|ts| - 1]) + ts[|ts| - 1].text + " "
  }

  /** The raw form is the token texts joined by spaces, with one space after. */
  lemma {:induction false} SpacedJoin(ts: seq<Token>)
    requires ts != []
    ensures Spaced(ts) == Join(Texts(ts), " ") + " "
    decreases |ts|
  {
    var init := ts[..|ts| - 1];
    if init == [] {
      assert Texts(ts) == [ts[0].text];
    } else {
      SpacedJoin(init);
      assert Texts(ts) == Texts(init) + [ts[|ts| - 1].text];
      JoinSnoc(Texts(init), ts[|ts| - 1].text, " ");
    }
  }

  /**
   * The `(` handler's loop: the texts up to the first `)`, each followed by
   * a space, and how many tokens precede it. With no `)` the source runs off
   * the end of the deque.
   */
  method CollectRaw(ts: seq<Token>) returns (r: Option<(string, nat)>)
    ensures CloseParen(ts).None? ==> r.None?
    ensures CloseParen(ts).Some? ==> r == Some((Spaced(ts[..CloseParen(ts).value]), CloseParen(ts).value))
  {
    var items := "";
    var i := 0;
    while i < |ts| && ts[i].text != ")"
      invariant i <= |ts| && items == Spaced(ts[..i])
      invariant forall j :: 0 <= j < i ==> ts[j].text != ")"
    {
      assert ts[..i + 1][..i] == ts[..i];
      items := items + ts[i].text + " ";
      i := i + 1;
    }
    if i == |ts| {
      return None;
    }
    return Some((items, i));
  }

  // --------------------------------------------------------- script blocks

  /** Where a script block ends: the first `%%>` or empty token. */
  function ScriptEnd(ts: seq<Token>): (r: Option<nat>)
    ensures r.Some? ==> r.value < |ts| && (ts[r.value].text == "%%>" || ts[r.value].text == "")
    ensures r.Some? ==> forall i :: 0 <= i < r.value ==> ts[i].text != "%%>" && ts[i].text != ""
    ensures r.None? ==> forall i :: 0 <= i < |ts| ==> ts[i].text != "%%>" && ts[i].text != ""
  {
    if ts == [] then None
    else if ts[0].text == "%%>" || ts[0].text == "" then Some(0)
    else match ScriptEnd(ts[1..])
      case None => None
      case Some(k) => Some(k + 1)
  }

  /** Each text preceded by a newline. */
  function Prefixed(xs: seq<string>): string {
    if xs == [] then "" else Prefixed(xs[..|xs| - 1]) + "\n" + xs[|xs| - 1]
  }

  /** The code of a script block is its lines joined by newlines, after a leading newline. */
  lemma {:induction false} PrefixedJoin(xs: seq<string>)
    requires xs != []
    ensures Prefixed(xs) == "\n" + Join(xs, "\n")
    decreases |xs|
  {
    var init, last := xs[..|xs| - 1], xs[|xs| - 1];
    if init == [] {
      assert xs == [xs[0]];
    } else {
      PrefixedJoin(init);
      assert init + [last] == xs;
      JoinSnoc(init, last, "\n");
      NewlineRegroup(Join(init, "\n"), last);
    }
  }

  lemma NewlineRegroup(j: string, last: string)
    ensures "\n" + j + "\n" + last == "\n" + (j + "\n" + last)
  {
  }

  /**
   * The code of a script block: a newline before each line up to the end
   * marker; an empty token ends the block too and contributes a newline.
   */
  function ScriptCode(ts: seq<Token>): string {
    match ScriptEnd(ts)
    case None => ""
    case Some(k) => Prefixed(Texts(ts[..k])) + (if ts[k].text == "" then "\n" else "")
  }

  /**
   * The `<%%` handler's `do … while` loop: the code collected up to the end
   * marker, and how many tokens it consumed; without an end the deque runs out.
   */
  method CollectScript(ts: seq<Token>) returns (r: Option<(string, nat)>)
    ensures ScriptEnd(ts).None? ==> r.None?
    ensures ScriptEnd(ts).Some? ==> r == Some((ScriptCode(ts), ScriptEnd(ts).value + 1))
  {
    var code := "";
    var i := 0;
    while i < |ts| && ts[i].text != "%%>" && ts[i].text != ""
      invariant i <= |ts| && code == Prefixed(Texts(ts[..i]))
      invariant forall j :: 0 <= j < i ==> ts[j].text != "%%>" && ts[j].text != ""
    {
      PrefixedStep(ts, i);
      code := code + "\n" + ts[i].text;
      i := i + 1;
    }
    ScriptEndAt(ts, i);
    if i == |ts| {
      return None;
    }
    if ts[i].text == "" {
      code := code + "\n";
    } else {
      assert code + "" == code;
    }
    return Some((code, i + 1));
  }

  /** One more line of a script block adds a newline and that line. */
  lemma PrefixedStep(ts: seq<Token>, i: nat)
    requires i < |ts|
    ensures Prefixed(Texts(ts[..i + 1])) == Prefixed(Texts(ts[..i])) + "\n" + ts[i].text
  {
    assert Texts(ts[..i + 1]) == Texts(ts[..i]) + [ts[i].text];
    assert Texts(ts[..i + 1])[..i] == Texts(ts[..i]);
  }

  /** The first terminator at `i` is where the block ends; none at all means no end. */
  lemma ScriptEndAt(ts: seq<Token>, i: nat)
    requires i <= |ts|
    requires i < |ts| ==> ts[i].text == "%%>" || ts[i].text == ""
    requires forall j :: 0 <= j < i ==> ts[j].text != "%%>" && ts[j].text != ""
    ensures i == |ts| ==> ScriptEnd(ts).None?
    ensures i < |ts| ==> ScriptEnd(ts) == Some(i) && ScriptCode(ts) == Prefixed(Texts(ts[..i])) + (if ts[i].text == "" then "\n" else "")
  {
  }

  // --------------------------------------------------------- sequences

  /** How many of the first `i` offsets of `order` are not 0. */
  function Scheduled(order: seq<Number>, i: nat): nat
    requires i <= |order|
  {
    if i == 0 then 0
    else Scheduled(order, i - 1) + (if order[i - 1] == Num(0) then 0 else 1)
  }

  /**
   * What lowering a `sequence` adds to the enclosing buffer, for the first
   * `i` offsets in `order`: the commands at offset 0 in place, and for every
   * other offset one `schedule` of a fresh buffer, numbered from `n` on.
   */
  function Lowered(order: seq<Number>, i: nat, groups: map<Number, seq<string>>, stack: seq<string>, n: nat): seq<string>
    requires i <= |order|
  {
    if i == 0 then []
    else Lowered(order, i - 1, groups, stack, n) + LoweredStep(order[i - 1], GroupAt(groups, order[i - 1]), stack, n + Scheduled(order, i - 1))
  }

  /** The commands filed under offset `t` (every offset of the order has a group). */
  function GroupAt(groups: map<Number, seq<string>>, t: Number): seq<string> {
    if t in groups then groups[t] else []
  }

  /** What one offset lowers to: its commands in place at offset 0, otherwise the schedule of buffer number `k`. */
  function LoweredStep(t: Number, cmds: seq<string>, stack: seq<string>, k: nat): seq<string> {
    if t == Num(0) then cmds
    else [ScheduleLine(NamespaceOf(stack) + ":" + PathOf(stack, GeneratedName("sequence", k)), t)]
  }

  lemma ConcatAssoc<T>(a: seq<T>, b: seq<T>, c: seq<T>)
    ensures a + b + c == a + (b + c)
  {
  }

  /**
   * A block's commands: its `prepend` lines interpolated in `before` first,
   * its `append` lines interpolated in `after` last.
   */
  predicate Framed(lines: seq<string>, interp: Interpolator, before: Env, after: Env, prepend: seq<string>, append: seq<string>) {
    var pre := InterpolateAll(interp, before, prepend);
    var post := InterpolateAll(interp, after, append);
    && pre.Ok? && post.Ok? && |lines| >= |prepend| + |append|
    && lines[..|prepend|] == pre.value
    && lines[|lines| - |append|..] == post.value
  }

  /** The last line of `lines` is the interpolated call `call`. */
  predicate CalledLast(lines: seq<string>, call: Result<string, CompileError>) {
    call.Ok? && lines != [] && lines[|lines| - 1] == call.value
  }

  /** Interpolating the lowering of one more offset: what came before, then that offset's step. */
  lemma {:induction false} LoweredInterpolated(interp: Interpolator, env: Env, order: seq<Number>, i: nat, groups: map<Number, seq<string>>,
                            stack: seq<string>, n: nat, k: nat, done: seq<string>, step: seq<string>)
    requires i < |order| && k == n + Scheduled(order, i)
    requires InterpolateAll(interp, env, Lowered(order, i, groups, stack, n)) == Ok(done)
    requires InterpolateAll(interp, env, LoweredStep(order[i], GroupAt(groups, order[i]), stack, k)) == Ok(step)
    ensures InterpolateAll(interp, env, Lowered(order, i + 1, groups, stack, n)) == Ok(done + step)
  {
    var a, b, c := Lowered(order, i, groups, stack, n), LoweredStep(order[i], GroupAt(groups, order[i]), stack, k), Lowered(order, i + 1, groups, stack, n);
    LoweredSnoc(order, i, groups, stack, n);
    assert c == a + b;
    InterpolateAllOk(interp, env, a, b, c, done, step);
  }

  /** One more offset appends its step to the lowering. */
  lemma LoweredSnoc(order: seq<Number>, i: nat, groups: map<Number, seq<string>>, stack: seq<string>, n: nat)
    requires i < |order|
    ensures Lowered(order, i + 1, groups, stack, n) == Lowered(order, i, groups, stack, n) + LoweredStep(order[i], GroupAt(groups, order[i]), stack, n + Scheduled(order, i))
  {
  }

  /** Two parts that interpolate interpolate together, in order. */
  lemma InterpolateAllOk(interp: Interpolator, env: Env, a: seq<string>, b: seq<string>, c: seq<string>, x: seq<string>, y: seq<string>)
    requires InterpolateAll(interp, env, a) == Ok(x) && InterpolateAll(interp, env, b) == Ok(y) && c == a + b
    ensures InterpolateAll(interp, env, c) == Ok(x + y)
  {
    InterpolateAllAppend(interp, env, a, b);
  }

  /** The line that schedules the buffer `reference` after `t` ticks, replacing an earlier schedule. */
  function ScheduleLine(reference: string, t: Number): string {
    "schedule function " + reference + " " + Sequence.TimeText(t) + "t replace"
  }

  // --------------------------------------------------------- loops

  /** `0, 1, …, n-1` as values. */
  function Counting(n: nat): (r: seq<Value>)
    ensures |r| == n && forall j :: 0 <= j < n ==> r[j] == VNum(j)
  {
    if n == 0 then [] else Counting(n - 1) + [VNum(n - 1)]
  }

  /**
   * The values `LOOP` binds its name to, one per pass over the body: the
   * items of an array count (`undefined` once when there are none), `0 … n-1`
   * for a count `n` of at least 1, and `n - 1`, or NaN, once otherwise.
   */
  function LoopBindings(count: Value): (b: seq<Value>)
    ensures |b| >= 1
    ensures count.VArr? && count.items != [] ==> b == count.items
    ensures !count.VArr? && ToNumber(count).Num? && ToNumber(count).i >= 1 ==>
      |b| == ToNumber(count).i && forall j :: 0 <= j < |b| ==> b[j] == VNum(j)
  {
    if count.VArr? then (if count.items == [] then [VUndefined] else count.items)
    else match ToNumber(count)
      case NaN => [VNaN]
      case Num(n) => if n >= 1 then Counting(n) else [VNum(n - 1)]
  }

  // --------------------------------------------------------- load deduplication

  /** `Array.from(new Set(xs).keys())`: first occurrences, in order. */
  function Dedup(xs: seq<string>): (r: seq<string>)
    ensures Distinct(r)
    ensures forall x :: x in r <==> x in xs
    ensures |r| <= |xs|
  {
    if xs == [] then []
    else
      var d := Dedup(xs[..|xs| - 1]);
      if xs[|xs| - 1] in d then d else d + [xs[|xs| - 1]]
  }

  /** A list without repeats is left as it is. */
  lemma {:induction false} DedupDistinct(xs: seq<string>)
    requires Distinct(xs)
    ensures Dedup(xs) == xs
    decreases |xs|
  {
    if xs != [] {
      var init := xs[..|xs| - 1];
      DedupDistinct(init);
      assert xs[|xs| - 1] !in init by {
        forall i | 0 <= i < |init|
          ensures init[i] != xs[|xs| - 1]
        {
          assert xs[i] != xs[|xs| - 1];
        }
      }
      assert init + [xs[|xs| - 1]] == xs;
    }
  }

  /** The macro table a token's own file sees, as `consumer.Generic`'s default looks it up. */
  function ScopeOf(store: MacroStore, global: map<string, seq<Token>>, file: Option<string>, name: string): (m: map<string, seq<Token>>)
    reads store
    ensures file.None? || file.value !in store.entries ==> m == global
    ensures file.Some? && file.value in store.entries && name in store.entries[file.value].imported ==>
      m == store.entries[file.value].imported
  {
    if file.Some? && file.value in store.entries then
      var e := store.entries[file.value];
      if name in e.imported then e.imported else e.macros
    else global
  }

  /** An `execute` line with every ` run execute` dropped, as the default handler reads it. */
  function ExecuteLine(text: string): string {
    ReplaceAll(text, " run execute", "")
  }

  /** The part of an `execute` line up to and including its first ` run`. */
  function RunHead(text: string): string {
    var local := ExecuteLine(text);
    Substr(local, 0, IndexOf(local, " run") + 4)
  }

  /** The command an `execute` line runs: what follows its first ` run` and the space after it. */
  function RunCommand(text: string): string {
    var local := ExecuteLine(text);
    SubstrFrom(local, IndexOf(local, " run") + 5)
  }

  /** An `execute … run <macro>` line with no arguments of its own is compiled as a block around the call. */
  predicate Rewritten(t: Token, scope: map<string, seq<Token>>) {
    var first := Split(RunCommand(t.text), ' ')[0];
    StartsWith(t.text, "execute") && (first in scope || first == "macro") && t.args.NoArgs?
  }

  /** The four tokens a rewritten `execute` line becomes: its head, `{`, the command and `}`. */
  function RunAsBlock(t: Token): (r: seq<Token>)
    ensures |r| == 4 && r[1].text == "{" && r[3].text == "}"
    ensures r[0].text == RunHead(t.text) && r[2].text == RunCommand(t.text)
    ensures forall i :: 0 <= i < 4 ==> r[i] == t.(text := r[i].text)
  {
    [t.(text := RunHead(t.text)), t.(text := "{"), t.(text := RunCommand(t.text)), t.(text := "}")]
  }

  /** When ` run ` occurs in the line, head, a space and the command give the line back. */
  lemma RunSplit(text: string)
    requires var local := ExecuteLine(text); var k := IndexOf(local, " run");
      0 <= k && k + 4 < |local| && local[k + 4] == ' '
    ensures RunHead(text) + " " + RunCommand(text) == ExecuteLine(text)
  {
    var local := ExecuteLine(text);
    var k := IndexOf(local, " run");
    assert RunHead(text) == local[..k + 4];
    assert RunCommand(text) == local[k + 5..];
    assert local == local[..k + 4] + [local[k + 4]] + local[k + 5..];
  }

  /** The text of the token after a bad top-level token, as the error quotes it. */
  function Before(ts: seq<Token>): (b: string)
    ensures ts == [] ==> b == "EOF"
    ensures ts != [] && |ts[0].text| <= 10 ==> b == ts[0].text
    ensures ts != [] && |ts[0].text| > 10 ==> |b| == 13 && b[..10] == ts[0].text[..10]
  {
    if ts == [] then "EOF"
    else if |ts[0].text| > 10 then ts[0].text[..10] + "..."
    else ts[0].text
  }

  /** The last token of `ts` on line `line`: `tokens.filter(t => t.line === line).pop()`. */
  function LastOnLine(ts: seq<Token>, line: Line): (r: Option<nat>)
    ensures r.Some? ==> r.value < |ts| && ts[r.value].line == line
    ensures r.Some? ==> forall i :: r.value < i < |ts| ==> ts[i].line != line
    ensures r.None? ==> forall i :: 0 <= i < |ts| ==> ts[i].line != line
  {
    if ts == [] then None
    else if ts[|ts| - 1].line == line then Some(|ts| - 1)
    else LastOnLine(ts[..|ts| - 1], line)
  }

  /**
   * How many tokens an `execute … run <command>` carries into its block:
   * none unless the last token on its line is `{`, else the first token and
   * the balanced span after it.
   */
  function RunSpan(ts: seq<Token>, line: Line): (k: nat)
    ensures k <= |ts|
    ensures k > 0 <==> LastOnLine(ts, line).Some? && ts[LastOnLine(ts, line).value].text == "{"
  {
    match LastOnLine(ts, line)
    case None => 0
    case Some(j) => if ts[j].text == "{" then 1 + SkipLen(ts[1..], 1) else 0
  }

  /**
   * What the library branch of `import` promises: no library name fails,
   * a library that is not loaded is a type error (the component is read off
   * `undefined`), a missing component fails with the component and library
   * named, and a present one is merged over the macro table. A failure
   * leaves the table as it was.
   */
  predicate ImportLibraryOk(host: Host, target: string, lib: string, before: map<string, seq<Token>>, line: Line,
                            r: Outcome<CompileError>, after: map<string, seq<Token>>)
  {
    && (r.Fail? ==> after == before)
    && (lib == "" ==> r == Fail(LibraryMissing(lib, line)))
    && (lib != "" && lib !in host.libraries ==> r.Fail? && r.error.Crash?)
    && (lib != "" && lib in host.libraries && target !in host.libraries[lib] ==>
         r == Fail(LibraryComponentMissing(target, lib, line)))
    && (lib != "" && lib in host.libraries && target in host.libraries[lib] ==>
         r == Pass && after == before + host.libraries[lib][target])
  }

  // --------------------------------------------------------- the compiler

  class Compiler {
    var tokens: seq<Token>
    var stack: seq<string>
    var ids: Counters
    var macros: map<string, seq<Token>>
    var steps: nat
    const io: Io
    const load: MCFunction
    const tick: MCFunction
    const store: MacroStore
    const lib: Includes
    const host: Host

    /** Everything a handler may change, besides the buffer it writes to. */
    function Footprint(): set<object> {
      {this, io, io.loadFunction, io.tickFunction, store, lib}
    }

    /**
     * Body handlers write to buffers of their own: `load` and `tick` are
     * only reached through `load`/`tick` blocks and script emits.
     */
    predicate Own(func: MCFunction?) {
      func != load && func != tick
    }

    ghost predicate Valid()
      reads this, io, io.loadFunction, io.tickFunction, store, lib
    {
      io.Valid() && store.Valid() && lib.Valid()
    }

    /**
     * What every handler keeps: the budget never grows, a handler that
     * succeeds leaves the namespace stack as it found it, and emitted paths
     * stay emitted.
     */
    twostate predicate Progress(new r: Outcome<CompileError>)
      reads this, io
    {
      && steps <= old(steps)
      && (r.Pass? ==> stack == old(stack))
      && old(io.fakefs) <= io.fakefs
    }

    /**
     * The state `MC_LANG_HANDLER` sets up for a file: the generated `load`
     * and `tick` buffers under `__generated__`, no macros, fresh counters.
     */
    constructor(io: Io, store: MacroStore, host: Host, stack: seq<string>, steps: nat)
      requires io.Valid() && store.Valid()
      ensures Valid() && this.io == io && this.store == store && this.host == host
      ensures this.stack == stack && this.steps == steps && tokens == [] && ids == map[] && macros == map[]
      ensures fresh(load) && fresh(tick) && fresh(lib) && lib.lookup == host.lookup && lib.included == []
      ensures load.intent == Some("load") && load.functions == []
      ensures load.namespace == NamespaceOf(stack) && load.path == PathOf(stack, "__generated__/load")
      ensures tick.intent == Some("tick") && tick.functions == []
      ensures tick.namespace == NamespaceOf(stack) && tick.path == PathOf(stack, "__generated__/tick")
    {
      var l := new MCFunction(null, null, Some("load"));
      l.SetNamespace(NamespaceOf(stack));
      l.SetPath(PathOf(stack, "__generated__/load"));
      var t := new MCFunction(null, null, Some("tick"));
      t.SetNamespace(NamespaceOf(stack));
      t.SetPath(PathOf(stack, "__generated__/tick"));
      this.io := io;
      this.store := store;
      this.host := host;
      this.stack := stack;
      this.steps := steps;
      load := l;
      tick := t;
      lib := new Includes(host.lookup);
      tokens, ids, macros := [], map[], map[];
    }

    // ------------------------------------------------------- top level

    /** `consumer.Entry(file, tokens)`: top-level statements until the deque is empty. */
    method Entry(file: string) returns (r: Outcome<CompileError>)
      requires Valid()
      modifies Footprint(), load`functions, tick`functions
      ensures Valid() && Progress(r)
      ensures r.Pass? ==> tokens == []
    {
      while tokens != []
        invariant Valid() && Progress(Pass)
        decreases steps
      {
        r := EntryOp(file);
        if r.Fail? {
          return;
        }
      }
      r := Pass;
    }

    /** `consumer.EntryOp`: the first top-level handler whose pattern accepts the front token. */
    method EntryOp(file: string) returns (r: Outcome<CompileError>)
      requires Valid()
      modifies Footprint(), load`functions, tick`functions
      ensures Valid() && Progress(r)
      ensures r.Pass? ==> steps < old(steps)
      ensures old(tokens) != [] && old(steps) > 0 && Dispatch.Dispatch(EntryTable(), old(tokens)[0].text).None? ==>
        r == Fail(UnexpectedBefore(old(tokens)[0].text, Before(old(tokens)[1..]), old(tokens)[0].line))
      decreases steps, 0
    {
      if tokens == [] {
        return Fail(ExpectedMore);
      }
      if steps == 0 {
        return Fail(OutOfSteps);
      }
      steps := steps - 1;
      var t := tokens[0];
      var kind: Option<EntryKind> := Dispatch.Dispatch(EntryTable(), t.text);
      match kind
      case None =>
        tokens := tokens[1..];
        r := Fail(UnexpectedBefore(t.text, Before(tokens), t.line));
      case Some(k) =>
        if k.EImport? || k.EDir? || k.EFunction? {
          r := EntryDeclaration(file, k);
        } else {
          r := EntryControl(file, k);
        }
    }

    /** The top-level handlers that declare: imports, namespaces and functions. */
    method EntryDeclaration(file: string, k: EntryKind) returns (r: Outcome<CompileError>)
      requires Valid() && tokens != []
      requires k.EImport? || k.EDir? || k.EFunction?
      modifies Footprint(), load`functions, tick`functions
      ensures Valid() && Progress(r)
      decreases steps, 11
    {
      var t := tokens[0];
      match k
      case EImport =>
        r := Import(file);
      case EDir =>
        tokens := tokens[1..];
        r := Namespace(file, t);
      case EFunction =>
        r := Function(file);
    }

    /** The top-level handlers of clocks, loops and conditions. */
    method EntryControl(file: string, k: EntryKind) returns (r: Outcome<CompileError>)
      requires Valid() && tokens != []
      requires k.EClock? || k.ELoop? || k.EIfCall? || k.EBang?
      modifies Footprint(), load`functions, tick`functions
      ensures Valid() && Progress(r)
      decreases steps, 11
    {
      var t := tokens[0];
      match k
      case EClock =>
        r := Clock(file);
      case ELoop =>
        tokens := tokens[1..];
        r := Loop(file, t.text, null, true);
      case EIfCall =>
        tokens := tokens[1..];
        r := EntryCondition(file, IfCondition(t.text), t.args);
      case EBang =>
        tokens := tokens[1..];
        r := EntryCondition(file, SubstrFrom(t.text, 1), NoArgs);
    }

    /** `while (tokens[0].token != "}") consumer.Entry(file, tokens, true)`. */
    method EntryBody(file: string) returns (r: Outcome<CompileError>)
      requires Valid()
      modifies Footprint(), load`functions, tick`functions
      ensures Valid() && Progress(r)
      ensures r.Pass? ==> tokens != [] && tokens[0].text == "}"
      decreases steps, 1
    {
      while true
        invariant Valid() && Progress(Pass)
        decreases steps
      {
        if tokens == [] {
          return Fail(ExpectedMore);
        }
        if tokens[0].text == "}" {
          return Pass;
        }
        r := EntryOp(file);
        if r.Fail? {
          return;
        }
      }
    }

    /**
     * `import`: a `.mcm` file's macros (through the macro file cache, with
     * this file recorded as a dependent), or a library component's macros,
     * merged over the global table.
     */
    method Import(file: string) returns (r: Outcome<CompileError>)
      requires Valid() && tokens != []
      modifies this, store
      ensures Valid() && Progress(r) && stack == old(stack)
      ensures r.Pass? ==> tokens == old(tokens)[1..]
      ensures var t := old(tokens)[0];
              var target := Trim(SubstrFrom(t.text, 7));
              var lib := Split(target, '/')[0];
              && (EndsWith(t.text, ".mcm") && r.Pass? ==>
                   var p := MacroPath(store.resolve(file, target));
                   p in store.entries && macros == old(macros) + store.entries[p].macros
                   && file in store.entries[p].dependents)
              && (!EndsWith(t.text, ".mcm") ==> ImportLibraryOk(host, target, lib, old(macros), t.line, r, macros))
    {
      var t := tokens[0];
      var target := Trim(SubstrFrom(t.text, 7));
      if EndsWith(t.text, ".mcm") {
        r := ImportMacroFile(file, target);
      } else {
        r := ImportLibrary(target, t.line);
      }
      if r.Pass? {
        tokens := tokens[1..];
      }
    }

    /** The `.mcm` branch of `import`: the file's macros merged over the table. */
    method ImportMacroFile(file: string, target: string) returns (r: Outcome<CompileError>)
      requires store.Valid()
      modifies `macros, store
      ensures store.Valid()
      ensures r.Pass? ==>
        var p := MacroPath(store.resolve(file, target));
        p in store.entries && macros == old(macros) + store.entries[p].macros
        && file in store.entries[p].dependents
    {
      var got := store.Get(store.resolve(file, target), Some(file));
      if got.Err? {
        return Fail(got.error);
      }
      macros := macros + got.value;
      r := Pass;
    }

    /** The library branch of `import`: `lib/…` looked up among the loaded libraries. */
    method ImportLibrary(target: string, line: Line) returns (r: Outcome<CompileError>)
      modifies `macros
      ensures ImportLibraryOk(host, target, Split(target, '/')[0], old(macros), line, r, macros)
    {
      var lib := Split(target, '/')[0];
      if lib == "" {
        return Fail(LibraryMissing(lib, line));
      }
      if lib !in host.libraries {
        return Fail(Crash("library " + lib + " is not loaded"));
      }
      if target !in host.libraries[lib] {
        return Fail(LibraryComponentMissing(target, lib, line));
      }
      macros := macros + host.libraries[lib][target];
      r := Pass;
    }

    /** `dir <name> { … }`: the body compiled with `<name>` pushed on the namespace stack. */
    method Namespace(file: string, t: Token) returns (r: Outcome<CompileError>)
      requires Valid()
      modifies Footprint(), load`functions, tick`functions
      ensures Valid() && Progress(r)
      ensures Interpolate(io.interp, old(io.env), SubstrFrom(t.text, 4)).Err? ==> r.Fail?
      decreases steps, 2
    {
      var name := Interpolate(io.interp, io.env, SubstrFrom(t.text, 4));
      if name.Err? {
        return Fail(name.error);
      }
      stack := stack + [Trim(name.value)];
      var v := ValidateNext(tokens, "{");
      if v.Err? {
        return Fail(v.error);
      }
      tokens := v.value;
      r := EntryBody(file);
      if r.Fail? {
        return;
      }
      tokens := tokens[1..];
      stack := stack[..|stack| - 1];
    }

    /**
     * `!IF(cond) { … }` and `!cond { … }` at the top level: the body when the
     * condition holds, otherwise the balanced block skipped unread.
     */
    method EntryCondition(file: string, cond: string, args: MacroArgs) returns (r: Outcome<CompileError>)
      requires Valid()
      modifies Footprint(), load`functions, tick`functions
      ensures Valid() && Progress(r)
      ensures var v := ValidateNext(old(tokens), "{");
              && (v.Err? ==> r == Fail(v.error))
              && (v.Ok? && !Truthy(Evaluate(host.oracle, cond, old(io.env), args)) ==>
                   r == Pass && tokens == v.value[SkipLen(v.value, 1)..] && io.out == old(io.out))
      decreases steps, 2
    {
      var v := ValidateNext(tokens, "{");
      if v.Err? {
        return Fail(v.error);
      }
      tokens := v.value;
      if Truthy(Evaluate(host.oracle, cond, io.env, args)) {
        r := EntryBody(file);
        if r.Fail? {
          return;
        }
        tokens := tokens[1..];
      } else {
        tokens := SkipBalanced(tokens);
        r := Pass;
      }
    }

    /**
     * `function <name> { … }`: the name interpolated and checked, a buffer
     * named after the namespace stack, its body, then the buffer emitted.
     */
    method Function(file: string) returns (r: Outcome<CompileError>)
      requires Valid() && tokens != []
      modifies Footprint(), load`functions, tick`functions
      ensures Valid() && Progress(r)
      ensures var parts := Split(old(tokens)[0].text, ' ');
              |parts| >= 2 ==>
              var name := Interpolate(io.interp, old(io.env), parts[1]);
              && (name.Err? ==> r == Fail(name.error))
              && (name.Ok? && BadNameChar(name.value).Some? ==> r == Fail(InvalidFunctionName(name.value, old(tokens)[0].line)))
              && (r.Pass? ==> name.Ok? && PathOf(old(stack), name.value) in io.fakefs)
      decreases steps, 3
    {
      var t := tokens[0];
      tokens := tokens[1..];
      var parts := Split(t.text, ' ');
      if |parts| < 2 {
        return Fail(Crash("function name missing"));
      }
      var name := Interpolate(io.interp, io.env, parts[1]);
      if name.Err? {
        return Fail(name.error);
      }
      if BadNameChar(name.value).Some? {
        return Fail(InvalidFunctionName(name.value, t.line));
      }
      r := FunctionBody(file, name.value);
    }

    /** The buffer of `function <name> { … }`: its body, then the buffer emitted. */
    method FunctionBody(file: string, name: string) returns (r: Outcome<CompileError>)
      requires Valid()
      modifies Footprint(), load`functions, tick`functions
      ensures Valid() && Progress(r)
      ensures r.Pass? ==> PathOf(old(stack), name) in io.fakefs
      decreases steps, 2
    {
      var f := NewBuffer(null, null, Some(name), NamespaceOf(stack), PathOf(stack, name));
      var v := ValidateNext(tokens, "{");
      if v.Err? {
        return Fail(v.error);
      }
      tokens := v.value;
      r := GenericBody(file, f, f, Buf(f));
      if r.Fail? {
        return;
      }
      tokens := tokens[1..];
      ConfirmBuffer(f, file);
    }

    /**
     * `clock <time> { … }`: a block that reschedules itself every `<time>`,
     * registered as a load function of the file.
     */
    method Clock(file: string) returns (r: Outcome<CompileError>)
      requires Valid() && tokens != []
      modifies Footprint(), load`functions, tick`functions
      ensures Valid() && Progress(r)
      ensures r.Pass? ==> |old(tokens)| >= 3
      ensures r.Pass? && !StartsWith(old(tokens)[2].text, "name ") ==>
        var ref := NamespaceOf(old(stack)) + ":" + PathOf(old(stack), GeneratedName("clock", NextId(old(ids), "clock")));
        io.loadFunction.ValuesFor(file) != [] && io.loadFunction.ValuesFor(file)[|io.loadFunction.ValuesFor(file)| - 1] == ref
      ensures r.Pass? && StartsWith(old(tokens)[2].text, "name ") ==>
        var n := Interpolate(io.interp, old(io.env), SubstrFrom(old(tokens)[2].text, 5));
        n.Ok? && io.loadFunction.ValuesFor(file) != [] &&
        io.loadFunction.ValuesFor(file)[|io.loadFunction.ValuesFor(file)| - 1] == NamespaceOf(old(stack)) + ":" + PathOf(old(stack), Trim(n.value))
      decreases steps, 4
    {
      var t := tokens[0];
      tokens := tokens[1..];
      var time := SubstrFrom(t.text, 6);
      var res, f := Block(file, "clock", ["schedule function $block " + time], [], false, null, Undef);
      if res.Fail? {
        return res;
      }
      io.loadFunction.Set(file, f.Reference());
      r := Pass;
    }

    // ------------------------------------------------------- loops

    /**
     * `LOOP(count, name) { … }`: with an array count, every item but the
     * last bound to `name` in turn and the body compiled from a copy of the
     * deque; with a number `n`, `0 … n-2` likewise. Then the last value is
     * bound, the body compiled from the real deque, and `name` unbound.
     */
    method Loop(file: string, header: string, func: MCFunction?, entry: bool) returns (r: Outcome<CompileError>)
      requires Own(func)
      requires Valid() && (!entry ==> func != null)
      modifies Footprint(), load`functions, tick`functions, Target(func)`functions
      ensures Valid() && Progress(r)
      ensures func != null ==> Extends(func)
      ensures ValidateNext(old(tokens), "{").Err? ==> r == Fail(ValidateNext(old(tokens), "{").error)
      ensures r.Pass? ==> LoopHeader(header).1 !in io.env
      decreases steps, 5
    {
      var (countExpr, name) := LoopHeader(header);
      var bindings := LoopBindings(Evaluate(host.oracle, countExpr, io.env, NoArgs));
      var v := ValidateNext(tokens, "{");
      if v.Err? {
        return Fail(v.error);
      }
      tokens := v.value;
      var saved := tokens;
      r := LoopCopies(file, func, entry, name, bindings[..|bindings| - 1]);
      if r.Fail? {
        return;
      }
      io.env := io.env[name := bindings[|bindings| - 1]];
      tokens := saved;
      r := LoopPass(file, func, entry);
      if r.Fail? {
        return;
      }
      tokens := tokens[1..];
      io.env := io.env - {name};
    }

    /** The passes of `LOOP` over copies of the deque, one per value, each with `name` bound to it. */
    method LoopCopies(file: string, func: MCFunction?, entry: bool, name: string, values: seq<Value>) returns (r: Outcome<CompileError>)
      requires Own(func)
      requires Valid() && (!entry ==> func != null)
      modifies Footprint(), load`functions, tick`functions, Target(func)`functions
      ensures Valid() && Progress(r) && (func != null ==> Extends(func))
      ensures r.Pass? ==> tokens == old(tokens)
      decreases steps, 3
    {
      var saved := tokens;
      var i := 0;
      r := Pass;
      while i < |values|
        invariant Valid() && Progress(Pass) && (func != null ==> Extends(func))
        invariant tokens == saved
      {
        io.env := io.env[name := values[i]];
        r := LoopPass(file, func, entry);
        if r.Fail? {
          return;
        }
        tokens := saved;
        i := i + 1;
      }
    }

    /** One pass over a loop body: top-level statements, or body statements into `func`. */
    method LoopPass(file: string, func: MCFunction?, entry: bool) returns (r: Outcome<CompileError>)
      requires Own(func)
      requires Valid() && (!entry ==> func != null)
      modifies Footprint(), load`functions, tick`functions, Target(func)`functions
      ensures Valid() && Progress(r)
      ensures func != null ==> Extends(func)
      ensures r.Pass? ==> tokens != [] && tokens[0].text == "}"
      decreases steps, 2
    {
      if entry {
        r := EntryBody(file);
      } else {
        r := GenericBody(file, func, null, Null);
      }
    }

    // ------------------------------------------------------- blocks

    /**
     * `consumer.Block`: `{`, an optional `name <path>` (otherwise the next
     * `__generated__/<reason>/<n>`), a fresh buffer under the namespace
     * stack, the `prepend` commands, the body, the `append` commands, `}`;
     * unless `dummy`, the buffer is emitted.
     */
    method Block(file: string, reason: string, prepend: seq<string>, append: seq<string>, dummy: bool, parent: MCFunction?, fp: Functional)
      returns (r: Outcome<CompileError>, f: MCFunction?)
      requires Valid()
      modifies Footprint(), load`functions, tick`functions
      ensures Valid() && Progress(r)
      ensures r.Pass? ==> steps < old(steps)
      ensures r.Pass? ==> |old(tokens)| >= 2 && old(tokens)[0].text == "{"
      ensures r.Pass? ==> f != null && fresh(f) && f.parent == parent && f.topOrSelf == Top(fp) && f.intent.None?
      ensures r.Pass? ==> f.namespace == NamespaceOf(old(stack))
      ensures r.Pass? && !StartsWith(old(tokens)[1].text, "name ") ==>
        f.path == PathOf(old(stack), GeneratedName(reason, NextId(old(ids), reason)))
      ensures r.Pass? && StartsWith(old(tokens)[1].text, "name ") ==>
        var n := Interpolate(io.interp, old(io.env), SubstrFrom(old(tokens)[1].text, 5));
        n.Ok? && f.path == PathOf(old(stack), Trim(n.value))
      ensures r.Pass? ==> Framed(f.functions, io.interp, old(io.env), io.env, prepend, append)
      ensures r.Pass? && !dummy ==> f.path in io.fakefs
      decreases steps, 3
    {
      f := null;
      var v := ValidateNext(tokens, "{");
      if v.Err? {
        return Fail(v.error), null;
      }
      tokens := v.value;
      if tokens == [] {
        return Fail(ExpectedMore), null;
      }
      if steps == 0 {
        return Fail(OutOfSteps), null;
      }
      steps := steps - 1;
      var name := BlockName(reason);
      if name.Err? {
        return Fail(name.error), null;
      }
      r, f := BlockBuild(file, name.value, prepend, append, dummy, parent, fp, reason == "conditional");
    }

    /** The name of a block: `name <path>` interpolated, else the next generated name for `reason`. */
    method BlockName(reason: string) returns (r: Result<string, CompileError>)
      requires tokens != []
      modifies `tokens, `ids
      ensures !StartsWith(old(tokens)[0].text, "name ") ==>
        r == Ok(GeneratedName(reason, NextId(old(ids), reason))) && ids == Bump(old(ids), reason) && tokens == old(tokens)
      ensures StartsWith(old(tokens)[0].text, "name ") ==>
        var n := Interpolate(io.interp, io.env, SubstrFrom(old(tokens)[0].text, 5));
        && ids == old(ids) && tokens == old(tokens)[1..]
        && (n.Err? ==> r == Err(n.error))
        && (n.Ok? ==> r == Ok(Trim(n.value)))
    {
      if StartsWith(tokens[0].text, "name ") {
        var special := tokens[0].text;
        tokens := tokens[1..];
        var n := Interpolate(io.interp, io.env, SubstrFrom(special, 5));
        if n.Err? {
          return Err(n.error);
        }
        r := Ok(Trim(n.value));
      } else {
        r := Ok(GeneratedName(reason, NextId(ids, reason)));
        ids := Bump(ids, reason);
      }
    }

    /**
     * A block once named: the buffer under the namespace stack, the
     * `prepend` commands, the body, the `append` commands and `}`; unless
     * `dummy`, the buffer is emitted.
     */
    method BlockBuild(file: string, name: string, prepend: seq<string>, append: seq<string>, dummy: bool,
                      parent: MCFunction?, fp: Functional, conditional: bool)
      returns (r: Outcome<CompileError>, f: MCFunction)
      requires Valid()
      modifies Footprint(), load`functions, tick`functions
      ensures Valid() && Progress(r)
      ensures fresh(f) && f.parent == parent && f.topOrSelf == Top(fp) && f.intent.None?
      ensures f.namespace == NamespaceOf(old(stack)) && f.path == PathOf(old(stack), name)
      ensures r.Pass? ==> Framed(f.functions, io.interp, old(io.env), io.env, prepend, append)
      ensures r.Pass? && !dummy ==> f.path in io.fakefs
      decreases steps, 4
    {
      f := NewBuffer(parent, Top(fp), None, NamespaceOf(stack), PathOf(stack, name));
      var inner := if conditional then (if fp.Null? then Buf(f) else fp) else Buf(f);
      r := BlockFill(file, f, prepend, append, inner);
      if r.Pass? && !dummy {
        ConfirmBuffer(f, file);
      }
    }

    /** `f.confirm(file)` as the handlers rely on it: the path is emitted, nothing else of theirs changes. */
    method ConfirmBuffer(f: MCFunction, file: string)
      requires Valid()
      modifies io, io.loadFunction, io.tickFunction
      ensures Valid() && io.fakefs == old(io.fakefs) + {f.path} && io.env == old(io.env)
    {
      f.Confirm(io, file);
    }

    /** A fresh buffer, placed at `namespace:path`. */
    static method NewBuffer(parent: MCFunction?, top: MCFunction?, intent: Option<string>, namespace: string, path: string) returns (f: MCFunction)
      ensures fresh(f) && f.parent == parent && f.topOrSelf == top && f.intent == intent
      ensures f.functions == [] && f.namespace == namespace && f.path == path
    {
      f := new MCFunction(parent, top, intent);
      f.SetNamespace(namespace);
      f.SetPath(path);
    }

    /** The commands of a fresh block: `prepend`, the body, `append`, then `}` is consumed. */
    method BlockFill(file: string, f: MCFunction, prepend: seq<string>, append: seq<string>, inner: Functional)
      returns (r: Outcome<CompileError>)
      requires Own(f) && f.functions == []
      requires Valid()
      modifies Footprint(), load`functions, tick`functions, f`functions
      ensures Valid() && Progress(r)
      ensures r.Pass? ==> Framed(f.functions, io.interp, old(io.env), io.env, prepend, append)
      decreases steps, 3
    {
      r := AddAll(io, f, prepend);
      if r.Fail? {
        return;
      }
      ghost var first := f.functions;
      r := BlockBody(file, f, inner, append);
      if r.Fail? {
        return;
      }
      assert f.functions[..|prepend|] == first;
      tokens := tokens[1..];
    }

    /** `consumer.Block` as its callers rely on it: a fresh buffer, one step spent when it succeeds. */
    method SubBlock(file: string, reason: string, prepend: seq<string>, append: seq<string>, dummy: bool, parent: MCFunction?, fp: Functional)
      returns (r: Outcome<CompileError>, f: MCFunction?)
      requires Valid()
      modifies Footprint(), load`functions, tick`functions
      ensures Valid() && Progress(r)
      ensures r.Pass? ==> steps < old(steps) && f != null && fresh(f)
      decreases steps, 4
    {
      r, f := Block(file, reason, prepend, append, dummy, parent, fp);
    }

    /** The body of a block and its `append` commands, up to the closing `}`. */
    method BlockBody(file: string, f: MCFunction, fp: Functional, append: seq<string>) returns (r: Outcome<CompileError>)
      requires Own(f)
      requires Valid()
      modifies Footprint(), load`functions, tick`functions, f`functions
      ensures Valid() && Progress(r) && Extends(f)
      ensures r.Pass? ==> tokens != [] && tokens[0].text == "}"
      ensures r.Pass? ==>
        var post := InterpolateAll(io.interp, io.env, append);
        post.Ok? && |f.functions| >= |old(f.functions)| + |append| && f.functions[|f.functions| - |append|..] == post.value
      decreases steps, 2
    {
      r := GenericBody(file, f, f, fp);
      if r.Fail? {
        return;
      }
      r := AddAll(io, f, append);
    }

    /** `while (tokens[0].token != "}") consumer.Generic(file, tokens, func, parent, fp)`. */
    method GenericBody(file: string, func: MCFunction, parent: MCFunction?, fp: Functional) returns (r: Outcome<CompileError>)
      requires Own(func)
      requires Valid()
      modifies Footprint(), load`functions, tick`functions, func`functions
      ensures Valid() && Progress(r) && Extends(func)
      ensures r.Pass? ==> tokens != [] && tokens[0].text == "}"
      decreases steps, 1
    {
      while true
        invariant Valid() && Progress(Pass) && Extends(func)
        decreases steps
      {
        if tokens == [] {
          return Fail(ExpectedMore);
        }
        if tokens[0].text == "}" {
          return Pass;
        }
        r := Generic(file, func, parent, fp);
        if r.Fail? {
          return;
        }
      }
    }

    // ------------------------------------------------------- body statements

    /** `consumer.Generic`: the first body handler whose pattern accepts the front token, else the default. */
    method Generic(file: string, func: MCFunction, parent: MCFunction?, fp: Functional) returns (r: Outcome<CompileError>)
      requires Own(func)
      requires Valid()
      modifies Footprint(), load`functions, tick`functions, func`functions
      ensures Valid() && Progress(r) && Extends(func)
      ensures r.Pass? ==> steps < old(steps)
      decreases steps, 0
    {
      if tokens == [] {
        return Fail(ExpectedMore);
      }
      if steps == 0 {
        return Fail(OutOfSteps);
      }
      steps := steps - 1;
      var t := tokens[0];
      var kind: Option<GenericKind> := Dispatch.Dispatch(GenericTable(), t.text);
      match kind
      case None =>
        r := Default(file, func, parent, fp);
      case Some(k) =>
        if k.GLoad? || k.GTick? || k.GScript? || k.GWarn? || k.GError? || k.GMacro? {
          r := GenericStatement(file, func, k);
        } else if k.GExecuteIf? || k.GIfCall? || k.GBang? || k.GBlock? || k.GExecuteRun? || k.GLoop? {
          r := GenericControl(file, func, parent, fp, k);
        } else {
          r := GenericRepeat(file, func, parent, fp, k);
        }
    }

    /** The body handlers that change the macro table, the load and tick buffers or the script output. */
    method GenericStatement(file: string, func: MCFunction, k: GenericKind) returns (r: Outcome<CompileError>)
      requires Own(func)
      requires Valid() && tokens != []
      modifies Footprint(), load`functions, tick`functions, func`functions
      ensures Valid() && Progress(r) && Extends(func)
      requires k.GLoad? || k.GTick? || k.GScript? || k.GWarn? || k.GError? || k.GMacro?
      decreases steps, 11
    {
      var t := tokens[0];
      ghost var before := func.functions;
      match k
      case GLoad =>
        r := LoadTick(file, true);
        assert func.functions == before;
      case GTick =>
        r := LoadTick(file, false);
        assert func.functions == before;
      case GScript =>
        r := ScriptBlock(func);
      case GWarn =>
        r := Warn();
      case GError =>
        tokens := tokens[1..];
        r := Fail(UserError(Trim(SubstrFrom(t.text, 5)), t.line));
      case GMacro =>
        tokens := tokens[1..];
        var parts := Split(t.text, ' ');
        r := HandleMacro(file, t, if |parts| > 1 then parts[1] else "undefined", if |parts| > 2 then parts[2..] else []);
        assert func.functions == before;
    }

    /** The body handlers of conditions, blocks and loops over values. */
    method GenericControl(file: string, func: MCFunction, parent: MCFunction?, fp: Functional, k: GenericKind) returns (r: Outcome<CompileError>)
      requires Own(func)
      requires Valid() && tokens != []
      modifies Footprint(), load`functions, tick`functions, func`functions
      ensures Valid() && Progress(r) && Extends(func)
      requires k.GExecuteIf? || k.GIfCall? || k.GBang? || k.GBlock? || k.GExecuteRun? || k.GLoop?
      decreases steps, 11
    {
      var t := tokens[0];
      match k
      case GExecuteIf =>
        r := ExecuteIf(file, func, parent, fp);
      case GIfCall =>
        tokens := tokens[1..];
        r := GenericCondition(file, func, IfCondition(t.text), t.args);
      case GBang =>
        tokens := tokens[1..];
        r := GenericCondition(file, func, SubstrFrom(t.text, 1), t.args);
      case GBlock =>
        r := BlockStatement(file, func, parent);
      case GExecuteRun =>
        r := ExecuteRun(file, func, parent, fp);
      case GLoop =>
        tokens := tokens[1..];
        r := Loop(file, t.text, func, false);
    }

    /** The body handlers of repetition and scheduling, and raw commands. */
    method GenericRepeat(file: string, func: MCFunction, parent: MCFunction?, fp: Functional, k: GenericKind) returns (r: Outcome<CompileError>)
      requires Own(func)
      requires Valid() && tokens != []
      modifies Footprint(), load`functions, tick`functions, func`functions
      ensures Valid() && Progress(r) && Extends(func)
      requires k.GUntil? || k.GAsyncWhile? || k.GWhile? || k.GSchedule? || k.GSequence? || k.GRaw?
      decreases steps, 11
    {
      match k
      case GUntil =>
        r := Until(file, func, parent);
      case GAsyncWhile =>
        r := While(file, func, parent, true);
      case GWhile =>
        r := While(file, func, parent, false);
      case GSchedule =>
        r := Schedule(file, func, parent, fp);
      case GSequence =>
        r := SequenceStatement(file, func);
      case GRaw =>
        r := Raw(func);
    }

    /** `load { … }` / `tick { … }`: a throw-away block whose commands go to the file's load or tick buffer. */
    method LoadTick(file: string, isLoad: bool) returns (r: Outcome<CompileError>)
      requires Valid() && tokens != []
      modifies Footprint(), load`functions, tick`functions
      ensures Valid() && Progress(r)
      decreases steps, 5
    {
      tokens := tokens[1..];
      var res, f := SubBlock(file, if isLoad then "load" else "tick", [], [], true, null, Null);
      if res.Fail? {
        return res;
      }
      r := AddAll(io, if isLoad then load else tick, f.functions);
    }

    /** `warn <text>`: the text must interpolate; the message itself goes to the logger. */
    method Warn() returns (r: Outcome<CompileError>)
      requires Valid() && tokens != []
      modifies this
      ensures Valid() && Progress(r) && tokens == old(tokens)[1..]
      ensures var m := Interpolate(io.interp, io.env, Trim(SubstrFrom(old(tokens)[0].text, 5)));
              (m.Ok? ==> r == Pass) && (m.Err? ==> r == Fail(m.error))
    {
      var t := tokens[0];
      tokens := tokens[1..];
      var m := Interpolate(io.interp, io.env, Trim(SubstrFrom(t.text, 5)));
      if m.Err? {
        return Fail(m.error);
      }
      r := Pass;
    }

    /**
     * `<%% … %%>`: the code between the markers runs once; its `emit`s go
     * to `func`, or to the load buffer when flagged. Anything that throws
     * inside is reported as a script error.
     */
    method ScriptBlock(func: MCFunction) returns (r: Outcome<CompileError>)
      requires Own(func)
      requires Valid() && tokens != []
      modifies this, func`functions, load`functions
      ensures Valid() && Progress(r) && Extends(func)
      ensures ScriptEnd(old(tokens)[1..]).None? ==> r == Fail(ExpectedMore)
      ensures r.Fail? ==> r.error == ExpectedMore || r.error == ScriptError
      ensures ScriptEnd(old(tokens)[1..]).Some? ==>
                && tokens == old(tokens)[1..][ScriptEnd(old(tokens)[1..]).value + 1..]
                && ScriptRan(io.interp, io.env, host.script(ScriptCode(old(tokens)[1..]), io.env, old(tokens)[0].args), r,
                             old(func.functions), func.functions, old(load.functions), load.functions)
    {
      var t := tokens[0];
      tokens := tokens[1..];
      var c := CollectScript(tokens);
      if c.None? {
        return Fail(ExpectedMore);
      }
      var (code, used) := c.value;
      tokens := tokens[used..];
      r := RunScript(func, code, t.args);
    }

    /** The script `code` run with the environment: its emitted commands appended, a throw or a bad line a `ScriptError`. */
    method RunScript(func: MCFunction, code: string, args: MacroArgs) returns (r: Outcome<CompileError>)
      requires Own(func)
      modifies func`functions, load`functions
      ensures Extends(func) && Extends(load)
      ensures r.Fail? ==> r.error == ScriptError
      ensures ScriptRan(io.interp, io.env, host.script(code, io.env, args), r, old(func.functions), func.functions, old(load.functions), load.functions)
    {
      var (emits, completed) := host.script(code, io.env, args);
      r := Emit(func, emits);
      if r.Fail? || !completed {
        return Fail(ScriptError);
      }
    }

    /** One emitted command, appended to `load` or to the block's buffer. */
    method EmitLine(func: MCFunction, command: string, toLoad: bool) returns (r: Outcome<CompileError>)
      requires Own(func)
      modifies func`functions, load`functions
      ensures var line := Interpolate(io.interp, io.env, command);
              && (r.Pass? <==> line.Ok?)
              && (line.Err? ==> load.functions == old(load.functions) && func.functions == old(func.functions))
              && (line.Ok? && toLoad ==> load.functions == old(load.functions) + [line.value] && func.functions == old(func.functions))
              && (line.Ok? && !toLoad ==> func.functions == old(func.functions) + [line.value] && load.functions == old(load.functions))
    {
      if toLoad {
        r := load.AddCommand(io, command);
      } else {
        r := func.AddCommand(io, command);
      }
    }

    /** The next `emit` of a script: the buffers so far hold the emits before `i`; on success they hold those up to `i`. */
    method EmitNext(func: MCFunction, emits: seq<(string, bool)>, i: nat, ghost own: seq<string>, ghost loaded: seq<string>)
      returns (r: Outcome<CompileError>)
      requires Own(func) && i < |emits|
      requires func.functions == own + Emitted(io.interp, io.env, emits[..i], false)
      requires load.functions == loaded + Emitted(io.interp, io.env, emits[..i], true)
      modifies func`functions, load`functions
      ensures r.Pass? <==> Interpolate(io.interp, io.env, emits[i].0).Ok?
      ensures r.Fail? ==> func.functions == old(func.functions) && load.functions == old(load.functions)
      ensures r.Pass? ==> && func.functions == own + Emitted(io.interp, io.env, emits[..i + 1], false)
                          && load.functions == loaded + Emitted(io.interp, io.env, emits[..i + 1], true)
    {
      EmittedSnoc(io.interp, io.env, emits, i);
      r := EmitLine(func, emits[i].0, emits[i].1);
    }

    /** The `emit(command, isLoad)` calls of a script, in order. */
    method Emit(func: MCFunction, emits: seq<(string, bool)>) returns (r: Outcome<CompileError>)
      requires Own(func)
      modifies func`functions, load`functions
      ensures Extends(func) && Extends(load)
      ensures r.Pass? <==> forall i :: 0 <= i < |emits| ==> Interpolate(io.interp, io.env, emits[i].0).Ok?
      ensures r.Fail? ==> r.error == ScriptError
      ensures r.Pass? ==> && func.functions == old(func.functions) + Emitted(io.interp, io.env, emits, false)
                          && load.functions == old(load.functions) + Emitted(io.interp, io.env, emits, true)
    {
      ghost var own, loaded := func.functions, load.functions;
      var i := 0;
      while i < |emits|
        invariant i <= |emits|
        invariant forall j :: 0 <= j < i ==> Interpolate(io.interp, io.env, emits[j].0).Ok?
        invariant func.functions == own + Emitted(io.interp, io.env, emits[..i], false)
        invariant load.functions == loaded + Emitted(io.interp, io.env, emits[..i], true)
      {
        var res := EmitNext(func, emits, i, own, loaded);
        if res.Fail? {
          return Fail(ScriptError);
        }
        i := i + 1;
      }
      assert emits[..i] == emits;
      r := Pass;
    }

    /**
     * `execute(cond) { … }` with its `else execute(cond) { … }` and `else { … }`
     * arms: a flag reset to 0, each arm a conditional block that sets it
     * to 1, each later arm run only while the flag is still 0.
     */
    method ExecuteIf(file: string, func: MCFunction, parent: MCFunction?, fp: Functional) returns (r: Outcome<CompileError>)
      requires Own(func)
      requires Valid() && tokens != []
      modifies Footprint(), load`functions, tick`functions, func`functions
      ensures Valid() && Progress(r) && Extends(func)
      ensures r.Pass? ==>
        var reset := Interpolate(io.interp, old(io.env), "scoreboard players set #execute " + host.scoreboard + " 0");
        reset.Ok? && |func.functions| >= |old(func.functions)| + 2 && func.functions[|old(func.functions)|] == reset.value
      decreases steps, 7
    {
      var t := tokens[0];
      tokens := tokens[1..];
      r := func.AddCommand(io, "scoreboard players set #execute " + host.scoreboard + " 0");
      if r.Fail? {
        return;
      }
      r := Arm(file, func, parent, fp, "execute " + ExecuteCondition(t.text) + " run ", true);
      if r.Fail? {
        return;
      }
      r := ElseArms(file, func, parent, fp);
    }

    /**
     * The `else execute(cond) { … }` arms that follow, each run only while
     * the flag is 0, and a final `else { … }`.
     */
    method ElseArms(file: string, func: MCFunction, parent: MCFunction?, fp: Functional) returns (r: Outcome<CompileError>)
      requires Own(func)
      requires Valid()
      modifies Footprint(), load`functions, tick`functions, func`functions
      ensures Valid() && Progress(r) && Extends(func)
      decreases steps, 6
    {
      var sb := host.scoreboard;
      while true
        invariant Valid() && Progress(Pass) && Extends(func)
        decreases steps
      {
        if tokens == [] {
          return Fail(ExpectedMore);
        }
        if !CallAt(tokens[0].text, "else execute", 0) {
          break;
        }
        var t := tokens[0];
        tokens := tokens[1..];
        r := Arm(file, func, parent, fp, "execute if score #execute " + sb + " matches 0 " + ExecuteCondition(t.text) + " run ", true);
        if r.Fail? {
          return;
        }
      }
      r := Pass;
      if StartsWith(tokens[0].text, "else") {
        tokens := tokens[1..];
        r := Arm(file, func, parent, fp, "execute if score #execute " + sb + " matches 0 run ", false);
      }
    }

    /**
     * One arm: a conditional block (setting the flag to 1 at its end when
     * `flag`), called from `func` after `prefix`.
     */
    method Arm(file: string, func: MCFunction, parent: MCFunction?, fp: Functional, prefix: string, flag: bool) returns (r: Outcome<CompileError>)
      requires Own(func)
      requires Valid()
      modifies Footprint(), load`functions, tick`functions, func`functions
      ensures Valid() && Progress(r) && Extends(func)
      ensures r.Pass? ==> steps < old(steps) && |old(tokens)| >= 2
      ensures r.Pass? ==> |func.functions| == |old(func.functions)| + 1 && func.functions[..|old(func.functions)|] == old(func.functions)
      ensures r.Pass? && !StartsWith(old(tokens)[1].text, "name ") ==>
        var path := PathOf(old(stack), GeneratedName("conditional", NextId(old(ids), "conditional")));
        Interpolate(io.interp, io.env, prefix + "function " + NamespaceOf(old(stack)) + ":" + path) == Ok(func.functions[|func.functions| - 1])
      decreases steps, 5
    {
      var res, f := ConditionalBlock(file, parent, fp, flag);
      if res.Fail? {
        return res;
      }
      assert prefix + f.ToString() == prefix + "function " + f.namespace + ":" + f.path;
      r := func.AddCommand(io, prefix + f.ToString());
    }

    /** The block of an arm, setting the flag to 1 at its end when `flag`: a fresh buffer under a generated or given name. */
    method ConditionalBlock(file: string, parent: MCFunction?, fp: Functional, flag: bool) returns (r: Outcome<CompileError>, f: MCFunction?)
      requires Valid()
      modifies Footprint(), load`functions, tick`functions
      ensures Valid() && Progress(r)
      ensures r.Pass? ==> steps < old(steps) && f != null && fresh(f) && |old(tokens)| >= 2
      ensures r.Pass? && !StartsWith(old(tokens)[1].text, "name ") ==>
        f.namespace == NamespaceOf(old(stack)) && f.path == PathOf(old(stack), GeneratedName("conditional", NextId(old(ids), "conditional")))
      decreases steps, 4
    {
      r, f := Block(file, "conditional", [], if flag then ["scoreboard players set #execute " + host.scoreboard + " 1"] else [], false, parent, fp);
    }

    /**
     * `!IF(cond) { … }` and `!cond { … }` in a body: the statements go to
     * `func` when the condition holds; otherwise the block is skipped.
     */
    method GenericCondition(file: string, func: MCFunction, cond: string, args: MacroArgs) returns (r: Outcome<CompileError>)
      requires Own(func)
      requires Valid()
      modifies Footprint(), load`functions, tick`functions, func`functions
      ensures Valid() && Progress(r) && Extends(func)
      ensures var v := ValidateNext(old(tokens), "{");
              && (v.Err? ==> r == Fail(v.error))
              && (v.Ok? && !Truthy(Evaluate(host.oracle, cond, old(io.env), args)) ==>
                   r == Pass && tokens == v.value[SkipLen(v.value, 1)..] && func.functions == old(func.functions))
      decreases steps, 2
    {
      var v := ValidateNext(tokens, "{");
      if v.Err? {
        return Fail(v.error);
      }
      tokens := v.value;
      if Truthy(Evaluate(host.oracle, cond, io.env, args)) {
        r := GenericBody(file, func, null, Undef);
        if r.Fail? {
          return;
        }
        tokens := tokens[1..];
      } else {
        tokens := SkipBalanced(tokens);
        r := Pass;
      }
    }

    /** `block { … }` or a bare `{ … }`: an emitted block, called from `func`. */
    method BlockStatement(file: string, func: MCFunction, parent: MCFunction?) returns (r: Outcome<CompileError>)
      requires Own(func)
      requires Valid() && tokens != []
      modifies Footprint(), load`functions, tick`functions, func`functions
      ensures Valid() && Progress(r) && Extends(func)
      decreases steps, 5
    {
      if tokens[0].text == "block" {
        tokens := tokens[1..];
      }
      var res, f := SubBlock(file, "block", [], [], false, parent, Null);
      if res.Fail? {
        return res;
      }
      r := func.AddCommand(io, f.ToString());
    }

    /**
     * `execute … run <command>`: the command is wrapped in a block (together
     * with the braced span that follows when its line ends in `{`); a block
     * of more than one command becomes a function of its own, otherwise its
     * one command is inlined after `execute … run`.
     */
    method ExecuteRun(file: string, func: MCFunction, parent: MCFunction?, fp: Functional) returns (r: Outcome<CompileError>)
      requires Own(func)
      requires Valid() && tokens != []
      modifies Footprint(), load`functions, tick`functions, func`functions
      ensures Valid() && Progress(r) && Extends(func)
      decreases steps, 6
    {
      var t := tokens[0];
      tokens := tokens[1..];
      var (execute, command) := ExecuteRunParts(t.text);
      if command != "" {
        WrapRun(t, command);
      }
      r := ExecuteRunBlock(file, func, parent, fp, execute);
    }

    /** The block `execute … run` compiles, and the line it leaves in `func`. */
    method ExecuteRunBlock(file: string, func: MCFunction, parent: MCFunction?, fp: Functional, execute: string) returns (r: Outcome<CompileError>)
      requires Own(func)
      requires Valid()
      modifies Footprint(), load`functions, tick`functions, func`functions
      ensures Valid() && Progress(r) && Extends(func)
      decreases steps, 5
    {
      ghost var before := func.functions;
      var res, f := SubBlock(file, "execute", [], [], true, parent, fp);
      assert func.functions == before;
      if res.Fail? {
        return res;
      }
      r := ExecuteRunCall(file, func, f, execute);
    }

    /**
     * `execute … run <command>`: the command and the block that opens on
     * its line, if any, become a block of their own on the deque.
     */
    method WrapRun(t: Token, command: string)
      modifies `tokens
      ensures var k := RunSpan(old(tokens), t.line);
              tokens == [t.(text := "{"), t.(text := command)] + old(tokens)[..k] + [t.(text := "}")] + old(tokens)[k..]
    {
      var last := LastOnLine(tokens, t.line);
      var span: seq<Token> := [];
      if last.Some? && tokens[last.value].text == "{" {
        span, tokens := CaptureSpan(tokens);
      }
      tokens := [t.(text := "{"), t.(text := command)] + span + [t.(text := "}")] + tokens;
    }

    /**
     * The line `execute … run` leaves in `func`: a block of more than one
     * command that does not mention `$block` is emitted and called, any
     * other block is inlined as its first command.
     */
    method ExecuteRunCall(file: string, func: MCFunction, f: MCFunction, execute: string) returns (r: Outcome<CompileError>)
      requires Valid() && f != func
      modifies io, io.loadFunction, io.tickFunction, func`functions
      ensures Valid() && Extends(func) && old(io.fakefs) <= io.fakefs
      ensures var called := |f.functions| > 1 && IndexOf(f.functions[0], "$block") == -1;
              var line := Interpolate(io.interp, old(io.env),
                if called then execute + " function " + f.Reference()
                else execute + " " + (if f.functions == [] then "undefined" else f.functions[0]));
              && (line.Ok? ==> r.Pass? && func.functions == old(func.functions) + [line.value])
              && (line.Err? ==> r == Fail(line.error))
              && (called ==> f.path in io.fakefs)
    {
      if |f.functions| > 1 && IndexOf(f.functions[0], "$block") == -1 {
        f.Confirm(io, file);
        r := func.AddCommand(io, execute + " function " + f.Reference());
      } else {
        r := func.AddCommand(io, execute + " " + (if f.functions == [] then "undefined" else f.functions[0]));
      }
    }

    /**
     * `until(cond, time) { … }`: a numbered `__generated__/until` function
     * that runs the block when the condition holds and otherwise schedules
     * itself again after `time`; `func` calls it once.
     */
    method Until(file: string, func: MCFunction, parent: MCFunction?) returns (r: Outcome<CompileError>)
      requires Own(func)
      requires Valid() && tokens != []
      modifies Footprint(), load`functions, tick`functions, func`functions
      ensures Valid() && Progress(r) && Extends(func)
      decreases steps, 7
    {
      var t := tokens[0];
      tokens := tokens[1..];
      var (cond, time) := UntilArgs(t.text);
      r := UntilBlock(file, func, parent, cond, time);
    }

    /**
     * The function `until` compiles to: the block sets `#until_<n>` to 1;
     * the generated function clears it, runs the block when `cond` holds
     * and reschedules itself after `time` while the flag stays 0.
     */
    method UntilBlock(file: string, func: MCFunction, parent: MCFunction?, cond: string, time: string) returns (r: Outcome<CompileError>)
      requires Own(func)
      requires Valid()
      modifies Footprint(), load`functions, tick`functions, func`functions
      ensures Valid() && Progress(r) && Extends(func)
      ensures r.Pass? ==>
        "until" in ids &&
        var path := PathOf(old(stack), GeneratedName("until", ids["until"]));
        path in io.fakefs && CalledLast(func.functions, Interpolate(io.interp, io.env, "function " + (NamespaceOf(old(stack)) + ":" + path)))
      decreases steps, 6
    {
      var sb := host.scoreboard;
      var uid := if "until" in ids then NatToString(ids["until"]) else "undefined";
      ghost var before := func.functions;
      var res, body := SubBlock(file, "until", ["scoreboard players set #until_" + uid + " " + sb + " 1"], [], false, parent, Null);
      assert func.functions == before;
      if res.Fail? {
        return res;
      }
      r := UntilFunction(file, func, uid, cond, time, body);
    }

    /** The generated function of an `until`, emitted and called once from `func`. */
    method UntilFunction(file: string, func: MCFunction, uid: string, cond: string, time: string, body: MCFunction) returns (r: Outcome<CompileError>)
      requires Own(func)
      requires Valid()
      modifies `ids, io, io.loadFunction, io.tickFunction, func`functions
      ensures Valid() && Extends(func) && old(io.fakefs) <= io.fakefs
      ensures r.Pass? ==>
        "until" in ids &&
        var path := PathOf(stack, GeneratedName("until", ids["until"]));
        path in io.fakefs && CalledLast(func.functions, Interpolate(io.interp, io.env, "function " + (NamespaceOf(stack) + ":" + path)))
    {
      var sb := host.scoreboard;
      var uf;
      r, uf := EmitGenerated(file, "until", [
        "scoreboard players set #until_" + uid + " " + sb + " 0",
        "execute " + cond + " run " + body.ToString(),
        "execute if score #until_" + uid + " " + sb + " matches 0 run schedule function $block " + time], func);
    }

    /** A fresh buffer named `__generated__/<reason>/<n>` under the namespace stack, `n` the next count for `reason`. */
    method NewGenerated(reason: string) returns (g: MCFunction)
      modifies `ids
      ensures fresh(g) && g.functions == [] && g.parent == null && g.topOrSelf == null && g.intent.None?
      ensures ids == Bump(old(ids), reason)
      ensures g.namespace == NamespaceOf(stack) && g.path == PathOf(stack, GeneratedName(reason, NextId(old(ids), reason)))
    {
      g := NewBuffer(null, null, None, NamespaceOf(stack), PathOf(stack, GeneratedName(reason, NextId(ids, reason))));
      ids := Bump(ids, reason);
    }

    /**
     * A fresh generated buffer holding `cmds`, emitted under `file`, and its
     * call added to `func`.
     */
    method EmitGenerated(file: string, reason: string, cmds: seq<string>, func: MCFunction)
      returns (r: Outcome<CompileError>, g: MCFunction)
      requires Valid()
      modifies `ids, io, io.loadFunction, io.tickFunction, func`functions
      ensures Valid() && fresh(g) && ids == Bump(old(ids), reason) && Extends(func)
      ensures io.env == old(io.env) && old(io.fakefs) <= io.fakefs
      ensures g.namespace == NamespaceOf(stack) && g.path == PathOf(stack, GeneratedName(reason, NextId(old(ids), reason)))
      ensures var all := InterpolateAll(io.interp, io.env, cmds);
              var call := Interpolate(io.interp, io.env, "function " + (g.namespace + ":" + g.path));
              && (all.Err? ==> r.Fail?)
              && (all.Ok? && call.Err? ==> r.Fail?)
              && (r.Pass? ==> all.Ok? && call.Ok? && g.functions == all.value && g.path in io.fakefs
                              && func.functions == old(func.functions) + [call.value])
    {
      g := NewGenerated(reason);
      r := AddAll(io, g, cmds);
      if r.Fail? {
        return;
      }
      r := CallFrom(file, g, func);
    }

    /** `g` emitted under `file`, and its call added to `func`. */
    method CallFrom(file: string, g: MCFunction, func: MCFunction) returns (r: Outcome<CompileError>)
      requires Valid()
      modifies io, io.loadFunction, io.tickFunction, func`functions
      ensures Valid() && io.env == old(io.env) && old(io.fakefs) <= io.fakefs && g.path in io.fakefs
      ensures var call := Interpolate(io.interp, io.env, "function " + (g.namespace + ":" + g.path));
              && (call.Ok? ==> r.Pass? && func.functions == old(func.functions) + [call.value])
              && (call.Err? ==> r.Fail? && func.functions == old(func.functions))
    {
      ConfirmBuffer(g, file);
      r := func.AddCommand(io, g.ToString());
    }

    /**
     * `while(cond) { … }` and `async while(cond, time) { … }`, with an
     * optional `finally { … }`: a numbered `__generated__/while` function
     * that runs the body while the condition holds, calling (or, async,
     * scheduling) itself again, and runs `finally` once it stops; `func`
     * calls it once.
     */
    method While(file: string, func: MCFunction, parent: MCFunction?, async: bool) returns (r: Outcome<CompileError>)
      requires Own(func)
      requires Valid() && tokens != []
      modifies Footprint(), load`functions, tick`functions, func`functions
      ensures Valid() && Progress(r) && Extends(func)
      decreases steps, 10
    {
      var t := tokens[0];
      tokens := tokens[1..];
      var (cond, time) := if async then AsyncWhileArgs(t.text) else (WhileCondition(t.text), "");
      r := WhileBlock(file, func, parent, async, cond, time);
    }

    /**
     * The function a `while` compiles to, numbered before its body: the
     * body block sets `#WHILE` to 1 and calls (or, async, schedules) the
     * function again; the function clears the flag and runs the body when
     * `cond` holds.
     */
    method WhileBlock(file: string, func: MCFunction, parent: MCFunction?, async: bool, cond: string, time: string) returns (r: Outcome<CompileError>)
      requires Own(func)
      requires Valid()
      modifies Footprint(), load`functions, tick`functions, func`functions
      ensures Valid() && Progress(r) && Extends(func)
      ensures r.Pass? ==>
        var path := PathOf(old(stack), GeneratedName("while", NextId(old(ids), "while")));
        path in io.fakefs && CalledLast(func.functions, Interpolate(io.interp, io.env, "function " + (NamespaceOf(old(stack)) + ":" + path)))
      decreases steps, 9
    {
      var wf := NewGenerated("while");
      ghost var line := "function " + (wf.namespace + ":" + wf.path);
      assert line == "function " + (NamespaceOf(old(stack)) + ":" + PathOf(old(stack), GeneratedName("while", NextId(old(ids), "while"))));
      r := WhileBody(file, func, parent, wf, async, cond, time);
      assert line == "function " + (wf.namespace + ":" + wf.path);
    }

    /** The body block of a `while`, which calls or schedules `wf` again, then the rest of `wf`. */
    method WhileBody(file: string, func: MCFunction, parent: MCFunction?, wf: MCFunction, async: bool, cond: string, time: string)
      returns (r: Outcome<CompileError>)
      requires Own(func) && Own(wf) && wf != func
      requires Valid()
      modifies Footprint(), load`functions, tick`functions, func`functions, wf`functions
      ensures Valid() && Progress(r) && Extends(func)
      ensures r.Pass? ==> wf.path in io.fakefs && CalledLast(func.functions, Interpolate(io.interp, io.env, "function " + (wf.namespace + ":" + wf.path)))
      decreases steps, 8
    {
      var again := if async then "schedule function " + wf.Reference() + " " + time else "function " + wf.Reference();
      ghost var before := func.functions;
      var res, action := SubBlock(file, "while", [], ["scoreboard players set #WHILE " + host.scoreboard + " 1", again], false, parent, Buf(func));
      assert func.functions == before;
      if res.Fail? {
        return res;
      }
      r := WhileTail(file, func, wf, cond, action);
    }

    /**
     * The rest of a `while`: `wf` resets the flag and runs `action` when the
     * condition holds, the `finally` arm follows, then `wf` is emitted and
     * called from `func`.
     */
    method WhileTail(file: string, func: MCFunction, wf: MCFunction, cond: string, action: MCFunction) returns (r: Outcome<CompileError>)
      requires Own(func) && Own(wf) && wf != func
      requires Valid()
      modifies Footprint(), load`functions, tick`functions, func`functions, wf`functions
      ensures Valid() && Progress(r) && Extends(func)
      ensures r.Pass? ==> wf.path in io.fakefs && CalledLast(func.functions, Interpolate(io.interp, io.env, "function " + (wf.namespace + ":" + wf.path)))
      decreases steps, 7
    {
      r := WhileReset(wf, cond, action);
      if r.Fail? {
        return;
      }
      r := WhileFinish(file, func, wf);
    }

    /** The first lines of a `while` function: clear the flag, then run `action` when `cond` holds. */
    method WhileReset(wf: MCFunction, cond: string, action: MCFunction) returns (r: Outcome<CompileError>)
      modifies wf`functions
      ensures Extends(wf)
      ensures var lines := InterpolateAll(io.interp, io.env,
                ["scoreboard players set #WHILE " + host.scoreboard + " 0", "execute " + cond + " run " + action.ToString()]);
              && (lines.Ok? ==> r.Pass? && wf.functions == old(wf.functions) + lines.value)
              && (lines.Err? ==> r.Fail?)
    {
      r := AddAll(io, wf, ["scoreboard players set #WHILE " + host.scoreboard + " 0", "execute " + cond + " run " + action.ToString()]);
    }

    /** The `finally` arm of a `while`, then `wf` emitted and called from `func`. */
    method WhileFinish(file: string, func: MCFunction, wf: MCFunction) returns (r: Outcome<CompileError>)
      requires Own(func) && Own(wf) && wf != func
      requires Valid()
      modifies Footprint(), load`functions, tick`functions, func`functions, wf`functions
      ensures Valid() && Progress(r) && Extends(func)
      ensures r.Pass? ==> wf.path in io.fakefs && CalledLast(func.functions, Interpolate(io.interp, io.env, "function " + (wf.namespace + ":" + wf.path)))
      decreases steps, 6
    {
      ghost var before := func.functions;
      r := Finally(file, func, wf);
      assert func.functions == before;
      if r.Fail? {
        return;
      }
      r := CallFrom(file, wf, func);
    }

    /** The optional `finally { … }` of a `while`: a block run from `wf` once the flag stayed 0. */
    method Finally(file: string, func: MCFunction, wf: MCFunction) returns (r: Outcome<CompileError>)
      requires Own(wf)
      requires Valid()
      modifies Footprint(), load`functions, tick`functions, wf`functions
      ensures Valid() && Progress(r) && Extends(wf)
      decreases steps, 5
    {
      if tokens == [] {
        return Fail(ExpectedMore);
      }
      r := Pass;
      if tokens[0].text == "finally" {
        tokens := tokens[1..];
        var res, fin := SubBlock(file, "while", [], [], false, wf, Buf(func));
        if res.Fail? {
          return res;
        }
        r := wf.AddCommand(io, "execute if score #WHILE " + host.scoreboard + " matches 0 run " + fin.ToString());
      }
    }

    /**
     * `schedule <time> [append|replace] { … }`: an emitted block, scheduled
     * from `func` with the time and mode read from the interpolated header.
     */
    method Schedule(file: string, func: MCFunction, parent: MCFunction?, fp: Functional) returns (r: Outcome<CompileError>)
      requires Own(func)
      requires Valid() && tokens != []
      modifies Footprint(), load`functions, tick`functions, func`functions
      ensures Valid() && Progress(r) && Extends(func)
      ensures r.Pass? ==> Interpolate(io.interp, io.env, old(tokens)[0].text).Ok?
      decreases steps, 5
    {
      var t := tokens[0];
      tokens := tokens[1..];
      var res, inner := SubBlock(file, "schedule", [], [], false, parent, fp);
      if res.Fail? {
        return res;
      }
      var header := Interpolate(io.interp, io.env, t.text);
      if header.Err? {
        return Fail(header.error);
      }
      var parts := SplitWhitespace(header.value);
      var time := if |parts| > 1 then parts[1] else "undefined";
      var kind := if |parts| > 2 then parts[2] else "undefined";
      r := func.AddCommand(io, Trim("schedule " + inner.ToString() + " " + time + " " + kind));
    }

    /**
     * `sequence { … }`: a throw-away block whose commands are grouped by
     * their tick offset (`delay`/`setdelay` lines move it), then lowered
     * offset by offset.
     */
    method SequenceStatement(file: string, func: MCFunction) returns (r: Outcome<CompileError>)
      requires Own(func)
      requires Valid() && tokens != []
      modifies Footprint(), load`functions, tick`functions, func`functions
      ensures Valid() && Progress(r) && Extends(func)
      decreases steps, 5
    {
      tokens := tokens[1..];
      var res, contents := SubBlock(file, "sequence", [], [], true, null, Null);
      if res.Fail? {
        return res;
      }
      var keys, groups := Sequence.Group(contents.functions);
      var order := Sequence.EnumerationOrder(keys);
      r := EmitGroups(file, func, order, groups);
    }

    /**
     * The lowering loop of `sequence`: offset-0 commands go to `func`; every
     * other offset gets a fresh numbered `__generated__/sequence` buffer
     * holding its commands, emitted and scheduled from `func` that many ticks on.
     */
    method EmitGroups(file: string, func: MCFunction, order: seq<Number>, groups: map<Number, seq<string>>) returns (r: Outcome<CompileError>)
      requires Own(func)
      requires Valid()
      modifies `ids, io, io.loadFunction, io.tickFunction, func`functions
      ensures Valid() && Progress(r) && Extends(func)
      ensures tokens == old(tokens) && steps == old(steps) && io.env == old(io.env)
      ensures r.Pass? ==>
        var n := NextId(old(ids), "sequence");
        var lowered := InterpolateAll(io.interp, io.env, Lowered(order, |order|, groups, stack, n));
        && lowered.Ok? && func.functions == old(func.functions) + lowered.value
        && NextId(ids, "sequence") == n + Scheduled(order, |order|)
    {
      var n := NextId(ids, "sequence");
      var i := 0;
      r := Pass;
      ghost var emitted: seq<string> := [];
      ghost var sched: nat := 0;
      while i < |order|
        invariant io.Valid() && old(io.fakefs) <= io.fakefs && io.env == old(io.env) && old(func.functions) <= func.functions
        invariant LoweredSoFar(func, order, i, groups, n, sched, emitted, old(func.functions))
      {
        ghost var step;
        r, step := EmitGroup(func, order, i, groups, n, sched, emitted, old(func.functions));
        if r.Fail? {
          return;
        }
        emitted := emitted + step;
        sched := sched + (if order[i] == Num(0) then 0 else 1);
        i := i + 1;
      }
    }

    /**
     * The lowering loop after `i` offsets: `sched` of them scheduled from
     * buffer number `n` on and emitted, and the buffer grown from `funcs0` by
     * the interpolated lowering `emitted`.
     */
    ghost predicate LoweredSoFar(func: MCFunction, order: seq<Number>, i: nat, groups: map<Number, seq<string>>, n: nat,
                                 sched: nat, emitted: seq<string>, funcs0: seq<string>)
      reads this, io, func
    {
      && i <= |order| && sched == Scheduled(order, i) && NextId(ids, "sequence") == n + sched
      && InterpolateAll(io.interp, io.env, Lowered(order, i, groups, stack, n)) == Ok(emitted)
      && func.functions == funcs0 + emitted
    }

    /** One turn of the lowering loop: offset `order[i]` lowered, the lowering so far extended by `step`. */
    method EmitGroup(func: MCFunction, order: seq<Number>, i: nat, groups: map<Number, seq<string>>, n: nat,
                     ghost sched: nat, ghost emitted: seq<string>, ghost funcs0: seq<string>)
      returns (r: Outcome<CompileError>, ghost step: seq<string>)
      requires Own(func) && Valid() && i < |order|
      requires LoweredSoFar(func, order, i, groups, n, sched, emitted, funcs0)
      modifies `ids, io, io.loadFunction, io.tickFunction, func`functions
      ensures Valid() && Extends(func) && io.env == old(io.env) && old(io.fakefs) <= io.fakefs
      ensures r.Pass? ==> LoweredSoFar(func, order, i + 1, groups, n, sched + (if order[i] == Num(0) then 0 else 1), emitted + step, funcs0)
    {
      ghost var env, stack0, k := io.env, stack, NextId(ids, "sequence");
      assert k == n + sched && sched == Scheduled(order, i);
      assert InterpolateAll(io.interp, env, Lowered(order, i, groups, stack0, n)) == Ok(emitted);
      ghost var lowered := LoweredStep(order[i], GroupAt(groups, order[i]), stack0, k);
      r := LowerOffset(func, order[i], GroupAt(groups, order[i]));
      step := [];
      if r.Fail? {
        return;
      }
      assert InterpolateAll(io.interp, env, lowered).Ok?;
      step := InterpolateAll(io.interp, env, lowered).value;
      LoweredInterpolated(io.interp, env, order, i, groups, stack0, n, k, emitted, step);
      ConcatAssoc(funcs0, emitted, step);
    }

    /** One offset of a sequence, as `LoweredStep` describes it. */
    method LowerOffset(func: MCFunction, t: Number, cmds: seq<string>) returns (r: Outcome<CompileError>)
      requires Own(func) && Valid()
      modifies `ids, io, io.loadFunction, io.tickFunction, func`functions
      ensures Valid() && Extends(func) && io.env == old(io.env) && old(io.fakefs) <= io.fakefs
      ensures NextId(ids, "sequence") == NextId(old(ids), "sequence") + (if t == Num(0) then 0 else 1)
      ensures r.Pass? ==>
        var k := NextId(old(ids), "sequence");
        var step := InterpolateAll(io.interp, io.env, LoweredStep(t, cmds, stack, k));
        && step.Ok? && func.functions == old(func.functions) + step.value
        && (t != Num(0) ==> PathOf(stack, GeneratedName("sequence", k)) in io.fakefs)
    {
      if t == Num(0) {
        r := AddAll(io, func, cmds);
      } else {
        r := ScheduleGroup(func, t, cmds);
        if r.Pass? {
          var line := ScheduleLine(NamespaceOf(stack) + ":" + PathOf(stack, GeneratedName("sequence", NextId(old(ids), "sequence"))), t);
          InterpolateOne(io.interp, io.env, line);
        }
      }
    }

    /**
     * One later offset of a sequence: its commands in a fresh generated
     * buffer, a `schedule` of that buffer added to `func`, the buffer emitted.
     */
    method ScheduleGroup(func: MCFunction, t: Number, cmds: seq<string>) returns (r: Outcome<CompileError>)
      requires Own(func) && Valid()
      modifies `ids, io, io.loadFunction, io.tickFunction, func`functions
      ensures Valid() && Extends(func) && io.env == old(io.env) && old(io.fakefs) <= io.fakefs
      ensures ids == Bump(old(ids), "sequence")
      ensures r.Pass? ==>
        var path := PathOf(stack, GeneratedName("sequence", NextId(old(ids), "sequence")));
        var line := Interpolate(io.interp, io.env, ScheduleLine(NamespaceOf(stack) + ":" + path, t));
        && line.Ok? && func.functions == old(func.functions) + [line.value] && path in io.fakefs
    {
      var sub := NewGenerated("sequence");
      r := AddAll(io, sub, cmds);
      if r.Fail? {
        return;
      }
      r := func.AddCommand(io, ScheduleLine(sub.Reference(), t));
      if r.Fail? {
        return;
      }
      ConfirmBuffer(sub, "undefined");
    }

    /** `( … )`: the tokens up to `)` joined by spaces, as one command. */
    method Raw(func: MCFunction) returns (r: Outcome<CompileError>)
      requires Own(func)
      requires tokens != []
      modifies this, func`functions
      ensures Progress(r) && Extends(func)
      ensures var rest := old(tokens)[1..];
              && (CloseParen(rest).None? ==> r == Fail(ExpectedMore))
              && (CloseParen(rest).Some? ==>
                   var k := CloseParen(rest).value;
                   var line := Interpolate(io.interp, io.env, Trim(Spaced(rest[..k])));
                   line.Ok? ==> r == Pass && tokens == rest[k + 1..] && func.functions == old(func.functions) + [line.value])
    {
      tokens := tokens[1..];
      var c := CollectRaw(tokens);
      if c.None? {
        return Fail(ExpectedMore);
      }
      var (items, k) := c.value;
      tokens := tokens[k + 1..];
      r := func.AddCommand(io, Trim(items));
    }

    // ------------------------------------------------------- macros

    /**
     * The default body handler: a call of a macro in scope (when the token
     * carries no arguments of its own); an `execute … run <macro call>`
     * taken apart so that the call is compiled as a block; anything else
     * is a command for `func`.
     */
    method Default(file: string, func: MCFunction, parent: MCFunction?, fp: Functional) returns (r: Outcome<CompileError>)
      requires Own(func)
      requires Valid() && tokens != []
      modifies Footprint(), load`functions, tick`functions, func`functions
      ensures Valid() && Progress(r) && Extends(func)
      ensures var t := old(tokens)[0];
              var name := Split(t.text, ' ')[0];
              var called := name in old(ScopeOf(store, macros, t.file, name)) && t.args.NoArgs?;
              var line := Interpolate(io.interp, io.env, t.text);
              !called && !Rewritten(t, old(ScopeOf(store, macros, t.file, name))) ==>
                && tokens == old(tokens)[1..]
                && (line.Ok? ==> r == Pass && func.functions == old(func.functions) + [line.value])
                && (line.Err? ==> r == Fail(line.error) && func.functions == old(func.functions))
      ensures var t := old(tokens)[0];
              var name := Split(t.text, ' ')[0];
              var called := name in old(ScopeOf(store, macros, t.file, name)) && t.args.NoArgs?;
              !called && Rewritten(t, old(ScopeOf(store, macros, t.file, name))) ==>
                r == Pass && tokens == RunAsBlock(t) + old(tokens)[1..] && func.functions == old(func.functions)
      decreases steps, 6
    {
      var t := tokens[0];
      tokens := tokens[1..];
      var name := Split(t.text, ' ')[0];
      var scope := ScopeOf(store, macros, t.file, name);
      if name in scope && t.args.NoArgs? {
        var parts := Split(t.text, ' ');
        r := HandleMacro(file, t, name, parts[1..]);
      } else if Rewritten(t, scope) {
        tokens := RunAsBlock(t) + tokens;
        r := Pass;
      } else {
        r := func.AddCommand(io, t.text);
      }
    }

    /**
     * `handlemacro`: every `{ … }` that follows the call becomes an emitted
     * block whose reference is one more argument, followed by the tokens on
     * the line of its closing brace; then the macro is expanded.
     */
    method HandleMacro(file: string, t: Token, name: string, args0: seq<string>) returns (r: Outcome<CompileError>)
      requires Valid()
      modifies Footprint(), load`functions, tick`functions
      ensures Valid() && Progress(r)
      ensures old(tokens) == [] ==> r == Fail(ExpectedMore)
      decreases steps, 5
    {
      var args := args0;
      ghost var first := true;
      while true
        invariant Valid() && Progress(Pass)
        invariant first ==> tokens == old(tokens)
        invariant !first ==> old(tokens) != []
        decreases steps
      {
        if tokens == [] {
          return Fail(ExpectedMore);
        }
        first := false;
        if tokens[0].text != "{" {
          break;
        }
        var m := FindMatch(tokens);
        if m.None? {
          return Fail(ExpectedMore);
        }
        var last := tokens[m.value].line;
        var res, call := SubBlock(file, "inline_macro_argument", [], [], true, null, Undef);
        if res.Fail? {
          return res;
        }
        call.Confirm(io, file);
        args := args + [call.Reference()];
        ghost var s := steps;
        while true
          invariant Valid() && Progress(Pass) && steps == s
          decreases |tokens|
        {
          if tokens == [] {
            return Fail(ExpectedMore);
          }
          if tokens[0].text == "{" || tokens[0].line != last {
            break;
          }
          args := args + [tokens[0].text];
          tokens := tokens[1..];
        }
      }
      r := Expand(file, t, name, args);
    }

    /**
     * The expansion in `handlemacro`. A token from a `.mc` file expands a
     * global macro: the arguments parsed, `$$j` replaced from the highest `j`
     * down, the library files the macro depends on included. A token from
     * a macro file expands a macro of that file (imported ones first) with
     * the raw arguments, from `$$0` up. The expansion goes back on the deque.
     */
    method Expand(file: string, t: Token, name: string, args: seq<string>) returns (r: Outcome<CompileError>)
      requires Valid()
      modifies this, lib, io.loadFunction, io.tickFunction
      ensures Valid() && Progress(r) && macros == old(macros)
      ensures t.file.None? ==>
        var parsed := Macros.ParseArgs(args);
        && (parsed.Err? ==> r == Fail(parsed.error))
        && (parsed.Ok? && name !in macros ==> r == Fail(MacroNotFound(name, t.line)))
        && (parsed.Ok? && name in macros && macros[name] != [] ==>
             r == Pass && tokens == Macros.ExpandGlobal(macros[name], parsed.value) + old(tokens))
        && (parsed.Ok? && name in macros && macros[name] != [] && macros[name][0].deps.Some? ==>
             forall d :: d in macros[name][0].deps.value ==> d in lib.included)
      ensures t.file.Some? && t.file.value in store.entries ==>
        var scope := ScopeOf(store, macros, t.file, name);
        && (name !in scope ==> r == Fail(LocalMacroNotFound(t.line)))
        && (name in scope ==> r == Pass && tokens == Macros.ExpandLocal(scope[name], args) + old(tokens))
    {
      if t.file.None? {
        var parsed := Macros.ParseMacroArgs(args);
        if parsed.Err? {
          return Fail(parsed.error);
        }
        if name !in macros {
          return Fail(MacroNotFound(name, t.line));
        }
        var body := macros[name];
        if body == [] {
          return Fail(Crash("macro body is empty"));
        }
        var expanded := Macros.ExpandGlobal(body, parsed.value);
        if body[0].deps.Some? {
          lib.Include(body[0].deps.value, file, io);
        }
        tokens := expanded + tokens;
      } else {
        if t.file.value !in store.entries {
          return Fail(Crash("macro file is not cached"));
        }
        var scope := ScopeOf(store, macros, t.file, name);
        if name !in scope {
          return Fail(LocalMacroNotFound(t.line));
        }
        tokens := Macros.ExpandLocal(scope[name], args) + tokens;
      }
      r := Pass;
    }
  }

  /**
   * What `MC_LANG_HANDLER` does before it compiles an existing `file`: the
   * file's lists in the load and tick aggregations and in the `load`/`tick`
   * tags are dropped, a new epoch begins with the environment `{config}`, in
   * which every path may be emitted again, and a compiler with no macros,
   * fresh counters and new `load`/`tick` buffers is set up. `stack` is the
   * namespace stack worked out from the file's path.
   */
  method BeginFile(io: Io, loadTag: MultiFileTag, tickTag: MultiFileTag, store: MacroStore, host: Host,
                   file: string, stack: seq<string>, steps: nat) returns (c: Compiler)
    requires io.Valid() && store.Valid() && loadTag.Valid() && tickTag.Valid() && loadTag != tickTag
    modifies io, io.loadFunction, io.tickFunction, loadTag, tickTag
    ensures io.Valid() && io.fakefs == {} && io.env == map["config" := VObject] && io.out == old(io.out)
    ensures io.loadFunction.segments == old(io.loadFunction.segments) - {file}
    ensures io.loadFunction.keys == Without(old(io.loadFunction.keys), file)
    ensures io.tickFunction.segments == old(io.tickFunction.segments) - {file}
    ensures io.tickFunction.keys == Without(old(io.tickFunction.keys), file)
    ensures loadTag.Valid() && loadTag.segments == old(loadTag.segments) - {file} && file !in loadTag.keys
    ensures loadTag.contents == Some(TagJson(false, loadTag.Values()))
    ensures tickTag.Valid() && tickTag.segments == old(tickTag.segments) - {file} && file !in tickTag.keys
    ensures tickTag.contents == Some(TagJson(false, tickTag.Values()))
    ensures c.Valid() && c.io == io && c.store == store && c.host == host && c.stack == stack && c.steps == steps
    ensures c.tokens == [] && c.ids == map[] && c.macros == map[]
    ensures c.load.functions == [] && c.load.path == PathOf(stack, "__generated__/load")
    ensures c.tick.functions == [] && c.tick.path == PathOf(stack, "__generated__/tick")
  {
    io.loadFunction.Reset(file);
    io.tickFunction.Reset(file);
    loadTag.Reset(file);
    tickTag.Reset(file);
    io.SetEnv(map["config" := VObject]);
    c := new Compiler(io, store, host, stack, steps);
  }
}
