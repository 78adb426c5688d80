/**
 * Macro calls (entry.js `handlemacro`): the argument segments of a call to
 * a global macro are grouped into `<type:content>` arguments, empty ones are
 * dropped, and every `$$j` placeholder of the macro body is replaced by the
 * content of argument `j`, from the highest index down. A macro defined in a
 * macro file and called from one takes its raw argument strings, substituted
 * from index 0 up.
 */
module Macros {
  import opened Wrappers
  import opened Text
  import opened Tokenizer
  import opened Errors

  // ------------------------------------------------------ argument parsing

  /**
   * An argument as it is listed: a plain word, or a reference to one of the
   * `<…>` blocks, whose content can still change after it was listed (the
   * source pushes the same object again when a later segment closes it).
   */
  datatype Entry = Plain(arg: Arg) | Ref(index: nat)

  /**
   * The state of the segment loop: every block opened so far, the one a
   * closing segment would extend (-1 before the first), whether a block is
   * open, and the arguments listed so far.
   */
  datatype ArgState = ArgState(blocks: seq<Arg>, current: int, inblock: bool, entries: seq<Entry>)

  predicate WellFormed(st: ArgState) {
    && -1 <= st.current < |st.blocks|
    && (st.inblock ==> st.current >= 0)
    && forall e :: e in st.entries && e.Ref? ==> e.index < |st.blocks|
  }

  const Start := ArgState([], -1, false, [])

  /** What opening a block with `seg` (which starts with `<`) creates. */
  function OpenBlock(seg: string): Arg {
    var colon := IndexOf(seg, ":");
    if colon != -1 then Arg(SubstrFrom(seg, colon + 1), Substr(seg, 1, colon - 1))
    else Arg(SubstrFrom(seg, 1) + " ", "unkown")
  }

  /** One turn of the segment loop. A closing segment before any block reads `undefined.trim`. */
  function Step(st: ArgState, seg: string): (r: Result<ArgState, CompileError>)
    requires WellFormed(st)
    ensures r.Ok? ==> WellFormed(r.value)
    ensures r.Err? <==> !StartsWith(seg, "<") && EndsWith(seg, ">") && st.current < 0
  {
    if StartsWith(seg, "<") then
      Ok(st.(blocks := st.blocks + [OpenBlock(seg)], current := |st.blocks|, inblock := true))
    else if EndsWith(seg, ">") then
      if st.current < 0 then Err(Crash("cannot read property 'trim' of undefined"))
      else
        var b := st.blocks[st.current];
        var closed := b.(content := Trim(b.content + seg[..|seg| - 1]));
        Ok(st.(blocks := st.blocks[st.current := closed], inblock := false, entries := st.entries + [Ref(st.current)]))
    else if st.inblock then
      var b := st.blocks[st.current];
      Ok(st.(blocks := st.blocks[st.current := b.(content := b.content + seg + " ")]))
    else
      Ok(st.(entries := st.entries + [Plain(Arg(seg, "unkown"))]))
  }

  /** The state after the segments `segs`. */
  function Steps(segs: seq<string>): (r: Result<ArgState, CompileError>)
    ensures r.Ok? ==> WellFormed(r.value)
  {
    if segs == [] then Ok(Start)
    else
      match Steps(segs[..|segs| - 1])
      case Err(e) => Err(e)
      case Ok(st) => Step(st, segs[|segs| - 1])
  }

  /** The arguments listed, each block with its final content. */
  function Resolve(st: ArgState): (args: seq<Arg>)
    requires WellFormed(st)
    ensures |args| == |st.entries|
  {
    seq(|st.entries|, i requires 0 <= i < |st.entries| =>
      match st.entries[i]
      case Plain(a) => a
      case Ref(k) => assert st.entries[i] in st.entries; st.blocks[k])
  }

  /** `args.filter((arg) => Boolean(arg.content))`. */
  function NonEmpty(args: seq<Arg>): (r: seq<Arg>)
    ensures forall a :: a in r ==> a in args && a.content != ""
    ensures forall a :: a in args && a.content != "" ==> a in r
    ensures |r| <= |args|
  {
    if args == [] then []
    else (if args[0].content != "" then [args[0]] else []) + NonEmpty(args[1..])
  }

  /** The typed arguments of a call to a global macro. */
  function ParseArgs(segs: seq<string>): (r: Result<seq<Arg>, CompileError>)
    ensures r.Ok? ==> forall a :: a in r.value ==> a.content != ""
  {
    match Steps(segs)
    case Err(e) => Err(e)
    case Ok(st) => Ok(NonEmpty(Resolve(st)))
  }

  /** The segment loop of `handlemacro`, over a shrinking list of segments. */
  method ParseMacroArgs(segments: seq<string>) returns (r: Result<seq<Arg>, CompileError>)
    ensures r == ParseArgs(segments)
  {
    var st := Start;
    var i := 0;
    while i < |segments|
      invariant i <= |segments|
      invariant Steps(segments[..i]) == Ok(st)
    {
      assert segments[..i + 1][..i] == segments[..i];
      var next := Step(st, segments[i]);
      if next.Err? {
        FailureSticks(segments, i + 1);
        return Err(next.error);
      }
      st := next.value;
      i := i + 1;
    }
    assert segments[..i] == segments;
    return Ok(NonEmpty(Resolve(st)));
  }

  /** Once the loop has failed it stays failed. */
  lemma {:induction false} FailureSticks(segs: seq<string>, i: nat)
    requires 0 < i <= |segs| && Steps(segs[..i]).Err?
    ensures Steps(segs) == Steps(segs[..i])
    decreases |segs| - i
  {
    if i < |segs| {
      assert segs[..i + 1][..i] == segs[..i];
      FailureSticks(segs, i + 1);
    } else {
      assert segs[..i] == segs;
    }
  }

  /** Segments with no `<` in front and no `>` at the end pass through as plain arguments, empty ones dropped. */
  lemma {:induction false} PlainSegments(segs: seq<string>)
    requires forall s :: s in segs ==> !StartsWith(s, "<") && !EndsWith(s, ">")
    ensures Steps(segs).Ok?
    ensures Resolve(Steps(segs).value) == seq(|segs|, i requires 0 <= i < |segs| => Arg(segs[i], "unkown"))
    ensures !Steps(segs).value.inblock
  {
    if segs != [] {
      var prefix := segs[..|segs| - 1];
      var last := segs[|segs| - 1];
      assert forall s :: s in prefix ==> s in segs;
      PlainSegments(prefix);
      var st := Steps(prefix).value;
      var st2 := st.(entries := st.entries + [Plain(Arg(last, "unkown"))]);
      assert last in segs;
      assert Steps(segs) == Ok(st2);
      var want := seq(|segs|, i requires 0 <= i < |segs| => Arg(segs[i], "unkown"));
      forall i | 0 <= i < |segs|
        ensures Resolve(st2)[i] == want[i]
      {
        if i < |prefix| {
          assert st2.entries[i] == st.entries[i];
          assert Resolve(st2)[i] == Resolve(st)[i];
        }
      }
    }
  }

  /** `<type:` followed by `content>` makes one argument of that type. */
  lemma TwoSegmentArgument(kind: string, first: string, last: string)
    requires ':' !in kind && !StartsWith(last, "<")
    ensures var segs := ["<" + kind + ":" + first, last + ">"];
            ParseArgs(segs) == if Trim(first + last) == "" then Ok([]) else Ok([Arg(Trim(first + last), kind)])
  {
    var seg := "<" + kind + ":" + first;
    var close := last + ">";
    var segs := [seg, close];
    OpenTyped(kind, first);
    assert segs[..1] == [seg];
    var a := Arg(Trim(first + last), kind);
    CloseTyped(kind, first, last);
    var st2 := ArgState([a], 0, false, [Ref(0)]);
    assert |segs| == 2 && segs[|segs| - 1] == close;
    assert Steps(segs) == Ok(st2);
    assert Resolve(st2) == [a];
    assert NonEmpty([a]) == if a.content == "" then [] else [a] by {
      assert [a][1..] == [];
    }
  }

  /** A first segment `<type:first` opens block 0 with that type and content. */
  lemma OpenTyped(kind: string, first: string)
    requires ':' !in kind
    ensures Steps(["<" + kind + ":" + first]) == Ok(ArgState([Arg(first, kind)], 0, true, []))
  {
    var seg := "<" + kind + ":" + first;
    assert StartsWith(seg, "<");
    ColonAfterKind(kind, first);
    assert OpenBlock(seg) == Arg(first, kind) by {
      assert SubstrFrom(seg, |kind| + 2) == first;
      assert Substr(seg, 1, |kind|) == kind;
    }
    assert [seg][..0] == [];
    assert Steps([]) == Ok(Start);
    assert Start.blocks + [OpenBlock(seg)] == [OpenBlock(seg)];
  }

  /** A segment `last>` closes the open block 0 and lists it. */
  lemma CloseTyped(kind: string, first: string, last: string)
    requires !StartsWith(last, "<")
    ensures Step(ArgState([Arg(first, kind)], 0, true, []), last + ">")
         == Ok(ArgState([Arg(Trim(first + last), kind)], 0, false, [Ref(0)]))
  {
    var close := last + ">";
    assert close[0] != '<' by {
      if last != [] {
        assert close[0] == last[0] && last[..1] == [last[0]];
      }
    }
    assert close[..1] != "<";
    assert EndsWith(close, ">") && close[..|close| - 1] == last;
    var closed := Arg(Trim(first + last), kind);
    assert [Arg(first, kind)][0 := closed] == [closed];
    assert [] + [Ref(0)] == [Ref(0)];
  }

  lemma ColonAfterKind(kind: string, first: string)
    requires ':' !in kind
    ensures IndexOf("<" + kind + ":" + first, ":") == |kind| + 1
  {
    var s := "<" + kind + ":" + first;
    assert OccursAt(s, ":", |kind| + 1);
    forall i | 0 <= i < |kind| + 1
      ensures !OccursAt(s, ":", i)
    {
      assert s[i..i + 1] == [s[i]];
      if i > 0 {
        assert s[i] == kind[i - 1];
      }
    }
  }

  /**
   * A typed argument written as one segment, `<type:content>`, opens a block
   * that nothing closes, so it is never listed.
   */
  lemma OneSegmentArgumentIsLost(kind: string, content: string)
    ensures ParseArgs(["<" + kind + ":" + content + ">"]) == Ok([])
  {
    var seg := "<" + kind + ":" + content + ">";
    assert StartsWith(seg, "<");
    assert [seg][..0] == [];
    var st := ArgState([OpenBlock(seg)], 0, true, []);
    assert Steps([]) == Ok(Start);
    assert Start.blocks + [OpenBlock(seg)] == [OpenBlock(seg)];
    assert Step(Start, seg) == Ok(st);
    assert Steps([seg]) == Ok(st);
    assert Resolve(st) == [];
  }

  // ---------------------------------------------------------- substitution

  /** The placeholder of argument `j`. */
  function Placeholder(j: nat): (p: string)
    ensures |p| >= 3 && p[..2] == "$$"
  {
    "$$" + NatToString(j)
  }

  /** `for (j = n - 1; j >= 0; j--) text = text.replace(/\$\$j/g, values[j])`. */
  function SubstituteDown(text: string, values: seq<string>, n: nat): string
    requires n <= |values|
    decreases n
  {
    if n == 0 then text
    else SubstituteDown(ReplaceAll(text, Placeholder(n - 1), values[n - 1]), values, n - 1)
  }

  /** `for (j = from; j < values.length; j++) text = text.replace(/\$\$j/g, values[j])`. */
  function SubstituteUp(text: string, values: seq<string>, from: nat): string
    decreases |values| - from
  {
    if from >= |values| then text
    else SubstituteUp(ReplaceAll(text, Placeholder(from), values[from]), values, from + 1)
  }

  predicate DollarFree(values: seq<string>) {
    forall v :: v in values ==> '$' !in v
  }

  /** Text without `$` is left alone by any substitution. */
  lemma {:induction false} SubstituteDownNoDollar(text: string, values: seq<string>, n: nat)
    requires n <= |values| && '$' !in text && DollarFree(values)
    ensures SubstituteDown(text, values, n) == text
  {
    if n > 0 {
      CharRulesOut(text, Placeholder(n - 1), '$');
      ReplaceAbsent(text, Placeholder(n - 1), values[n - 1]);
      SubstituteDownNoDollar(text, values, n - 1);
    }
  }

  /** A higher placeholder never occurs inside a lower one. */
  lemma PlaceholderNotInLower(j: nat, k: nat)
    requires j < k
    ensures !Contains(Placeholder(j), Placeholder(k))
  {
    var pj, pk := Placeholder(j), Placeholder(k);
    NatToStringLengthMonotone(j, k);
    forall i | 0 <= i && i + |pk| <= |pj|
      ensures !OccursAt(pj, pk, i)
    {
      assert i == 0 && |pk| == |pj|;
      if pj[..|pk|] == pk {
        assert pj == pk;
        assert NatToString(j) == pj[2..] == pk[2..] == NatToString(k);
        NatToStringInjective(j, k);
      }
    }
  }

  /** Placeholders above `j` leave `$$j` as it is. */
  lemma {:induction false} HigherPlaceholdersSkip(j: nat, values: seq<string>, n: nat)
    requires j < n <= |values|
    ensures SubstituteDown(Placeholder(j), values, n) == SubstituteDown(Placeholder(j), values, j + 1)
  {
    if n > j + 1 {
      PlaceholderNotInLower(j, n - 1);
      ReplaceAbsent(Placeholder(j), Placeholder(n - 1), values[n - 1]);
      HigherPlaceholdersSkip(j, values, n - 1);
    }
  }

  /**
   * From the highest index down, a token that is exactly `$$j` becomes the
   * content of argument `j` — `$$10` is not mistaken for `$$1` followed by
   * `0` — as long as no content brings in a `$` of its own.
   */
  lemma PlaceholderBecomesArgument(j: nat, values: seq<string>)
    requires j < |values| && DollarFree(values)
    ensures SubstituteDown(Placeholder(j), values, |values|) == values[j]
  {
    HigherPlaceholdersSkip(j, values, |values|);
    ReplaceWhole(Placeholder(j), values[j]);
    SubstituteDownNoDollar(values[j], values, j);
  }

  /** From index 0 up, `$$10` is caught by `$$1` first: it becomes argument 1 followed by `0`. */
  lemma AscendingSplitsTen(values: seq<string>)
    requires |values| >= 11 && DollarFree(values)
    ensures SubstituteUp(Placeholder(10), values, 0) == values[1] + "0"
  {
    var p := Placeholder(10);
    PlaceholderTen();
    ZeroMissesTen();
    ReplaceAbsent(p, Placeholder(0), values[0]);
    PlaceholderOne();
    OneSplitsTen(values[1]);
    assert values[1] in values;
    SubstituteUpNoDollar(values[1] + "0", values, 2);
  }

  lemma PlaceholderTen()
    ensures Placeholder(10) == "$$10"
  {
    assert NatToString(1) == "1";
  }

  lemma PlaceholderOne()
    ensures Placeholder(1) == "$$1"
  {
  }

  lemma ZeroMissesTen()
    ensures !Contains("$$10", Placeholder(0))
  {
    var p := "$$10";
    assert Placeholder(0) == "$$0";
    forall i | 0 <= i
      ensures !OccursAt(p, "$$0", i)
    {
      if i == 0 {
        assert p[i..i + 3][2] == '1';
      } else if i == 1 {
        assert p[i..i + 3][1] == '1';
      }
    }
  }

  lemma OneSplitsTen(v: string)
    ensures ReplaceAll("$$10", "$$1", v) == v + "0"
  {
    var p := "$$10";
    assert p[..3] == "$$1" && p[3..] == "0";
    assert ReplaceAll("0", "$$1", v) == "0";
  }

  lemma {:induction false} SubstituteUpNoDollar(text: string, values: seq<string>, from: nat)
    requires '$' !in text && DollarFree(values)
    ensures SubstituteUp(text, values, from) == text
    decreases |values| - from
  {
    if from < |values| {
      CharRulesOut(text, Placeholder(from), '$');
      ReplaceAbsent(text, Placeholder(from), values[from]);
      SubstituteUpNoDollar(text, values, from + 1);
    }
  }

  // ------------------------------------------------------------ expansion

  function Contents(args: seq<Arg>): (cs: seq<string>)
    ensures |cs| == |args| && forall i :: 0 <= i < |args| ==> cs[i] == args[i].content
  {
    seq(|args|, i requires 0 <= i < |args| => args[i].content)
  }

  /**
   * The expansion of a global macro: every body token copied with the
   * arguments attached and its placeholders substituted, in body order.
   */
  function ExpandGlobal(body: seq<Token>, args: seq<Arg>): (out: seq<Token>)
    ensures |out| == |body|
    ensures forall i :: 0 <= i < |body| ==>
      && out[i].line == body[i].line && out[i].file == body[i].file && out[i].deps == body[i].deps
      && out[i].args == Typed(args)
      && out[i].text == SubstituteDown(body[i].text, Contents(args), |args|)
  {
    seq(|body|, i requires 0 <= i < |body| =>
      CopyToken(body[i], Typed(args)).(text := SubstituteDown(body[i].text, Contents(args), |args|)))
  }

  /**
   * The expansion of a macro from a macro file: new tokens with the body's
   * line and file, the raw argument strings attached, no dependencies.
   */
  function ExpandLocal(body: seq<Token>, raw: seq<string>): (out: seq<Token>)
    ensures |out| == |body|
    ensures forall i :: 0 <= i < |body| ==>
      out[i] == Token(body[i].line, SubstituteUp(body[i].text, raw, 0), body[i].file, Raw(raw), None)
  {
    seq(|body|, i requires 0 <= i < |body| =>
      Token(body[i].line, SubstituteUp(body[i].text, raw, 0), body[i].file, Raw(raw), None))
  }

  /** A body token that is exactly `$$j` expands to argument `j`'s content. */
  lemma ExpandGlobalPlaceholder(body: seq<Token>, args: seq<Arg>, i: nat, j: nat)
    requires i < |body| && j < |args| && body[i].text == Placeholder(j)
    requires forall a :: a in args ==> '$' !in a.content
    ensures ExpandGlobal(body, args)[i].text == args[j].content
  {
    var cs := Contents(args);
    forall v | v in cs
      ensures '$' !in v
    {
      var k :| 0 <= k < |cs| && cs[k] == v;
      assert cs[k] == args[k].content;
      assert args[k] in args;
    }
    PlaceholderBecomesArgument(j, cs);
  }
}
