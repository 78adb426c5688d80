/**
 * Tokens and the line lexer (entry.js `Token`, `tokenize`, `copy_token`).
 *
 * Lines are trimmed; a line starting with `###` flips a block-comment mode
 * whose lines (both toggle lines included) are dropped; lines starting with
 * `#` and blank lines are dropped; a leading `}` and a trailing `{` become
 * tokens of their own. Every token records the 0-based index of its line.
 */
module Tokenizer {
  import opened Wrappers
  import opened Text

  /** Where a token came from: a line index, or a `file@line` tag once a macro file is read. */
  datatype Line = LineNo(n: nat) | LineTag(tag: string)

  /** A `<type:content>` macro argument; plain arguments have the type "unkown" (sic). */
  datatype Arg = Arg(content: string, kind: string)

  /**
   * The argument list a macro expansion attaches to its tokens: typed
   * arguments (global macros), raw argument strings (file-local macros), or
   * none at all (tokens straight from the lexer).
   */
  datatype MacroArgs = NoArgs | Typed(typed: seq<Arg>) | Raw(raw: seq<string>)

  datatype Token = Token(line: Line, text: string, file: Option<string>, args: MacroArgs, deps: Option<seq<string>>)

  /** A token fresh from the lexer. */
  function Lexed(index: nat, text: string): Token {
    Token(LineNo(index), text, None, NoArgs, None)
  }

  /** `copy_token`: same line, text, file and dependencies, with the given arguments attached. */
  function CopyToken(t: Token, args: MacroArgs): (c: Token)
    ensures c.line == t.line && c.text == t.text && c.file == t.file && c.deps == t.deps
    ensures c.args == args
    ensures args == t.args ==> c == t
  {
    t.(args := args)
  }

  /** The 0-based line index of a lexer token (-1 once the line has become a `file@line` tag). */
  function LineIndex(t: Token): int {
    if t.line.LineNo? then t.line.n else -1
  }

  function Texts(ts: seq<Token>): seq<string> {
    seq(|ts|, i requires 0 <= i < |ts| => ts[i].text)
  }

  // ------------------------------------------------------------ the lexer

  /** Whether a trimmed line flips the block-comment mode. */
  predicate Toggles(n: string) { StartsWith(n, "###") }

  /** The block-comment mode in force when line `i` is reached. */
  function InCommentBefore(lines: seq<string>, i: nat): bool
    requires i <= |lines|
  {
    if i == 0 then false
    else
      var before := InCommentBefore(lines, i - 1);
      if Toggles(Trim(lines[i - 1])) then !before else before
  }

  /** Whether line `i` yields tokens at all. */
  predicate Kept(lines: seq<string>, i: nat)
    requires i < |lines|
  {
    var n := Trim(lines[i]);
    var inML := if Toggles(n) then !InCommentBefore(lines, i) else InCommentBefore(lines, i);
    !inML && n != "" && n[0] != '#'
  }

  /** The tokens of what follows an optional leading `}`: a trailing `{` is split off. */
  function OpenTokens(m: string, index: nat): (r: seq<Token>)
  {
    if m != "" && m[|m| - 1] == '{' then
      var v := Trim(m[..|m| - 1]);
      (if v != "" then [Lexed(index, v)] else []) + [Lexed(index, "{")]
    else if m != "" then [Lexed(index, m)]
    else []
  }

  /** The tokens of one kept, trimmed line. */
  function LineTokens(n: string, index: nat): (r: seq<Token>)
    requires n != ""
  {
    if n[0] == '}' then [Lexed(index, "}")] + OpenTokens(n[1..], index)
    else OpenTokens(n, index)
  }

  /** What line `i` adds to the token list. */
  function LineOutput(lines: seq<string>, i: nat): seq<Token>
    requires i < |lines|
  {
    if Kept(lines, i) then LineTokens(Trim(lines[i]), i) else []
  }

  /** The tokens of the first `i` lines: the specification of the lexer, a left fold over the lines. */
  function TokensUpTo(lines: seq<string>, i: nat): seq<Token>
    requires i <= |lines|
  {
    if i == 0 then [] else TokensUpTo(lines, i - 1) + LineOutput(lines, i - 1)
  }

  function Lines(src: string): seq<string> { Split(src, '\n') }

  /** The per-line step of `tokenize`: split off a leading `}` and a trailing `{`. */
  method LexLine(line: string, index: nat) returns (out: seq<Token>)
    requires line != ""
    ensures out == LineTokens(line, index)
  {
    var n := line;
    var head := [];
    if n[0] == '}' {
      head := [Lexed(index, "}")];
      n := n[1..];
    }
    var tail := [];
    if n != "" && n[|n| - 1] == '{' {
      var v := Trim(n[..|n| - 1]);
      if v != "" {
        tail := [Lexed(index, v)];
      }
      tail := tail + [Lexed(index, "{")];
    } else if n != "" {
      tail := [Lexed(index, n)];
    }
    assert tail == OpenTokens(n, index);
    out := head + tail;
  }

  /** One line of the specification: the comment flag it leaves behind and the tokens it adds. */
  lemma LineStep(lines: seq<string>, i: nat, inML: bool)
    requires i < |lines| && inML == InCommentBefore(lines, i)
    ensures var n := Trim(lines[i]);
            var flag := if Toggles(n) then !inML else inML;
            && InCommentBefore(lines, i + 1) == flag
            && LineOutput(lines, i) == if !flag && n != "" && n[0] != '#' then LineTokens(n, i) else []
  {
  }

  /**
   * `tokenize`: the reduce over the lines with an accumulator and the
   * block-comment flag, proved equal to the specification.
   */
  method Tokenize(src: string) returns (tokens: seq<Token>)
    ensures tokens == TokensUpTo(Lines(src), |Lines(src)|)
  {
    var lines := Lines(src);
    var inML := false;
    tokens := [];
    var index := 0;
    while index < |lines|
      invariant 0 <= index <= |lines|
      invariant inML == InCommentBefore(lines, index)
      invariant tokens == TokensUpTo(lines, index)
    {
      inML, tokens := TokenizeLine(lines, index, inML, tokens);
      index := index + 1;
    }
  }

  /** One turn of the reduce: the flag after line `index` and the accumulator with its tokens added. */
  method TokenizeLine(lines: seq<string>, index: nat, inML: bool, acc: seq<Token>) returns (flag: bool, acc': seq<Token>)
    requires index < |lines| && inML == InCommentBefore(lines, index)
    requires acc == TokensUpTo(lines, index)
    ensures flag == InCommentBefore(lines, index + 1)
    ensures acc' == TokensUpTo(lines, index + 1)
  {
    LineStep(lines, index, inML);
    var n := Trim(lines[index]);
    flag := inML;
    if StartsWith(n, "###") {
      flag := !flag;
    }
    var out := [];
    if !(flag || n == "" || n[0] == '#') {
      out := LexLine(n, index);
    }
    acc' := acc + out;
  }

  // ------------------------------------------------------------ properties

  /** Inside a block comment, a line is dropped whether or not it is the closing `###`. */
  lemma CommentRegionDropped(lines: seq<string>, i: nat)
    requires i < |lines| && InCommentBefore(lines, i)
    ensures LineOutput(lines, i) == []
  {
    var n := Trim(lines[i]);
    if Toggles(n) {
      assert n[0] == "###"[0];
    }
    assert !Kept(lines, i);
  }

  lemma OpenTokensShape(m: string, index: nat)
    ensures forall t :: t in OpenTokens(m, index) ==> t == Lexed(index, t.text) && t.text != ""
  {
    if m != "" && m[|m| - 1] == '{' {
      var v := Trim(m[..|m| - 1]);
      if v != "" {
        assert OpenTokens(m, index) == [Lexed(index, v), Lexed(index, "{")];
      } else {
        assert OpenTokens(m, index) == [Lexed(index, "{")];
      }
    }
  }

  /** Every token of a line is a plain lexer token with that line's index and non-empty text. */
  lemma LineTokensShape(n: string, index: nat)
    requires n != ""
    ensures forall t :: t in LineTokens(n, index) ==> t == Lexed(index, t.text) && t.text != ""
  {
    if n[0] == '}' {
      OpenTokensShape(n[1..], index);
    } else {
      OpenTokensShape(n, index);
    }
  }

  /** Token `t` is a plain lexer token with non-empty text, from a kept line below `bound`. */
  predicate FromKeptLine(lines: seq<string>, bound: nat, t: Token) {
    t.line.LineNo? && t.line.n < bound && t.line.n < |lines| && Kept(lines, t.line.n)
    && t == Lexed(t.line.n, t.text) && t.text != ""
  }

  /** Every token of the first `i` lines comes from a kept line among them, with that line's index. */
  lemma TokensFromKeptLines(lines: seq<string>, i: nat)
    requires i <= |lines|
    ensures forall t :: t in TokensUpTo(lines, i) ==> FromKeptLine(lines, i, t)
  {
    TokensAsFlatten(lines, i);
    forall t | t in TokensUpTo(lines, i)
      ensures FromKeptLine(lines, i, t)
    {
      var j := FlattenMember(Outs(lines, i), t);
      assert t in LineOutput(lines, j);
      LineTokensShape(Trim(lines[j]), j);
    }
  }

  /** Tokens come out in the order of their lines. */
  lemma TokensOrdered(lines: seq<string>, i: nat)
    requires i <= |lines|
    ensures OrderedByLine(TokensUpTo(lines, i))
  {
    TokensAsFlatten(lines, i);
    forall j | 0 <= j < i
      ensures AllAt(Outs(lines, i)[j], j)
    {
      LineOutputIndex(lines, j);
    }
    FlattenOrdered(Outs(lines, i));
  }

  /** The outputs of the first `i` lines, one sequence per line. */
  function Outs(lines: seq<string>, i: nat): (outs: seq<seq<Token>>)
    requires i <= |lines|
    ensures |outs| == i
  {
    seq(i, j requires 0 <= j < i => LineOutput(lines, j))
  }

  /** The concatenation of `outs`, first to last. */
  function Flatten(outs: seq<seq<Token>>): seq<Token> {
    if outs == [] then [] else Flatten(outs[..|outs| - 1]) + outs[|outs| - 1]
  }

  /** The specification's left fold is the concatenation of the per-line outputs. */
  lemma {:induction false} TokensAsFlatten(lines: seq<string>, i: nat)
    requires i <= |lines|
    ensures TokensUpTo(lines, i) == Flatten(Outs(lines, i))
  {
    if i > 0 {
      TokensAsFlatten(lines, i - 1);
      assert Outs(lines, i)[..i - 1] == Outs(lines, i - 1);
    }
  }

  /** A token of a concatenation sits in one of its parts. */
  lemma {:induction false} FlattenMember(outs: seq<seq<Token>>, t: Token) returns (j: nat)
    requires t in Flatten(outs)
    ensures j < |outs| && t in outs[j]
  {
    var n := |outs|;
    if t in Flatten(outs[..n - 1]) {
      j := FlattenMember(outs[..n - 1], t);
      assert outs[..n - 1][j] == outs[j];
    } else {
      j := n - 1;
    }
  }

  /** Parts that each carry their own index concatenate in line order, all below their count. */
  lemma {:induction false} FlattenOrdered(outs: seq<seq<Token>>)
    requires forall j :: 0 <= j < |outs| ==> AllAt(outs[j], j)
    ensures OrderedByLine(Flatten(outs)) && AllBelow(Flatten(outs), |outs|)
  {
    var n := |outs|;
    if n > 0 {
      var prefix := outs[..n - 1];
      assert forall j :: 0 <= j < n - 1 ==> prefix[j] == outs[j];
      FlattenOrdered(prefix);
      assert AllAt(outs[n - 1], n - 1);
      OrderedAppend(Flatten(prefix), outs[n - 1], n - 1);
      forall t | t in Flatten(outs)
        ensures LineIndex(t) < n
      {
        if t in Flatten(prefix) {
          assert LineIndex(t) < n - 1;
        } else {
          assert t in outs[n - 1];
        }
      }
    }
  }

  /** Every token of `ts` comes from a line before `k`. */
  predicate AllBelow(ts: seq<Token>, k: int) {
    forall t :: t in ts ==> LineIndex(t) < k
  }

  /** Every token of `ts` comes from line `k`. */
  predicate AllAt(ts: seq<Token>, k: int) {
    forall t :: t in ts ==> LineIndex(t) == k
  }

  /** Every token a line adds carries that line's index. */
  lemma LineOutputIndex(lines: seq<string>, i: nat)
    requires i < |lines|
    ensures AllAt(LineOutput(lines, i), i)
  {
    if Kept(lines, i) {
      LineTokensShape(Trim(lines[i]), i);
    }
  }

  /** Line indices never decrease along `ts`. */
  predicate OrderedByLine(ts: seq<Token>) {
    forall a, b :: 0 <= a < b < |ts| ==> LineIndex(ts[a]) <= LineIndex(ts[b])
  }

  /** Tokens of one line appended after tokens of earlier lines keep the order. */
  lemma OrderedAppend(prev: seq<Token>, out: seq<Token>, k: int)
    requires OrderedByLine(prev)
    requires AllBelow(prev, k) && AllAt(out, k)
    ensures OrderedByLine(prev + out)
  {
    forall a, b | 0 <= a < b < |prev + out|
      ensures LineIndex((prev + out)[a]) <= LineIndex((prev + out)[b])
    {
      if b < |prev| {
        assert (prev + out)[a] == prev[a] && (prev + out)[b] == prev[b];
      } else if a < |prev| {
        assert prev[a] in prev;
        assert out[b - |prev|] in out;
      } else {
        assert out[a - |prev|] in out && out[b - |prev|] in out;
      }
    }
  }

  /**
   * Dropped lines contribute nothing: blank lines, `#` lines and every line of
   * a `###` block comment (toggle lines included) yield no token.
   */
  lemma DroppedLinesYieldNothing(src: string, i: nat)
    requires i < |Lines(src)| && !Kept(Lines(src), i)
    ensures forall t :: t in TokensUpTo(Lines(src), |Lines(src)|) ==> t.line != LineNo(i)
  {
    TokensFromKeptLines(Lines(src), |Lines(src)|);
  }

  /** The characters of a string other than whitespace. */
  function Ink(s: string): string {
    if s == [] then [] else (if IsWhitespace(s[0]) then [] else [s[0]]) + Ink(s[1..])
  }

  lemma {:induction false} InkAppend(a: string, b: string)
    ensures Ink(a + b) == Ink(a) + Ink(b)
  {
    if a != [] {
      var c := if IsWhitespace(a[0]) then [] else [a[0]];
      assert (a + b)[0] == a[0] && (a + b)[1..] == a[1..] + b;
      InkAppend(a[1..], b);
      calc {
        Ink(a + b);
        c + Ink(a[1..] + b);
        c + (Ink(a[1..]) + Ink(b));
        (c + Ink(a[1..])) + Ink(b);
      }
    } else {
      assert a + b == b;
    }
  }

  lemma {:induction false} InkOfWhitespace(s: string)
    requires forall i :: 0 <= i < |s| ==> IsWhitespace(s[i])
    ensures Ink(s) == []
  {
    if s != [] {
      InkOfWhitespace(s[1..]);
    }
  }

  lemma InkTrim(s: string)
    ensures Ink(Trim(s)) == Ink(s)
  {
    var a := LeadingWhitespace(s);
    var r := Trim(s);
    assert s == s[..a] + r + s[a + |r|..];
    InkAppend(s[..a] + r, s[a + |r|..]);
    InkAppend(s[..a], r);
    InkOfWhitespace(s[..a]);
    InkOfWhitespace(s[a + |r|..]);
  }

  function Concat(ss: seq<string>): string {
    if ss == [] then "" else ss[0] + Concat(ss[1..])
  }

  lemma ConcatPair(a: string, b: string)
    ensures Concat([a, b]) == a + b && Concat([b]) == b
  {
    assert [a, b][1..] == [b];
    assert Concat([b]) == b + Concat([]);
  }

  lemma SplitLast(m: string)
    requires m != ""
    ensures m == m[..|m| - 1] + [m[|m| - 1]]
  {
  }

  lemma InkBrace(body: string)
    ensures Ink(Trim(body) + "{") == Ink(body + "{")
  {
    InkAppend(body, "{");
    InkAppend(Trim(body), "{");
    InkTrim(body);
  }

  lemma OpenBraceTexts(m: string, index: nat)
    requires m != "" && m[|m| - 1] == '{'
    ensures Concat(Texts(OpenTokens(m, index))) == Trim(m[..|m| - 1]) + "{"
  {
    var v := Trim(m[..|m| - 1]);
    ConcatPair(v, "{");
    if v != "" {
      assert Texts(OpenTokens(m, index)) == [v, "{"];
    } else {
      assert Texts(OpenTokens(m, index)) == ["{"];
      assert v + "{" == "{";
    }
  }

  /** The whitespace trimmed off before a trailing `{` is the only thing lost. */
  lemma OpenBraceKeepsInk(m: string, index: nat)
    requires m != "" && m[|m| - 1] == '{'
    ensures Ink(Concat(Texts(OpenTokens(m, index)))) == Ink(m)
  {
    OpenBraceTexts(m, index);
    SplitLast(m);
    InkBrace(m[..|m| - 1]);
  }

  lemma OpenTokensKeepInk(m: string, index: nat)
    ensures Ink(Concat(Texts(OpenTokens(m, index)))) == Ink(m)
  {
    if m != "" && m[|m| - 1] == '{' {
      OpenBraceKeepsInk(m, index);
    } else if m != "" {
      assert Texts(OpenTokens(m, index)) == [m];
      ConcatPair(m, m);
    } else {
      assert Texts(OpenTokens(m, index)) == [];
    }
  }

  /**
   * The lexer loses nothing but whitespace: the non-whitespace characters of a
   * kept line are exactly those of its tokens, in order.
   */
  lemma LineTokensKeepInk(n: string, index: nat)
    requires n != ""
    ensures Ink(Concat(Texts(LineTokens(n, index)))) == Ink(n)
  {
    if n[0] == '}' {
      var rest := OpenTokens(n[1..], index);
      OpenTokensKeepInk(n[1..], index);
      assert Texts(LineTokens(n, index)) == ["}"] + Texts(rest);
      assert Concat(["}"] + Texts(rest)) == "}" + Concat(Texts(rest));
      assert n == "}" + n[1..];
      InkAppend("}", Concat(Texts(rest)));
      InkAppend("}", n[1..]);
    } else {
      OpenTokensKeepInk(n, index);
    }
  }
}
