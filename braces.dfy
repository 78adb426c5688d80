/**
 * Brace bookkeeping on the token stream (entry.js): `validate_next_destructive`,
 * the counting loop that skips the body of a false `!IF` / `!` form, the
 * matching-brace search of `handlemacro`, the span an `execute … run … {`
 * rewrite carries along, and the body capture of a `macro` definition.
 * All of them count `{` up and `}` down from an open brace already consumed.
 */
module Braces {
  import opened Wrappers
  import opened Tokenizer
  import opened Errors

  /** The nesting depth after one more token. */
  function Step(d: nat, t: string): nat {
    if t == "{" then d + 1 else if t == "}" && d > 0 then d - 1 else d
  }

  /** The nesting depth after the tokens `ts`, starting at depth `d` (negative means over-closed). */
  function Depth(ts: seq<Token>, d: int): int {
    if ts == [] then d
    else Depth(ts[1..], if ts[0].text == "{" then d + 1 else if ts[0].text == "}" then d - 1 else d)
  }

  lemma DepthSnoc(ts: seq<Token>, t: Token, d: int)
    ensures Depth(ts + [t], d) ==
      var e := Depth(ts, d);
      if t.text == "{" then e + 1 else if t.text == "}" then e - 1 else e
  {
    if ts != [] {
      assert (ts + [t])[1..] == ts[1..] + [t];
    } else {
      assert [t][1..] == [];
    }
  }

  /**
   * How many tokens the counting loop consumes from `ts` when `d` braces are
   * open: it stops right after the token that closes them all, or at the end
   * of the stream.
   */
  function SkipLen(ts: seq<Token>, d: nat): (n: nat)
    ensures n <= |ts|
    ensures d == 0 ==> n == 0
  {
    if d == 0 || ts == [] then 0 else 1 + SkipLen(ts[1..], Step(d, ts[0].text))
  }

  /**
   * The loop stops at the first point where every open brace is closed, and
   * not before: all proper prefixes of the consumed span leave braces open,
   * and the span is balanced unless the stream ran out first.
   */
  lemma {:induction false} SkipLenBalances(ts: seq<Token>, d: nat)
    requires d > 0
    ensures var n := SkipLen(ts, d);
            && (forall j :: 0 <= j < n ==> Depth(ts[..j], d) > 0)
            && (n < |ts| ==> Depth(ts[..n], d) == 0)
            && (Depth(ts[..n], d) == 0 ==> n > 0 && ts[n - 1].text == "}")
            && (Depth(ts[..n], d) == 0 || n == |ts|)
  {
    var n := SkipLen(ts, d);
    if ts == [] {
      assert ts[..0] == [];
    } else {
      var e := Step(d, ts[0].text);
      assert e == Depth([ts[0]], d) by {
        assert [ts[0]][1..] == [];
      }
      forall j | 1 <= j <= |ts|
        ensures Depth(ts[..j], d) == Depth(ts[1..][..j - 1], e)
      {
        assert ts[..j][1..] == ts[1..][..j - 1];
      }
      if e == 0 {
        assert n == 1;
        assert ts[1..][..0] == [];
        assert ts[..0] == [];
      } else {
        SkipLenBalances(ts[1..], e);
        forall j | 0 <= j < n
          ensures Depth(ts[..j], d) > 0
        {
          if j == 0 {
            assert ts[..0] == [];
          }
        }
        var m := SkipLen(ts[1..], e);
        if Depth(ts[..n], d) == 0 {
          assert ts[n - 1] == ts[1..][m - 1];
        }
      }
    }
  }

  /** Once the depth is 0 the skip consumes nothing; a `{` or `}` moves it by one. */
  lemma SkipLenStep(ts: seq<Token>, d: nat)
    requires d > 0 && ts != []
    ensures SkipLen(ts, d) == 1 + SkipLen(ts[1..], Step(d, ts[0].text))
  {
  }

  // --------------------------------------------------- validate_next_destructive

  /**
   * `validate_next_destructive`: remove the next token; complain only when
   * there is one and it is not `wanted`. An empty stream is left as it is.
   */
  function ValidateNext(ts: seq<Token>, wanted: string): (r: Result<seq<Token>, CompileError>)
    ensures r.Ok? <==> (ts == [] || ts[0].text == wanted)
    ensures r.Ok? ==> r.value == ts[if ts == [] then 0 else 1..]
    ensures r.Err? ==> r.error == UnexpectedToken(ts[0].text, wanted, ts[0].line)
  {
    if ts == [] then Ok([])
    else if ts[0].text != wanted then Err(UnexpectedToken(ts[0].text, wanted, ts[0].line))
    else Ok(ts[1..])
  }

  /** Whatever `ValidateNext` returns, the stream has lost at most its first token. */
  lemma ValidateNextRemovesOne(ts: seq<Token>, wanted: string)
    ensures ValidateNext(ts, wanted).Ok? ==> |ValidateNext(ts, wanted).value| == if ts == [] then 0 else |ts| - 1
  {
  }

  // ------------------------------------------------------------ the loops

  /**
   * The false branch of `!IF(…)` and `!…`: with one brace already open, drop
   * tokens up to and including the `}` that closes it (or to the end).
   */
  method SkipBalanced(ts: seq<Token>) returns (rest: seq<Token>)
    ensures rest == ts[SkipLen(ts, 1)..]
  {
    var count: nat := 1;
    rest := ts;
    while count != 0 && |rest| > 0
      invariant |rest| <= |ts| && rest == ts[|ts| - |rest|..]
      invariant SkipLen(ts, 1) == (|ts| - |rest|) + SkipLen(rest, count)
      decreases |rest|
    {
      var item := rest[0].text;
      rest := rest[1..];
      if item == "{" {
        count := count + 1;
      }
      if item == "}" {
        count := count - 1;
      }
    }
  }

  /**
   * The search in `handlemacro` for the `}` that matches the `{` at the front
   * of `ts`. It fails (the source reads past the end) when there is none.
   */
  method FindMatch(ts: seq<Token>) returns (r: Option<nat>)
    requires ts != [] && ts[0].text == "{"
    ensures r.Some? <==> Depth(ts[1..][..SkipLen(ts[1..], 1)], 1) == 0
    ensures r.Some? ==> r.value == SkipLen(ts[1..], 1) && r.value < |ts| && ts[r.value].text == "}"
  {
    var u := ts[1..];
    var level: nat := 1;
    var index := 0;
    while level != 0 && index < |u|
      invariant 0 <= index <= |u|
      invariant SkipLen(u, 1) == index + SkipLen(u[index..], level)
      invariant Depth(u[..index], 1) == level
      decreases |u| - index
    {
      MatchStep(u, index, level);
      if u[index].text == "{" {
        level := level + 1;
      }
      if u[index].text == "}" {
        level := level - 1;
      }
      index := index + 1;
    }
    SkipLenBalances(u, 1);
    if level != 0 {
      assert u[index..] == [];
      return None;
    }
    assert u[index - 1] == ts[index];
    r := Some(index);
  }

  /** One token further into `u` with `level` braces open: how the depth and the remaining skip move. */
  lemma MatchStep(u: seq<Token>, index: nat, level: nat)
    requires index < |u| && level > 0
    ensures Depth(u[..index + 1], 1) ==
      var e := Depth(u[..index], 1);
      if u[index].text == "{" then e + 1 else if u[index].text == "}" then e - 1 else e
    ensures SkipLen(u[index..], level) == 1 + SkipLen(u[index + 1..], Step(level, u[index].text))
  {
    assert u[..index + 1] == u[..index] + [u[index]];
    DepthSnoc(u[..index], u[index], 1);
    assert u[index..][1..] == u[index + 1..];
  }

  /**
   * The span an `execute … run <command> {` rewrite carries along: the first
   * token unconditionally, then the counting loop with one brace open.
   */
  method CaptureSpan(ts: seq<Token>) returns (temp: seq<Token>, rest: seq<Token>)
    requires ts != []
    ensures temp == ts[..1 + SkipLen(ts[1..], 1)]
    ensures rest == ts[1 + SkipLen(ts[1..], 1)..]
  {
    temp := [ts[0]];
    rest := ts[1..];
    var count: nat := 1;
    while |rest| > 0 && count != 0
      invariant 1 <= |temp| <= |ts| && temp == ts[..|temp|] && rest == ts[|temp|..]
      invariant SkipLen(ts[1..], 1) == (|temp| - 1) + SkipLen(rest, count)
      decreases |rest|
    {
      if rest[0].text == "{" {
        count := count + 1;
      }
      if rest[0].text == "}" && count > 0 {
        count := count - 1;
      }
      assert ts[..|temp| + 1] == temp + [rest[0]];
      temp := temp + [rest[0]];
      rest := rest[1..];
    }
  }

  /**
   * The body of a `macro name {` definition in a macro file: the tokens up to
   * the `}` that closes the definition, without it; when the file ends
   * first, everything that is left. `consumed` tokens leave the stream.
   */
  method CaptureMacroBody(ts: seq<Token>) returns (body: seq<Token>, consumed: nat)
    requires ts != []
    ensures consumed == SkipLen(ts, 1) && 0 < consumed <= |ts|
    ensures body == if Depth(ts[..consumed], 1) == 0 then ts[..consumed - 1] else ts[..consumed]
  {
    var level: nat := 1;
    body := [];
    consumed := 0;
    while level != 0 && consumed < |ts|
      invariant consumed <= |ts|
      invariant SkipLen(ts, 1) == consumed + SkipLen(ts[consumed..], level)
      invariant level > 0 ==> body == ts[..consumed] && Depth(ts[..consumed], 1) == level
      invariant level == 0 ==> consumed > 0 && body == ts[..consumed - 1] && Depth(ts[..consumed], 1) == 0
      decreases |ts| - consumed
    {
      var t := ts[consumed];
      assert ts[..consumed + 1] == ts[..consumed] + [t];
      DepthSnoc(ts[..consumed], t, 1);
      if t.text == "{" {
        level := level + 1;
      } else if t.text == "}" {
        level := level - 1;
      }
      if level != 0 {
        body := body + [t];
      }
      consumed := consumed + 1;
    }
    assert ts[consumed..] == [] || level == 0;
  }
}
