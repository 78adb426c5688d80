/**
 * The lowering of a `sequence { … }` block (entry.js): the block's commands
 * are read in order while a running tick offset moves — `delay X` adds to
 * it, `setdelay X` sets it, with `X` a number followed by a unit (`s` is 20
 * ticks, `d` 24000, anything else is taken as ticks) — and every other
 * command is filed under the offset in force. The groups are then visited
 * in the order JavaScript enumerates the keys of an object.
 */
module Sequence {
  import opened Wrappers
  import opened Text
  import opened Values

  // ---------------------------------------------------------------- time

  /** `timeToTicks`: the amount before the last character, scaled by the unit in it. */
  function TimeToTicks(time: string): (r: Number)
  {
    var amount := ToNumber(VStr(Substr(time, 0, |time| - 1)));
    if time == [] then amount
    else if time[|time| - 1] == 's' then Scale(amount, 20)
    else if time[|time| - 1] == 'd' then Scale(amount, 24000)
    else amount
  }

  function Scale(x: Number, k: int): Number {
    match x
    case NaN => NaN
    case Num(i) => Num(i * k)
  }

  /** JavaScript addition of two numbers: NaN absorbs. */
  function Plus(x: Number, y: Number): (r: Number)
    ensures r.NaN? <==> x.NaN? || y.NaN?
  {
    if x.NaN? || y.NaN? then NaN else Num(x.i + y.i)
  }

  /** How many ticks one of unit `u` is. */
  function UnitTicks(u: char): nat {
    if u == 's' then 20 else if u == 'd' then 24000 else 1
  }

  /** A plain decimal amount followed by the unit character `u`. */
  lemma TimeToTicksUnit(n: nat, u: char)
    ensures TimeToTicks(NatToString(n) + [u]) == Num(UnitTicks(u) * n)
  {
    var d := NatToString(n);
    ParseNatToString(n);
    assert (d + [u])[|d|] == u;
    AmountOf(d, u);
  }

  lemma AmountOf(d: string, u: char)
    requires |d| >= 1 && AllDigits(d)
    ensures ToNumber(VStr(Substr(d + [u], 0, |d + [u]| - 1))) == Num(ParseNat(d).value)
  {
    assert Substr(d + [u], 0, |d|) == d;
    assert !IsWhitespace(d[0]) && !IsWhitespace(d[|d| - 1]);
    TrimOfTrimmed(d);
  }

  /** A bare number has no unit: its last digit is taken as the unit and the rest as the amount. */
  lemma TimeToTicksSingleDigit(c: char)
    requires IsDigit(c)
    ensures TimeToTicks([c]) == Num(0)
  {
    assert Substr([c], 0, 0) == [];
  }

  // ---------------------------------------------------------- the offsets

  predicate IsDelay(c: string) { StartsWith(c, "delay") }

  predicate IsSetDelay(c: string) { !IsDelay(c) && StartsWith(c, "setdelay") }

  /** The offset after the commands `cmds`, starting at 0. */
  function OffsetAfter(cmds: seq<string>): Number {
    if cmds == [] then Num(0)
    else
      var before := OffsetAfter(cmds[..|cmds| - 1]);
      var c := cmds[|cmds| - 1];
      if IsDelay(c) then Plus(before, TimeToTicks(Trim(SubstrFrom(c, 6))))
      else if IsSetDelay(c) then TimeToTicks(Trim(SubstrFrom(c, 9)))
      else before
  }

  /** Every command that is not a delay, with the offset it runs at. */
  function Entries(cmds: seq<string>): (es: seq<(Number, string)>)
    ensures |es| <= |cmds|
  {
    if cmds == [] then []
    else
      var c := cmds[|cmds| - 1];
      var prefix := cmds[..|cmds| - 1];
      Entries(prefix) + (if IsDelay(c) || IsSetDelay(c) then [] else [(OffsetAfter(prefix), c)])
  }

  /** The commands that run at offset `t`, in order. */
  function GroupOf(es: seq<(Number, string)>, t: Number): seq<string> {
    if es == [] then []
    else GroupOf(es[..|es| - 1], t) + (if es[|es| - 1].0 == t then [es[|es| - 1].1] else [])
  }

  /** The offsets of `es`, each once, in order of first appearance. */
  function KeysOf(es: seq<(Number, string)>): (ks: seq<Number>)
    ensures forall t :: t in ks <==> exists j :: 0 <= j < |es| && es[j].0 == t
  {
    if es == [] then []
    else
      var ks := KeysOf(es[..|es| - 1]);
      var t := es[|es| - 1].0;
      if t in ks then ks
      else
        assert forall j :: 0 <= j < |es| - 1 ==> es[..|es| - 1][j] == es[j];
        ks + [t]
  }

  predicate DistinctTimes(ks: seq<Number>) {
    forall i, j :: 0 <= i < j < |ks| ==> ks[i] != ks[j]
  }

  lemma {:induction false} KeysOfDistinct(es: seq<(Number, string)>)
    ensures DistinctTimes(KeysOf(es))
  {
    if es != [] {
      KeysOfDistinct(es[..|es| - 1]);
    }
  }

  /**
   * The grouping loop of the lowering: the running offset, and for every
   * offset the commands filed under it, together with the order in which the
   * offsets were first used.
   */
  method Group(cmds: seq<string>) returns (keys: seq<Number>, groups: map<Number, seq<string>>)
    ensures keys == KeysOf(Entries(cmds))
    ensures forall t :: t in groups <==> t in keys
    ensures forall t :: t in groups ==> groups[t] == GroupOf(Entries(cmds), t)
  {
    var time := Num(0);
    keys, groups := [], map[];
    var i := 0;
    while i < |cmds|
      invariant i <= |cmds|
      invariant time == OffsetAfter(cmds[..i])
      invariant keys == KeysOf(Entries(cmds[..i]))
      invariant forall t :: t in groups <==> t in keys
      invariant forall t :: t in groups ==> groups[t] == GroupOf(Entries(cmds[..i]), t)
    {
      var upto := cmds[..i + 1];
      assert upto[..|upto| - 1] == cmds[..i];
      time, keys, groups := GroupCommand(upto, time, keys, groups);
      i := i + 1;
    }
    assert cmds[..i] == cmds;
  }

  /** One turn of the grouping loop, on the last command of `cmds`. */
  method GroupCommand(cmds: seq<string>, time: Number, keys: seq<Number>, groups: map<Number, seq<string>>)
    returns (time': Number, keys': seq<Number>, groups': map<Number, seq<string>>)
    requires cmds != []
    requires time == OffsetAfter(cmds[..|cmds| - 1])
    requires keys == KeysOf(Entries(cmds[..|cmds| - 1]))
    requires forall t :: t in groups <==> t in keys
    requires forall t :: t in groups ==> groups[t] == GroupOf(Entries(cmds[..|cmds| - 1]), t)
    ensures time' == OffsetAfter(cmds)
    ensures keys' == KeysOf(Entries(cmds))
    ensures forall t :: t in groups' <==> t in keys'
    ensures forall t :: t in groups' ==> groups'[t] == GroupOf(Entries(cmds), t)
  {
    var command := cmds[|cmds| - 1];
    GroupStep(cmds, groups, keys);
    time', keys', groups' := time, keys, groups;
    if IsDelay(command) {
      var delay := TimeToTicks(Trim(SubstrFrom(command, 6)));
      time' := Plus(time, delay);
    } else if StartsWith(command, "setdelay") {
      var delay := TimeToTicks(Trim(SubstrFrom(command, 9)));
      time' := delay;
    } else {
      var list := if time in groups then groups[time] else [];
      groups' := groups[time := list + [command]];
      if time !in keys {
        keys' := keys + [time];
      }
    }
  }

  /** One more command extends exactly the group of the offset in force. */
  lemma GroupStep(cmds: seq<string>, groups: map<Number, seq<string>>, keys: seq<Number>)
    requires cmds != []
    requires keys == KeysOf(Entries(cmds[..|cmds| - 1]))
    requires forall t :: t in groups ==> groups[t] == GroupOf(Entries(cmds[..|cmds| - 1]), t)
    requires forall t :: t in groups <==> t in keys
    ensures var c := cmds[|cmds| - 1];
            var time := OffsetAfter(cmds[..|cmds| - 1]);
            (IsDelay(c) || IsSetDelay(c)) ==> Entries(cmds) == Entries(cmds[..|cmds| - 1])
    ensures var c := cmds[|cmds| - 1];
            var time := OffsetAfter(cmds[..|cmds| - 1]);
            !(IsDelay(c) || IsSetDelay(c)) ==>
              && KeysOf(Entries(cmds)) == (if time in keys then keys else keys + [time])
              && (forall t :: t != time ==> GroupOf(Entries(cmds), t) == GroupOf(Entries(cmds[..|cmds| - 1]), t))
              && GroupOf(Entries(cmds), time) == (if time in groups then groups[time] else []) + [c]
  {
    var prefix := cmds[..|cmds| - 1];
    var es := Entries(cmds);
    if !(IsDelay(cmds[|cmds| - 1]) || IsSetDelay(cmds[|cmds| - 1])) {
      assert es[..|es| - 1] == Entries(prefix);
      var t := OffsetAfter(prefix);
      if t !in groups {
        GroupOfAbsent(Entries(prefix), t);
      }
    }
  }

  /** An offset that no entry has collects nothing. */
  lemma {:induction false} GroupOfAbsent(es: seq<(Number, string)>, t: Number)
    requires t !in KeysOf(es)
    ensures GroupOf(es, t) == []
  {
    if es != [] {
      assert t !in KeysOf(es[..|es| - 1]);
      GroupOfAbsent(es[..|es| - 1], t);
    }
  }

  /** Every command that is not a delay lands in the group of its offset. */
  lemma {:induction false} EntryInGroup(es: seq<(Number, string)>, j: nat)
    requires j < |es|
    ensures es[j].1 in GroupOf(es, es[j].0)
  {
    if j < |es| - 1 {
      EntryInGroup(es[..|es| - 1], j);
    }
  }

  /** Together the groups hold exactly as many commands as there are entries. */
  lemma {:induction false} GroupSizes(es: seq<(Number, string)>)
    ensures SumSizes(es, KeysOf(es)) == |es|
  {
    if es != [] {
      var prefix := es[..|es| - 1];
      var t := es[|es| - 1].0;
      assert es == prefix + [es[|es| - 1]];
      GroupSizes(prefix);
      KeysOfDistinct(prefix);
      SumSizesStep(prefix, es[|es| - 1], KeysOf(prefix));
      if t !in KeysOf(prefix) {
        GroupOfAbsent(prefix, t);
        SumSizesSnoc(es, KeysOf(prefix), t);
      }
    }
  }

  /** The total size of the groups of the offsets `ks`. */
  function SumSizes(es: seq<(Number, string)>, ks: seq<Number>): nat {
    if ks == [] then 0 else |GroupOf(es, ks[0])| + SumSizes(es, ks[1..])
  }

  lemma {:induction false} SumSizesStep(prefix: seq<(Number, string)>, e: (Number, string), ks: seq<Number>)
    requires DistinctTimes(ks)
    ensures SumSizes(prefix + [e], ks) == SumSizes(prefix, ks) + (if e.0 in ks then 1 else 0)
  {
    var es := prefix + [e];
    assert es[..|es| - 1] == prefix;
    if ks != [] {
      SumSizesStep(prefix, e, ks[1..]);
      if e.0 == ks[0] {
        assert e.0 !in ks[1..];
      }
    }
  }

  lemma {:induction false} SumSizesSnoc(es: seq<(Number, string)>, ks: seq<Number>, t: Number)
    ensures SumSizes(es, ks + [t]) == SumSizes(es, ks) + |GroupOf(es, t)|
  {
    if ks == [] {
      assert [t][1..] == [];
    } else {
      assert (ks + [t])[1..] == ks[1..] + [t];
      SumSizesSnoc(es, ks[1..], t);
    }
  }

  // ------------------------------------------------ object key enumeration

  /** Whether the key an offset becomes is an array index (`0 .. 2^32 - 2`). */
  predicate IsIndexKey(t: Number) {
    t.Num? && 0 <= t.i < 0xFFFF_FFFF
  }

  /** `"NaN"` or the decimal digits of the offset, as the key and as printed. */
  function TimeText(t: Number): string {
    match t
    case NaN => "NaN"
    case Num(i) => if i < 0 then "-" + NatToString(-i) else NatToString(i)
  }

  /** Insert `x` into an ascending list of index keys. */
  function InsertAscending(x: Number, s: seq<Number>): (r: seq<Number>)
    requires IsIndexKey(x) && forall k :: k in s ==> IsIndexKey(k)
    ensures forall k :: k in r <==> k == x || k in s
    ensures |r| == |s| + 1
    ensures Ascending(s) ==> Ascending(r)
  {
    if s == [] || KeyValue(x) <= KeyValue(s[0]) then [x] + s
    else
      var tail := InsertAscending(x, s[1..]);
      assert Ascending(s) ==> forall k :: k in tail ==> KeyValue(s[0]) <= KeyValue(k);
      [s[0]] + tail
  }

  /** The numeric value of an offset (NaN sorts nowhere: it is never an index key). */
  function KeyValue(t: Number): int {
    if t.Num? then t.i else 0
  }

  predicate Ascending(s: seq<Number>) {
    forall i, j :: 0 <= i < j < |s| ==> KeyValue(s[i]) <= KeyValue(s[j])
  }

  /** The index keys of `ks`, ascending. */
  function IndexKeysAscending(ks: seq<Number>): (r: seq<Number>)
    ensures forall k :: k in r ==> IsIndexKey(k)
    ensures forall k :: k in r <==> k in ks && IsIndexKey(k)
    ensures Ascending(r)
  {
    if ks == [] then []
    else
      var rest := IndexKeysAscending(ks[1..]);
      if IsIndexKey(ks[0]) then InsertAscending(ks[0], rest) else rest
  }

  /** The other keys of `ks`, in their order. */
  function OtherKeys(ks: seq<Number>): (r: seq<Number>)
    ensures forall k :: k in r <==> k in ks && !IsIndexKey(k)
  {
    if ks == [] then [] else (if IsIndexKey(ks[0]) then [] else [ks[0]]) + OtherKeys(ks[1..])
  }

  /**
   * `for (time in commands)`: the array-index keys in ascending order, then
   * the others in the order they were added.
   */
  function EnumerationOrder(ks: seq<Number>): (r: seq<Number>)
    ensures forall k :: k in r <==> k in ks
  {
    IndexKeysAscending(ks) + OtherKeys(ks)
  }

  /** On keys that are all small offsets, the groups are visited by increasing offset. */
  lemma SmallOffsetsAscending(ks: seq<Number>)
    requires forall k :: k in ks ==> IsIndexKey(k)
    ensures OtherKeys(ks) == []
    ensures var r := EnumerationOrder(ks);
            forall i, j :: 0 <= i < j < |r| ==> r[i].Num? && r[j].Num? && r[i].i <= r[j].i
  {
    if OtherKeys(ks) != [] {
      assert OtherKeys(ks)[0] in OtherKeys(ks);
    }
    var r := EnumerationOrder(ks);
    assert r == IndexKeysAscending(ks);
    forall i, j | 0 <= i < j < |r|
      ensures r[i].Num? && r[j].Num? && r[i].i <= r[j].i
    {
      assert r[i] in r && r[j] in r;
      assert KeyValue(r[i]) <= KeyValue(r[j]);
    }
  }
}
