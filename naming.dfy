/**
 * How the compiler names what it emits (entry.js): a command buffer lives at
 * namespace `stack[0]` and path `stack[1..] + [name]` joined with `/`; a
 * block without an explicit `name` is called `__generated__/<reason>/<n>`,
 * where `n` counts the blocks of that reason in the current file from 0; a
 * `function` name may only use `a-z`, `0-9`, `_` and `.`. The memo behind
 * `getNameFromHash` is here too.
 */
module Naming {
  import opened Wrappers
  import opened Text

  // ------------------------------------------------------------ paths

  /** The namespace of a new buffer: the bottom of the stack (the text "undefined" when it is empty). */
  function NamespaceOf(stack: seq<string>): (ns: string)
    ensures stack != [] ==> ns == stack[0]
  {
    if stack == [] then "undefined" else stack[0]
  }

  /** `namespaceStack.slice(1).concat(name).join("/")`. */
  function PathOf(stack: seq<string>, name: string): (path: string)
  {
    Join((if stack == [] then [] else stack[1..]) + [name], "/")
  }

  /**
   * Naming a buffer inside `dir seg { … }` is the same as naming
   * `seg/name` outside it.
   */
  lemma PathOfNested(stack: seq<string>, seg: string, name: string)
    requires stack != []
    ensures PathOf(stack + [seg], name) == PathOf(stack, seg + "/" + name)
    ensures NamespaceOf(stack + [seg]) == NamespaceOf(stack)
  {
    var mid := stack[1..];
    assert (stack + [seg])[1..] == mid + [seg];
    JoinSnoc(mid + [seg], name, "/");
    if mid == [] {
      assert Join(mid + [seg], "/") == seg;
      assert Join(mid + [seg + "/" + name], "/") == seg + "/" + name;
    } else {
      JoinSnoc(mid, seg, "/");
      JoinSnoc(mid, seg + "/" + name, "/");
    }
  }

  /** A path ends with the name it was made for. */
  lemma {:induction false} PathOfEndsWithName(stack: seq<string>, name: string)
    ensures EndsWith(PathOf(stack, name), name)
  {
    var front := if stack == [] then [] else stack[1..];
    if front == [] {
      assert front + [name] == [name];
    } else {
      JoinSnoc(front, name, "/");
      var p := Join(front, "/") + "/" + name;
      assert p[|p| - |name|..] == name;
    }
  }

  // --------------------------------------------------- generated names

  const GeneratedRoot := "__generated__/"

  /** `"__generated__/" + reason + "/" + n`. */
  function GeneratedName(reason: string, n: nat): (name: string)
  {
    GeneratedRoot + reason + "/" + NatToString(n)
  }

  /**
   * Two generated names are equal only for the same reason and the same
   * number (reasons are words without `/`).
   */
  lemma GeneratedNameInjective(r1: string, n1: nat, r2: string, n2: nat)
    requires '/' !in r1 && '/' !in r2
    requires GeneratedName(r1, n1) == GeneratedName(r2, n2)
    ensures r1 == r2 && n1 == n2
  {
    var k := |GeneratedRoot|;
    var d1, d2 := NatToString(n1), NatToString(n2);
    var t1, t2 := GeneratedName(r1, n1)[k..], GeneratedName(r2, n2)[k..];
    assert t1 == r1 + "/" + d1;
    assert t2 == r2 + "/" + d2;
    FirstSlash(r1, d1);
    FirstSlash(r2, d2);
    assert r1 == t1[..|r1|] == t2[..|r2|] == r2;
    assert d1 == t1[|r1| + 1..] == t2[|r2| + 1..] == d2;
    NatToStringInjective(n1, n2);
  }

  /** In `r + "/" + rest` with no `/` in `r`, the first `/` sits right after `r`. */
  lemma FirstSlash(r: string, rest: string)
    requires '/' !in r
    ensures IndexOf(r + "/" + rest, "/") == |r|
  {
    var s := r + "/" + rest;
    assert OccursAt(s, "/", |r|);
    forall i | 0 <= i < |r|
      ensures !OccursAt(s, "/", i)
    {
      assert s[i..i + 1] == [r[i]];
    }
  }

  // ------------------------------------------------------------ counters

  /** The per-reason counters (`id`), reset for every compiled file. */
  type Counters = map<string, nat>

  /** The number the next block of `reason` gets: one more than the last, or 0. */
  function NextId(ids: Counters, reason: string): (n: nat)
    ensures reason !in ids ==> n == 0
    ensures reason in ids ==> n == ids[reason] + 1
  {
    if reason in ids then ids[reason] + 1 else 0
  }

  /** `id[reason] = (id[reason] == undefined ? -1 : id[reason]) + 1`. */
  function Bump(ids: Counters, reason: string): (r: Counters)
    ensures r.Keys == ids.Keys + {reason}
    ensures r[reason] == NextId(ids, reason)
    ensures forall other :: other in ids && other != reason ==> r[other] == ids[other]
  {
    ids[reason := NextId(ids, reason)]
  }

  /** How many of `rs` equal `r`. */
  function CountOf(rs: seq<string>, r: string): nat {
    if rs == [] then 0 else CountOf(rs[..|rs| - 1], r) + (if rs[|rs| - 1] == r then 1 else 0)
  }

  /** The counters after one block per entry of `rs`, from a fresh file. */
  function CountersAfter(rs: seq<string>): Counters {
    if rs == [] then map[] else Bump(CountersAfter(rs[..|rs| - 1]), rs[|rs| - 1])
  }

  /**
   * Numbering starts at 0 and goes up by one per block of a reason: after
   * the blocks `rs`, the next block of `r` is numbered by how many blocks of
   * `r` came before it.
   */
  lemma {:induction false} NextIdCounts(rs: seq<string>, r: string)
    ensures NextId(CountersAfter(rs), r) == CountOf(rs, r)
  {
    if rs != [] {
      NextIdCounts(rs[..|rs| - 1], r);
    }
  }

  // ------------------------------------------------------- function names

  predicate NameChar(c: char) {
    ('a' <= c <= 'z') || ('0' <= c <= '9') || c == '_' || c == '.'
  }

  /** The name check of `function`: no character outside `[a-z0-9_.]`. */
  function BadNameChar(name: string): (r: Option<nat>)
    ensures r.Some? ==> r.value < |name| && !NameChar(name[r.value])
    ensures r.None? ==> forall i :: 0 <= i < |name| ==> NameChar(name[i])
  {
    if name == [] then None
    else if !NameChar(name[0]) then Some(0)
    else match BadNameChar(name[1..])
      case None => None
      case Some(k) => Some(k + 1)
  }

  /** An accepted function name holds no `/`, so it adds exactly one path segment. */
  lemma AcceptedNameHasNoSlash(name: string)
    requires BadNameChar(name).None?
    ensures '/' !in name
  {
    forall i | 0 <= i < |name|
      ensures name[i] != '/'
    {
      assert NameChar(name[i]);
    }
  }

  // ------------------------------------------------------- getNameFromHash

  /**
   * The `hashes` memo: the first request for a hash names it after the
   * prefix and the number of hashes named so far; later requests get the
   * same name back.
   */
  class HashNames {
    var keys: seq<string>
    var names: map<string, string>
    ghost var prefixes: seq<string>

    ghost predicate Valid()
      reads this
    {
      && |keys| == |prefixes|
      && (forall k :: k in names <==> k in keys)
      && (forall i, j :: 0 <= i < j < |keys| ==> keys[i] != keys[j])
      && (forall i :: 0 <= i < |keys| ==> keys[i] in names && names[keys[i]] == prefixes[i] + NatToString(i))
    }

    constructor()
      ensures Valid() && names == map[] && keys == []
    {
      keys, names, prefixes := [], map[], [];
    }

    method Get(hash: string, prefix: string) returns (name: string)
      requires Valid()
      modifies this
      ensures Valid()
      ensures hash in old(names) ==> name == old(names)[hash] && names == old(names) && keys == old(keys)
      ensures hash !in old(names) ==>
        (name == prefix + NatToString(|old(keys)|) && names == old(names)[hash := name] && keys == old(keys) + [hash])
    {
      if hash in names {
        name := names[hash];
      } else {
        name := prefix + NatToString(|keys|);
        names := names[hash := name];
        keys := keys + [hash];
        prefixes := prefixes + [prefix];
      }
    }
  }

  /** Two hashes named after the same prefix get different names. */
  lemma HashNamesDistinct(h: HashNames, i: nat, j: nat)
    requires h.Valid() && i < j < |h.keys| && h.prefixes[i] == h.prefixes[j]
    ensures h.names[h.keys[i]] != h.names[h.keys[j]]
  {
    var p := h.prefixes[i];
    if h.names[h.keys[i]] == h.names[h.keys[j]] {
      assert (p + NatToString(i))[|p|..] == NatToString(i);
      assert (p + NatToString(j))[|p|..] == NatToString(j);
      NatToStringInjective(i, j);
    }
  }
}
