/**
 * The handler tables of entry.js (`list`): an ordered sequence of
 * predicate/handler pairs, each with a priority; a lookup takes the first
 * entry whose predicate accepts the input and falls back to a default when
 * none does. Handlers are named by a kind `K`; the compiler runs the handler
 * that belongs to the kind it gets back.
 */
module Dispatch {
  import opened Wrappers

  datatype Action<!T, K> = Action(accepts: T -> bool, kind: K, priority: int)

  /** Priorities never decrease along the table. */
  predicate Sorted<T, K>(table: seq<Action<T, K>>) {
    forall i, j :: 0 <= i < j < |table| ==> table[i].priority <= table[j].priority
  }

  /** `list({actions})`: every action gets its position as its priority. */
  function List<T, K>(entries: seq<(T -> bool, K)>): (table: seq<Action<T, K>>)
    ensures |table| == |entries|
    ensures forall i :: 0 <= i < |table| ==>
      table[i] == Action(entries[i].0, entries[i].1, i)
  {
    seq(|entries|, i requires 0 <= i < |entries| => Action(entries[i].0, entries[i].1, i))
  }

  lemma ListSorted<T, K>(entries: seq<(T -> bool, K)>)
    ensures Sorted(List(entries))
  {
  }

  /** `actions.find(action => action.match(token))`, as a position. */
  function FirstMatch<T, K>(table: seq<Action<T, K>>, x: T): (r: Option<nat>)
    ensures r.Some? ==> r.value < |table| && table[r.value].accepts(x)
    ensures r.Some? ==> forall j :: 0 <= j < r.value ==> !table[j].accepts(x)
    ensures r.None? ==> forall j :: 0 <= j < |table| ==> !table[j].accepts(x)
  {
    if table == [] then None
    else if table[0].accepts(x) then Some(0)
    else match FirstMatch(table[1..], x)
      case None => None
      case Some(k) => Some(k + 1)
  }

  /** The kind of the handler that runs for `x`, or `None` for the default. */
  function Dispatch<T, K>(table: seq<Action<T, K>>, x: T): (r: Option<K>)
    ensures r.Some? <==> exists j :: 0 <= j < |table| && table[j].accepts(x)
    ensures r.Some? ==> exists j :: 0 <= j < |table| && table[j].accepts(x) && table[j].kind == r.value
                          && forall i :: 0 <= i < j ==> !table[i].accepts(x)
  {
    match FirstMatch(table, x)
    case None => None
    case Some(j) => Some(table[j].kind)
  }

  /**
   * `addAction(action, priority)`: the new action joins at the front and the
   * table is sorted again, stably; on a sorted table that puts it after every
   * entry of lower priority and before every entry of equal or higher one.
   */
  function AddAction<T, K>(table: seq<Action<T, K>>, accepts: T -> bool, kind: K, priority: int): (r: seq<Action<T, K>>)
    ensures |r| == |table| + 1
  {
    if table == [] || priority <= table[0].priority then [Action(accepts, kind, priority)] + table
    else [table[0]] + AddAction(table[1..], accepts, kind, priority)
  }

  /** The priority `addAction` uses when none is given: the table's length. */
  function DefaultPriority<T, K>(table: seq<Action<T, K>>): (p: nat)
    ensures p == |table|
  {
    |table|
  }

  /** How many leading entries have a priority below `p`. */
  function InsertPos<T, K>(table: seq<Action<T, K>>, p: int): (k: nat)
    ensures k <= |table|
    ensures forall i :: 0 <= i < k ==> table[i].priority < p
  {
    if table == [] || p <= table[0].priority then 0 else 1 + InsertPos(table[1..], p)
  }

  /** The new action lands at `InsertPos`; nothing else moves. */
  lemma {:induction false} AddActionInserts<T, K>(table: seq<Action<T, K>>, accepts: T -> bool, kind: K, priority: int)
    ensures var k := InsertPos(table, priority);
            AddAction(table, accepts, kind, priority) == table[..k] + [Action(accepts, kind, priority)] + table[k..]
  {
    if table != [] && table[0].priority < priority {
      AddActionInserts(table[1..], accepts, kind, priority);
      var k := InsertPos(table[1..], priority);
      assert table[..k + 1] == [table[0]] + table[1..][..k];
      assert table[k + 1..] == table[1..][k..];
    }
  }

  /** On a sorted table every entry from `InsertPos` on has at least priority `p`. */
  lemma {:induction false} InsertPosAbove<T, K>(table: seq<Action<T, K>>, p: int)
    requires Sorted(table)
    ensures forall i :: InsertPos(table, p) <= i < |table| ==> p <= table[i].priority
  {
    if table != [] && table[0].priority < p {
      InsertPosAbove(table[1..], p);
      forall i | InsertPos(table, p) <= i < |table|
        ensures p <= table[i].priority
      {
        assert table[i] == table[1..][i - 1];
      }
    }
  }

  /** `addAction` keeps the table sorted. */
  lemma AddActionSorted<T, K>(table: seq<Action<T, K>>, accepts: T -> bool, kind: K, priority: int)
    requires Sorted(table)
    ensures Sorted(AddAction(table, accepts, kind, priority))
  {
    AddActionInserts(table, accepts, kind, priority);
    InsertPosAbove(table, priority);
    var k := InsertPos(table, priority);
    var r := AddAction(table, accepts, kind, priority);
    forall i, j | 0 <= i < j < |r|
      ensures r[i].priority <= r[j].priority
    {
      assert r[i].priority == if i < k then table[i].priority else if i == k then priority else table[i - 1].priority;
      assert r[j].priority == if j < k then table[j].priority else if j == k then priority else table[j - 1].priority;
    }
  }

  lemma {:induction false} InsertPosAllBelow<T, K>(table: seq<Action<T, K>>, p: int)
    requires forall i :: 0 <= i < |table| ==> table[i].priority < p
    ensures InsertPos(table, p) == |table|
  {
    if table != [] {
      InsertPosAllBelow(table[1..], p);
    }
  }

  /** With the default priority, an action added to a `list` table goes last. */
  lemma AddDefaultGoesLast<T, K>(entries: seq<(T -> bool, K)>, accepts: T -> bool, kind: K)
    ensures var table := List(entries);
            AddAction(table, accepts, kind, DefaultPriority(table)) == table + [Action(accepts, kind, |table|)]
  {
    var table := List(entries);
    AddActionInserts(table, accepts, kind, |table|);
    InsertPosAllBelow(table, |table|);
    assert table[..|table|] == table && table[|table|..] == [];
  }

  /**
   * An action at the end of a table runs exactly when no earlier action
   * accepts the input.
   */
  lemma {:induction false} DispatchLast<T, K>(table: seq<Action<T, K>>, a: Action<T, K>, x: T)
    requires a.accepts(x)
    ensures Dispatch(table + [a], x) == if Dispatch(table, x).Some? then Dispatch(table, x) else Some(a.kind)
  {
    if table != [] {
      assert (table + [a])[1..] == table[1..] + [a];
      DispatchLast(table[1..], a, x);
    }
  }
}
