/**
 * The library linker (transformlib.js). When a library is built, every
 * compiled function is moved under the data pack namespace `lib`: functions
 * the compiler generated become `lib:<UID>/int/<id>_`, the library's own
 * functions are numbered `lib:<UID>/ext/<n>_`, and every mention of an old
 * reference in the compiled files and the JSON files is rewritten to the new
 * one. Each output then carries the library functions it depends on: the
 * closure, under "mentions", of the references its text contains.
 */
module Linker {
  import opened Wrappers
  import opened Text
  import opened IoModel

  // ------------------------------------------------------------ objects

  /** A JavaScript object with string keys: its values, and its keys in insertion order. */
  datatype Dict<V> = Dict(keys: seq<string>, vals: map<string, V>) {
    ghost predicate Valid() {
      Distinct(keys) && forall k {:trigger k in vals} :: k in vals <==> k in keys
    }

    /** `o[k] = v`: a new key goes last, an existing key keeps its place. */
    function Put(k: string, v: V): (d: Dict<V>)
      requires Valid()
      ensures d.Valid() && d.vals == vals[k := v]
      ensures d.keys == if k in vals then keys else keys + [k]
    {
      Dict(Insert(keys, k), vals[k := v])
    }

    /** `delete o[k]`: the other keys keep their order. */
    function Remove(k: string): (d: Dict<V>)
      requires Valid()
      ensures d.Valid() && d.vals == vals - {k}
    {
      WithoutDistinct(keys, k);
      Dict(Without(keys, k), vals - {k})
    }
  }

  /** The keys listed are exactly the keys present. */
  lemma Present<V>(d: Dict<V>, k: string)
    requires d.Valid()
    ensures k in d.vals <==> k in d.keys
  {
  }

  lemma AllPresent<V>(d: Dict<V>)
    requires d.Valid()
    ensures forall k :: k in d.keys <==> k in d.vals
  {
    forall k
      ensures k in d.keys <==> k in d.vals
    {
      Present(d, k);
    }
  }

  function EmptyDict<V>(): (d: Dict<V>)
    ensures d.Valid()
  {
    Dict([], map[])
  }

  /** `new Set(xs)` as an insertion-ordered list: each value once, at its first place. */
  function Insert(s: seq<string>, x: string): (r: seq<string>)
    ensures forall y :: y in r <==> y in s || y == x
    ensures Distinct(s) ==> Distinct(r)
    ensures x in s ==> r == s
  {
    if x in s then s else s + [x]
  }

  function InsertAll(s: seq<string>, xs: seq<string>): (r: seq<string>)
    ensures forall y :: y in r <==> y in s || y in xs
    ensures Distinct(s) ==> Distinct(r)
  {
    if xs == [] then s else Insert(InsertAll(s, xs[..|xs| - 1]), xs[|xs| - 1])
  }

  // ------------------------------------------------------- classification

  /** A function the compiler generated while building the library. */
  predicate IsGenerated(name: string) {
    Contains(name, "__lib_generated__")
  }

  /** A file of the library's own: not generated and not internal (a leading `__`). */
  predicate IsUser(name: string) {
    !IsGenerated(name) && !StartsWith(name, "__")
  }

  predicate IsJson(name: string) {
    EndsWith(name, ".json")
  }

  predicate IsFunctionFile(name: string) {
    EndsWith(name, ".mcfunction")
  }

  /**
   * `names.filter(p)`: exactly the names satisfying `p`, each as often as in
   * `names`, in their order.
   */
  function Select(names: seq<string>, p: string -> bool): (r: seq<string>)
    ensures forall x :: multiset(r)[x] == if p(x) then multiset(names)[x] else 0
    ensures forall x :: x in r <==> x in names && p(x)
  {
    KeptCounts(names, p);
    Kept(names, p)
  }

  /** The filter itself, one name at a time from the back. */
  function Kept(names: seq<string>, p: string -> bool): seq<string> {
    if names == [] then []
    else
      var rest := Kept(names[..|names| - 1], p);
      var last := names[|names| - 1];
      if p(last) then rest + [last] else rest
  }

  lemma {:induction false} KeptCounts(names: seq<string>, p: string -> bool)
    ensures forall x :: multiset(Kept(names, p))[x] == if p(x) then multiset(names)[x] else 0
    ensures forall x :: x in Kept(names, p) <==> x in names && p(x)
  {
    if names != [] {
      var init := names[..|names| - 1];
      KeptCounts(init, p);
      assert names == init + [names[|names| - 1]];
    }
  }

  /** Selecting from names listed once lists each selected name once. */
  lemma {:induction false} SelectDistinct(names: seq<string>, p: string -> bool)
    requires Distinct(names)
    ensures Distinct(Select(names, p))
  {
    if names != [] {
      var init := names[..|names| - 1];
      SelectDistinct(init, p);
      assert names[|names| - 1] !in init;
    }
  }

  /** Filtering a concatenation filters each part in turn: the selected names keep their order. */
  lemma SelectAppend(a: seq<string>, b: seq<string>, p: string -> bool)
    ensures Select(a + b, p) == Select(a, p) + Select(b, p)
  {
    KeptAppend(a, b, p);
  }

  lemma {:induction false} KeptAppend(a: seq<string>, b: seq<string>, p: string -> bool)
    ensures Kept(a + b, p) == Kept(a, p) + Kept(b, p)
    decreases |b|
  {
    if b == [] {
      assert a + b == a;
    } else {
      var init, last := b[..|b| - 1], b[|b| - 1];
      KeptAppend(a, init, p);
      assert (a + b)[..|a + b| - 1] == a + init && (a + b)[|a + b| - 1] == last;
    }
  }

  /** A single name is kept exactly when it satisfies the predicate. */
  lemma SelectOne(x: string, p: string -> bool)
    ensures Select([x], p) == if p(x) then [x] else []
  {
    assert [x][..0] == [] && [x][0] == x;
    assert Kept([x], p) == if p(x) then Kept([], p) + [x] else Kept([], p);
  }

  // ------------------------------------------------------------- renaming

  /** The pieces of a compiled function's path `data/<namespace>/functions/<dirs…>/<id>`. */
  datatype FunctionPath = FunctionPath(namespace: string, dirs: seq<string>, stem: string)

  datatype LinkError =
    | MissingId(file: string)         // a path with fewer than four segments has no id to pop
    | Unresolved(reference: string)   // a reference with no file, or a file with no dependency list
    | MissingOutput(file: string)     // a compiled function that was never renamed
    | BadMetadata(entry: string)      // the macro metadata file is missing or is not a JSON object

  /**
   * The destructuring `[, name, , ...rest]` of a path's segments followed by
   * popping the id and dropping its first `.mcfunction`.
   */
  function ParsePath(file: string): (r: Result<FunctionPath, LinkError>)
    ensures r.Err? <==> |Split(file, '/')| < 4
  {
    FromParts(file, Split(file, '/'))
  }

  function FromParts(file: string, parts: seq<string>): (r: Result<FunctionPath, LinkError>) {
    if |parts| < 4 then Err(MissingId(file))
    else Ok(FunctionPath(parts[1], parts[3..|parts| - 1], ReplaceFirst(parts[|parts| - 1], ".mcfunction", "")))
  }

  /** The key the old reference is looked up by: `<namespace>:<dirs joined>/<stem>`. */
  function OldReference(p: FunctionPath): string {
    p.namespace + ":" + Join(p.dirs, "/") + "/" + p.stem
  }

  /** A function file `data/<ns>/functions/<d1>/…/<dk>/<id>` is parsed back into its pieces. */
  lemma ParseFunctionPath(ns: string, dirs: seq<string>, id: string)
    requires '/' !in ns && '/' !in id && forall i :: 0 <= i < |dirs| ==> '/' !in dirs[i]
    ensures ParsePath(Join(["data", ns, "functions"] + dirs + [id], "/")) == Ok(FunctionPath(ns, dirs, ReplaceFirst(id, ".mcfunction", "")))
  {
    var parts := ["data", ns, "functions"] + dirs + [id];
    PartsWithoutSlash(ns, dirs, id);
    ParseJoined(parts);
    assert parts[1] == ns && parts[3..|parts| - 1] == dirs && parts[|parts| - 1] == id;
  }

  /**
   * The lookup key of a function in directories `d1 … dk` is its reference
   * `<ns>:<d1>/…/<dk>/<stem>`; a function directly under `functions` gets
   * `<ns>:/<stem>`, which is not how it is referred to.
   */
  lemma OldReferenceKey(ns: string, dirs: seq<string>, stem: string)
    ensures OldReference(FunctionPath(ns, dirs, stem)) == if dirs == [] then ns + ":/" + stem else ns + ":" + Join(dirs + [stem], "/")
  {
    if dirs != [] {
      JoinSnoc(dirs, stem, "/");
    }
  }

  lemma ParseJoined(parts: seq<string>)
    requires |parts| >= 4 && forall i :: 0 <= i < |parts| ==> '/' !in parts[i]
    ensures ParsePath(Join(parts, "/")) == FromParts(Join(parts, "/"), parts)
  {
    assert "/" == ['/'];
    SplitJoin(parts, '/');
  }

  lemma PartsWithoutSlash(ns: string, dirs: seq<string>, id: string)
    requires '/' !in ns && '/' !in id && forall i :: 0 <= i < |dirs| ==> '/' !in dirs[i]
    ensures var parts := ["data", ns, "functions"] + dirs + [id];
            forall i :: 0 <= i < |parts| ==> '/' !in parts[i]
  {
    var parts := ["data", ns, "functions"] + dirs + [id];
    forall i | 0 <= i < |parts|
      ensures '/' !in parts[i]
    {
      if 3 <= i < |parts| - 1 {
        assert parts[i] == dirs[i - 3];
      }
    }
  }

  /** The reference of a generated function once linked. */
  function IntReference(uid: string, stem: string): string {
    "lib:" + uid + "/int/" + stem + "_"
  }

  /** The reference of the library's `n`-th own function once linked. */
  function ExtReference(uid: string, n: nat): string {
    "lib:" + uid + "/ext/" + NatToString(n) + "_"
  }

  function IntFile(uid: string, stem: string): string {
    "data/lib/functions/" + uid + "/int/" + stem + "_.mcfunction"
  }

  function ExtFile(uid: string, n: nat): string {
    "data/lib/functions/" + uid + "/ext/" + NatToString(n) + "_.mcfunction"
  }

  /** Where a data pack keeps the function `lib:<x>`. */
  function Location(reference: string): (file: string)
    requires StartsWith(reference, "lib:")
    ensures StartsWith(file, "data/")
  {
    "data/lib/functions/" + reference[4..] + ".mcfunction"
  }

  /** A generated function's new file is exactly where its new reference lives. */
  lemma IntLocation(uid: string, stem: string)
    ensures StartsWith(IntReference(uid, stem), "lib:") && IntFile(uid, stem) == Location(IntReference(uid, stem))
  {
    assert IntReference(uid, stem)[4..] == uid + "/int/" + stem + "_";
  }

  /** So is a numbered function's. */
  lemma ExtLocation(uid: string, n: nat)
    ensures StartsWith(ExtReference(uid, n), "lib:") && ExtFile(uid, n) == Location(ExtReference(uid, n))
  {
    assert ExtReference(uid, n)[4..] == uid + "/ext/" + NatToString(n) + "_";
  }

  /** Distinct numbers give distinct references. */
  lemma ExtReferenceInjective(uid: string, a: nat, b: nat)
    requires ExtReference(uid, a) == ExtReference(uid, b)
    ensures a == b
  {
    var p := "lib:" + uid + "/ext/";
    var x, y := ExtReference(uid, a), ExtReference(uid, b);
    assert x[|p|..|x| - 1] == NatToString(a);
    assert y[|p|..|y| - 1] == NatToString(b);
    NatToStringInjective(a, b);
  }

  /** The numbered references `lib:<UID>/ext/<n>_` … `lib:<UID>/ext/<n+count-1>_`. */
  function ExtReferences(uid: string, n: nat, count: nat): (r: seq<string>)
    ensures |r| == count
    decreases count
  {
    if count == 0 then [] else [ExtReference(uid, n)] + ExtReferences(uid, n + 1, count - 1)
  }

  /** The `j`-th of them is numbered `n + j`. */
  lemma {:induction false} ExtReferenceAt(uid: string, n: nat, count: nat, j: nat)
    requires j < count
    ensures ExtReferences(uid, n, count)[j] == ExtReference(uid, n + j)
    decreases count
  {
    if j > 0 {
      ExtReferenceAt(uid, n + 1, count - 1, j - 1);
    }
  }

  /** How many of `names` are function files. */
  function CountFunctionFiles(names: seq<string>): nat {
    if names == [] then 0
    else if IsFunctionFile(names[0]) then CountFunctionFiles(names[1..]) + 1
    else CountFunctionFiles(names[1..])
  }

  // ------------------------------------------------------------ rewriting

  /** `s` with the replacements `keys` → `vals[key]` applied one after the other. */
  function Rewrite(s: string, keys: seq<string>, vals: map<string, string>): string
    requires forall k :: k in keys ==> k in vals && |k| > 0
  {
    if keys == [] then s
    else ReplaceAll(Rewrite(s, keys[..|keys| - 1], vals), keys[|keys| - 1], vals[keys[|keys| - 1]])
  }

  /** One replacement applied `n` times over. */
  function Repeat(s: string, p: string, r: string, n: nat): string
    requires |p| > 0
  {
    if n == 0 then s else ReplaceAll(Repeat(s, p, r, n - 1), p, r)
  }

  /** The rewriting of a JSON file: each replacement once per file of the build. */
  function RewriteRepeated(s: string, keys: seq<string>, vals: map<string, string>, n: nat): string
    requires forall k :: k in keys ==> k in vals && |k| > 0
  {
    if keys == [] then s
    else Repeat(RewriteRepeated(s, keys[..|keys| - 1], vals, n), keys[|keys| - 1], vals[keys[|keys| - 1]], n)
  }

  /** Text that mentions no old reference, and no new one that does, is left as it was. */
  lemma {:induction false} RewriteUnmentioned(s: string, keys: seq<string>, vals: map<string, string>)
    requires forall k :: k in keys ==> k in vals && |k| > 0 && !Contains(s, k)
    ensures Rewrite(s, keys, vals) == s
  {
    if keys != [] {
      RewriteUnmentioned(s, keys[..|keys| - 1], vals);
      ReplaceAbsent(s, keys[|keys| - 1], vals[keys[|keys| - 1]]);
    }
  }

  /** A replacement with nothing to replace leaves the text however often it is repeated. */
  lemma {:induction false} RepeatUnmentioned(s: string, p: string, r: string, n: nat)
    requires |p| > 0 && !Contains(s, p)
    ensures Repeat(s, p, r, n) == s
  {
    if n > 0 {
      RepeatUnmentioned(s, p, r, n - 1);
      ReplaceAbsent(s, p, r);
    }
  }

  /** The text of every file with the replacements applied; the names and their order unchanged. */
  function RewriteFiles(files: Dict<string>, keys: seq<string>, vals: map<string, string>): (r: Dict<string>)
    requires files.Valid() && forall k :: k in keys ==> k in vals && |k| > 0
    ensures r.Valid() && r.keys == files.keys && r.vals.Keys == files.vals.Keys
  {
    Dict(files.keys, map f | f in files.vals :: Rewrite(files.vals[f], keys, vals))
  }

  /** The JSON files with the replacements applied `n` times over to their text; nothing else changed. */
  function RewriteJson(json: seq<JsonFile>, keys: seq<string>, vals: map<string, string>, n: nat): (r: seq<JsonFile>)
    requires forall k :: k in keys ==> k in vals && |k| > 0
    ensures |r| == |json|
    ensures forall i :: 0 <= i < |json| ==> r[i].name == json[i].name && r[i].dependencies == json[i].dependencies
  {
    seq(|json|, i requires 0 <= i < |json| => json[i].(content := RewriteRepeated(json[i].content, keys, vals, n)))
  }

  lemma SameDict(a: Dict<string>, b: Dict<string>)
    requires a.keys == b.keys && a.vals.Keys == b.vals.Keys && forall f :: f in a.vals ==> a.vals[f] == b.vals[f]
    ensures a == b
  {
    assert a.vals == b.vals;
  }

  /** Rewriting with one replacement more is one more replace-all over every file. */
  lemma RewriteFilesSnoc(files: Dict<string>, keys: seq<string>, vals: map<string, string>, i: nat)
    requires files.Valid() && i < |keys| && forall k :: k in keys ==> k in vals && |k| > 0
    ensures var before := RewriteFiles(files, keys[..i], vals);
            var after := RewriteFiles(files, keys[..i + 1], vals);
            after.keys == before.keys && after.vals.Keys == before.vals.Keys
            && forall f :: f in after.vals ==> after.vals[f] == ReplaceAll(before.vals[f], keys[i], vals[keys[i]])
  {
    assert keys[..i + 1][..i] == keys[..i];
  }

  /** Rewriting the JSON files with one replacement more is that replacement repeated over each. */
  lemma RewriteJsonSnoc(json: seq<JsonFile>, keys: seq<string>, vals: map<string, string>, n: nat, i: nat)
    requires i < |keys| && forall k :: k in keys ==> k in vals && |k| > 0
    ensures var before := RewriteJson(json, keys[..i], vals, n);
            var after := RewriteJson(json, keys[..i + 1], vals, n);
            |after| == |before| && forall j :: 0 <= j < |after| ==>
              after[j] == before[j].(content := Repeat(before[j].content, keys[i], vals[keys[i]], n))
  {
    assert keys[..i + 1][..i] == keys[..i];
  }

  // --------------------------------------------------------- dependencies

  /** `getDeps`: the library functions whose reference occurs in `content`, in the order of `functions`. */
  function GetDeps(functions: seq<string>, content: string): (r: seq<string>)
    ensures forall f :: f in r <==> f in functions && Contains(content, f)
    ensures forall f :: multiset(r)[f] == if Contains(content, f) then multiset(functions)[f] else 0
  {
    Select(functions, (f: string) => Contains(content, f))
  }

  /** The references mentioned among `a + b` are those among `a`, then those among `b`. */
  lemma GetDepsAppend(a: seq<string>, b: seq<string>, content: string)
    ensures GetDeps(a + b, content) == GetDeps(a, content) + GetDeps(b, content)
  {
    SelectAppend(a, b, (f: string) => Contains(content, f));
  }

  /** One reference is listed exactly when the text mentions it. */
  lemma GetDepsOne(f: string, content: string)
    ensures GetDeps([f], content) == if Contains(content, f) then [f] else []
  {
    SelectOne(f, (g: string) => Contains(content, g));
  }

  /** `splice(indexOf(x), 1)` when `x` is present: the first occurrence of `x` taken out. */
  function DropFirst(deps: seq<string>, x: string): (r: seq<string>)
    ensures multiset(r) == multiset(deps) - multiset{x}
  {
    if deps == [] then []
    else
      assert deps == [deps[0]] + deps[1..];
      if deps[0] == x then deps[1..] else [deps[0]] + DropFirst(deps[1..], x)
  }

  /**
   * A file's direct dependencies: what its text mentions, less one mention of
   * the file's own reference when it has one.
   */
  function DirectDeps(functions: seq<string>, content: string, own: Option<string>): seq<string> {
    var deps := GetDeps(functions, content);
    if own.Some? && own.value in deps then DropFirst(deps, own.value) else deps
  }

  /** Every mentioned reference other than the file's own is a direct dependency, and nothing else is. */
  lemma DirectDepsMembers(functions: seq<string>, content: string, own: Option<string>, f: string)
    requires own != Some(f)
    ensures f in DirectDeps(functions, content, own) <==> f in functions && Contains(content, f)
  {
    var deps := GetDeps(functions, content);
    if own.Some? && own.value in deps {
      assert multiset(DropFirst(deps, own.value))[f] == multiset(deps)[f];
    }
  }

  /** The file's own reference appears once fewer than it is mentioned; not at all when `functions` lists it once. */
  lemma DirectDepsOwn(functions: seq<string>, content: string, own: string)
    ensures var n := if Contains(content, own) then multiset(functions)[own] else 0;
            multiset(DirectDeps(functions, content, Some(own)))[own] == if n > 0 then n - 1 else 0
    ensures Distinct(functions) ==> own !in DirectDeps(functions, content, Some(own))
  {
    var deps := GetDeps(functions, content);
    assert own in deps <==> multiset(deps)[own] > 0;
    if Distinct(functions) {
      DistinctOnce(functions, own);
    }
  }

  lemma {:induction false} DistinctOnce(xs: seq<string>, x: string)
    requires Distinct(xs)
    ensures multiset(xs)[x] <= 1
  {
    if xs != [] {
      DistinctOnce(xs[1..], x);
      assert xs == [xs[0]] + xs[1..];
      if xs[0] == x {
        assert x !in xs[1..];
      }
    }
  }

  /** `Object.fromEntries` of the swapped entries of `file_from_func`: a later entry wins. */
  function Invert(keys: seq<string>, vals: map<string, string>): (m: map<string, string>)
    requires forall k :: k in keys ==> k in vals
    ensures forall v :: v in m ==> m[v] in keys && vals[m[v]] == v
    ensures forall k :: k in keys ==> vals[k] in m
  {
    if keys == [] then map[]
    else
      var last := keys[|keys| - 1];
      Invert(keys[..|keys| - 1], vals)[vals[last] := last]
  }

  /** `func_from_file[file]`: the reference whose file is `file`, read back through `fff`. */
  function OwnReference(fff: Dict<string>, file: string): (r: Option<string>)
    requires fff.Valid()
    ensures r.Some? ==> r.value in fff.vals && fff.vals[r.value] == file
    ensures r.None? ==> forall k :: k in fff.vals ==> fff.vals[k] != file
  {
    AllPresent(fff);
    var inverse := Invert(fff.keys, fff.vals);
    if file in inverse then Some(inverse[file]) else None
  }

  /** The loop over the files of the build that fills `dependencies`. */
  method DependencyLists(functions: seq<string>, files: Dict<string>, fff: Dict<string>) returns (d: map<string, seq<string>>)
    requires files.Valid() && fff.Valid()
    ensures d.Keys == files.vals.Keys
    ensures forall f :: f in files.vals ==> d[f] == DirectDeps(functions, files.vals[f], OwnReference(fff, f))
  {
    var names := files.keys;
    AllPresent(files);
    d := map[];
    var i := 0;
    while i < |names|
      invariant i <= |names|
      invariant forall f :: f in d <==> f in names[..i]
      invariant forall f :: f in d ==> f in files.vals && d[f] == DirectDeps(functions, files.vals[f], OwnReference(fff, f))
    {
      var file := names[i];
      var own := OwnReference(fff, file);
      var deps := GetDeps(functions, files.vals[file]);
      if own.Some? && own.value in deps {
        deps := DropFirst(deps, own.value);
      }
      d := d[file := deps];
      PrefixSnoc(names, i);
      i := i + 1;
    }
    assert names[..i] == names;
  }

  // -------------------------------------------------------------- closure

  /** The references `x` depends on directly, through its file; none when it has no file. */
  function Children(x: string, fff: map<string, string>, deps: map<string, seq<string>>): seq<string> {
    if x in fff && fff[x] in deps then deps[fff[x]] else []
  }

  predicate Resolves(x: string, fff: map<string, string>, deps: map<string, seq<string>>) {
    x in fff && fff[x] in deps
  }

  /** No file name is also a reference (the guard of `flatten` then never holds back a child). */
  ghost predicate PathsApart(fff: map<string, string>) {
    forall k :: k in fff ==> fff[k] !in fff
  }

  /** Every reference `flatten` can meet: the entries and everything a dependency list names. */
  ghost function Universe(entries: seq<string>, deps: map<string, seq<string>>): set<string> {
    (set e | e in entries) + (set f, c | f in deps && c in deps[f] :: c)
  }

  /**
   * What `flatten(entries)` returns: each reference once, every entry, only
   * references with a file and a dependency list, nothing that neither is an
   * entry nor is needed by another member, and, when no file name is a
   * reference, everything its members depend on.
   */
  ghost predicate IsClosure(cl: seq<string>, entries: seq<string>, fff: map<string, string>, deps: map<string, seq<string>>) {
    && Distinct(cl)
    && (forall e :: e in entries ==> e in cl)
    && (forall x :: x in cl ==> Resolves(x, fff, deps))
    && (forall x :: x in cl ==> x in entries || exists y :: y in cl && x in Children(y, fff, deps))
    && (PathsApart(fff) ==> forall x, c :: x in cl && c in Children(x, fff, deps) ==> c in cl)
  }

  /** Every reference `flatten` can meet has a file and a dependency list. */
  ghost predicate AllResolve(entries: seq<string>, fff: map<string, string>, deps: map<string, seq<string>>) {
    forall x :: x in Universe(entries, deps) ==> Resolves(x, fff, deps)
  }

  /**
   * `flatten`: the worklist closure of `entries`. `unseen` and `res` are
   * insertion-ordered sets. A child is queued unless its FILE is already in
   * `res`, which holds references, so every child is queued once no file
   * name is also a reference.
   */
  method Flatten(entries: seq<string>, fff: map<string, string>, deps: map<string, seq<string>>)
    returns (r: Result<seq<string>, LinkError>)
    ensures r.Ok? ==> IsClosure(r.value, entries, fff, deps)
    ensures AllResolve(entries, fff, deps) ==> r.Ok?
  {
    ghost var U := Universe(entries, deps);
    var res: seq<string> := [];
    var unseen := InsertAll([], entries);
    ghost var left := U;
    while unseen != []
      invariant Worklist(entries, fff, deps, U, res, unseen, left)
      decreases |left|, |unseen|
    {
      var item := unseen[0];
      if item !in res && !Resolves(item, fff, deps) {
        return Err(Unresolved(item));
      }
      res, unseen, left := Visit(entries, fff, deps, U, res, unseen, left);
    }
    WorklistDone(entries, fff, deps, U, res, left);
    return Ok(res);
  }

  /** The invariant of the `flatten` loop; `left` is what of `U` is not yet in `res`. */
  ghost predicate Worklist(entries: seq<string>, fff: map<string, string>, deps: map<string, seq<string>>,
                           U: set<string>, res: seq<string>, unseen: seq<string>, left: set<string>) {
    && U == Universe(entries, deps)
    && Distinct(res) && Distinct(unseen)
    && (forall x :: x in res || x in unseen ==> x in U)
    && left <= U && (forall x :: x in U ==> (x in left <==> x !in res))
    && (forall e :: e in entries ==> e in res || e in unseen)
    && (forall x :: x in res ==> Resolves(x, fff, deps))
    && (forall x :: x in res || x in unseen ==> x in entries || exists y :: y in res && x in Children(y, fff, deps))
    && (PathsApart(fff) ==> forall x, c :: x in res && c in Children(x, fff, deps) ==> c in res || c in unseen)
  }

  /**
   * One turn of the `flatten` loop on the first queued reference: a new one
   * has its children queued and joins `res`; one already in `res` is dropped.
   */
  method Visit(entries: seq<string>, fff: map<string, string>, deps: map<string, seq<string>>,
               ghost U: set<string>, res: seq<string>, unseen: seq<string>, ghost left: set<string>)
    returns (res': seq<string>, unseen': seq<string>, ghost left': set<string>)
    requires Worklist(entries, fff, deps, U, res, unseen, left) && unseen != []
    requires unseen[0] !in res ==> Resolves(unseen[0], fff, deps)
    ensures Worklist(entries, fff, deps, U, res', unseen', left')
    ensures |left'| < |left| || (left' == left && |unseen'| < |unseen|)
  {
    var item := unseen[0];
    if item !in res {
      var children := deps[fff[item]];
      ChildrenInUniverse(entries, deps, fff[item]);
      var queued := Enqueue(unseen, children, fff, res);
      res', unseen', left' := VisitNew(entries, fff, deps, U, res, unseen, left, queued);
    } else {
      WithoutShrinks(unseen, item);
      WithoutDistinct(unseen, item);
      res', unseen', left' := res, Without(unseen, item), left;
    }
  }

  /** A reference not yet in `res`: its children queued in `queued`, it joins `res`. */
  method VisitNew(entries: seq<string>, fff: map<string, string>, deps: map<string, seq<string>>,
                  ghost U: set<string>, res: seq<string>, unseen: seq<string>, ghost left: set<string>, queued: seq<string>)
    returns (res': seq<string>, unseen': seq<string>, ghost left': set<string>)
    requires Worklist(entries, fff, deps, U, res, unseen, left) && unseen != []
    requires unseen[0] !in res && Resolves(unseen[0], fff, deps)
    requires Distinct(queued)
    requires forall x :: x in queued <==> x in unseen || (x in Children(unseen[0], fff, deps) && !(x in fff && fff[x] in res))
    requires forall c :: c in Children(unseen[0], fff, deps) ==> c in U
    ensures Worklist(entries, fff, deps, U, res', unseen', left')
    ensures |left'| < |left|
  {
    var item := unseen[0];
    WithoutDistinct(queued, item);
    res', unseen' := res + [item], Without(queued, item);
    SetShrinks(left, item);
    left' := left - {item};
  }

  /** An empty worklist leaves the closure in `res`. */
  lemma WorklistDone(entries: seq<string>, fff: map<string, string>, deps: map<string, seq<string>>,
                     U: set<string>, res: seq<string>, left: set<string>)
    requires Worklist(entries, fff, deps, U, res, [], left)
    ensures IsClosure(res, entries, fff, deps)
  {
  }

  /** The inner loop of `flatten`: each child is queued unless its file is in `res`. */
  method Enqueue(unseen: seq<string>, children: seq<string>, fff: map<string, string>, res: seq<string>)
    returns (u: seq<string>)
    requires Distinct(unseen)
    ensures Distinct(u)
    ensures forall x :: x in u <==> x in unseen || (x in children && !(x in fff && fff[x] in res))
  {
    u := unseen;
    var i := 0;
    while i < |children|
      invariant i <= |children| && Distinct(u)
      invariant forall x :: x in u <==> x in unseen || (x in children[..i] && !(x in fff && fff[x] in res))
    {
      assert children[..i + 1] == children[..i] + [children[i]];
      if !(children[i] in fff && fff[children[i]] in res) {
        u := Insert(u, children[i]);
      }
      i := i + 1;
    }
    assert children[..i] == children;
  }

  lemma ChildrenInUniverse(entries: seq<string>, deps: map<string, seq<string>>, f: string)
    requires f in deps
    ensures forall c :: c in deps[f] ==> c in Universe(entries, deps)
  {
  }

  lemma WithoutShrinks(keys: seq<string>, k: string)
    requires k in keys
    ensures |Without(keys, k)| < |keys|
  {
    if keys[0] != k {
      WithoutShrinks(keys[1..], k);
    }
  }

  lemma SetShrinks(s: set<string>, x: string)
    requires x in s
    ensures |s - {x}| < |s|
  {
    assert s == (s - {x}) + {x};
  }

  // ------------------------------------------------------------ the build

  /** A JSON file of the build, with the references it depends on once linked. */
  datatype JsonFile = JsonFile(name: string, content: string, dependencies: seq<string>)

  /** A linked function: its text and the files of the library functions it needs. */
  datatype FunctionOutput = FunctionOutput(content: string, dependencies: seq<string>)

  /** A token of one of the library's macros; `line` and `file` say where it came from. */
  datatype MacroToken = MacroToken(token: string, line: string, file: string)

  datatype MacroOutput = MacroOutput(tokens: seq<MacroToken>, dependencies: seq<string>)

  datatype LinkOutput =
    | Macros(macros: Dict<MacroOutput>, json: seq<JsonFile>)
    | Functions(functions: Dict<FunctionOutput>, json: seq<JsonFile>)

  /** What is being built: a macro library whose metadata is the file `entry`, or the functions of the source `source`. */
  datatype Target = MacroLibrary(entry: string) | FunctionLibrary(source: string)

  /** A file name with every `\\` turned into `/`. */
  function Normalize(name: string): (r: string)
    ensures |r| == |name| && '\\' !in r
    ensures '\\' !in name ==> r == name
  {
    seq(|name|, i requires 0 <= i < |name| => if name[i] == '\\' then '/' else name[i])
  }

  /** The files of one source put into `d` in order, under their normalised names. */
  function PutAll(d: Dict<string>, children: seq<(string, string)>): (r: Dict<string>)
    requires d.Valid()
    ensures r.Valid()
  {
    if children == [] then d
    else
      var last := children[|children| - 1];
      PutAll(d, children[..|children| - 1]).Put(Normalize(last.0), last.1)
  }

  /** The files of every source of the build, a later file replacing an earlier one of the same name. */
  function Merged(vfs: seq<(string, seq<(string, string)>)>): (d: Dict<string>)
    ensures d.Valid()
  {
    if vfs == [] then EmptyDict() else PutAll(Merged(vfs[..|vfs| - 1]), vfs[|vfs| - 1].1)
  }

  /** Some source of the build has a file named `k` once normalised. */
  ghost predicate Named(vfs: seq<(string, seq<(string, string)>)>, k: string) {
    exists i :: 0 <= i < |vfs| && NamedIn(vfs[i].1, k)
  }

  /** Some file of one source is named `k` once normalised. */
  ghost predicate NamedIn(children: seq<(string, string)>, k: string) {
    exists j :: 0 <= j < |children| && Normalize(children[j].0) == k
  }

  lemma NamedSnoc(vfs: seq<(string, seq<(string, string)>)>, k: string)
    requires vfs != []
    ensures Named(vfs, k) <==> Named(vfs[..|vfs| - 1], k) || NamedIn(vfs[|vfs| - 1].1, k)
  {
    var init := vfs[..|vfs| - 1];
    if Named(vfs, k) {
      var i :| 0 <= i < |vfs| && NamedIn(vfs[i].1, k);
      if i < |vfs| - 1 {
        assert init[i] == vfs[i];
      }
    }
    if Named(init, k) {
      var i :| 0 <= i < |init| && NamedIn(init[i].1, k);
      assert vfs[i] == init[i];
    }
  }

  lemma NamedInSnoc(children: seq<(string, string)>, k: string)
    requires children != []
    ensures NamedIn(children, k) <==> NamedIn(children[..|children| - 1], k) || Normalize(children[|children| - 1].0) == k
  {
    var init := children[..|children| - 1];
    if NamedIn(children, k) {
      var j :| 0 <= j < |children| && Normalize(children[j].0) == k;
      if j < |children| - 1 {
        assert init[j] == children[j];
      }
    }
    if NamedIn(init, k) {
      var j :| 0 <= j < |init| && Normalize(init[j].0) == k;
      assert children[j] == init[j];
    }
  }

  /** A name is a file of the build exactly when some source has a file of that normalised name. */
  lemma {:induction false} MergedNames(vfs: seq<(string, seq<(string, string)>)>, k: string)
    ensures k in Merged(vfs).vals <==> Named(vfs, k)
  {
    if vfs != [] {
      var init := vfs[..|vfs| - 1];
      MergedNames(init, k);
      PutAllNames(Merged(init), vfs[|vfs| - 1].1, k);
      NamedSnoc(vfs, k);
    }
  }

  lemma {:induction false} PutAllNames(d: Dict<string>, children: seq<(string, string)>, k: string)
    requires d.Valid()
    ensures k in PutAll(d, children).vals <==> k in d.vals || NamedIn(children, k)
  {
    if children != [] {
      PutAllNames(d, children[..|children| - 1], k);
      NamedInSnoc(children, k);
    }
  }

  lemma PutAllSnoc(d: Dict<string>, children: seq<(string, string)>, j: nat)
    requires d.Valid() && j < |children|
    ensures PutAll(d, children[..j + 1]) == PutAll(d, children[..j]).Put(Normalize(children[j].0), children[j].1)
  {
    assert children[..j + 1][..j] == children[..j];
  }

  /** The inner loop of the merge: the files of one source, in order. */
  method MergeSource(d: Dict<string>, children: seq<(string, string)>) returns (d': Dict<string>)
    requires d.Valid()
    ensures d' == PutAll(d, children)
  {
    d' := d;
    var j := 0;
    while j < |children|
      invariant j <= |children| && d' == PutAll(d, children[..j])
    {
      PutAllSnoc(d, children, j);
      d' := d'.Put(Normalize(children[j].0), children[j].1);
      j := j + 1;
    }
    assert children[..j] == children;
  }

  /** The file names of the source `key`; none when there is no such source. */
  function SourceFiles(vfs: seq<(string, seq<(string, string)>)>, key: string): seq<string> {
    if vfs == [] then []
    else if vfs[|vfs| - 1].0 == key then seq(|vfs[|vfs| - 1].1|, j requires 0 <= j < |vfs[|vfs| - 1].1| => vfs[|vfs| - 1].1[j].0)
    else SourceFiles(vfs[..|vfs| - 1], key)
  }

  /** The JSON files among `files`, in order, with their text and no dependencies yet. */
  function JsonOf(files: Dict<string>): (r: seq<JsonFile>)
    requires files.Valid()
  {
    var names := Select(files.keys, IsJson);
    seq(|names|, i requires 0 <= i < |names| => Present(files, names[i]); JsonFile(names[i], files.vals[names[i]], []))
  }

  /** The files of `cl`, in order. */
  function FilesOf(cl: seq<string>, fff: map<string, string>): seq<string>
    requires forall x :: x in cl ==> x in fff
  {
    seq(|cl|, i requires 0 <= i < |cl| => fff[cl[i]])
  }

  /** Files of distinct library references are distinct. */
  lemma LocationInjective(a: string, b: string)
    requires StartsWith(a, "lib:") && StartsWith(b, "lib:") && Location(a) == Location(b)
    ensures a == b
  {
    var n := |"data/lib/functions/"|;
    assert Location(a)[n..|Location(a)| - |".mcfunction"|] == a[4..];
    assert Location(b)[n..|Location(b)| - |".mcfunction"|] == b[4..];
    assert a == a[..4] + a[4..] && b == b[..4] + b[4..];
  }

  /** A reference into the library with id `uid`. */
  predicate LinkedTo(uid: string, r: string) {
    StartsWith(r, "lib:" + uid + "/")
  }

  /** No rename has an empty old name. */
  ghost predicate NonEmptyKeys(lookup: Dict<string>) {
    forall k :: k in lookup.vals ==> |k| > 0
  }

  /** Every linked reference belongs to the library and lives at its `Location`. */
  ghost predicate LinkedFiles(uid: string, fff: map<string, string>) {
    forall r :: r in fff ==> LinkedTo(uid, r) && fff[r] == Location(r)
  }

  /** Every listed reference has a file. */
  ghost predicate Recorded(functions: seq<string>, fff: map<string, string>) {
    forall r :: r in functions ==> r in fff
  }

  lemma RecordKeeps(uid: string, lookup: Dict<string>, functions: seq<string>, fff: map<string, string>, key: string, ref: string)
    requires NonEmptyKeys(lookup) && LinkedFiles(uid, fff) && Recorded(functions, fff)
    requires lookup.Valid() && |key| > 0 && LinkedTo(uid, ref) && StartsWith(ref, "lib:")
    ensures NonEmptyKeys(lookup.Put(key, ref))
    ensures LinkedFiles(uid, fff[ref := Location(ref)]) && Recorded(functions + [ref], fff[ref := Location(ref)])
  {
  }

  /** Distinct files, all in the function folder of the library with id `uid`. */
  predicate InLibrary(uid: string, files: seq<string>) {
    Distinct(files) && forall f :: f in files ==> StartsWith(f, "data/lib/functions/" + uid + "/")
  }

  /** `files` is what `flatten(entries).map(_ => file_from_func[_])` can return. */
  ghost predicate DependencyFiles(files: seq<string>, entries: seq<string>, fff: map<string, string>, deps: map<string, seq<string>>) {
    exists cl :: IsClosure(cl, entries, fff, deps) && files == FilesOf(cl, fff)
  }

  /** The file of a reference into the library lies in the library's function folder. */
  lemma LocationInLibrary(uid: string, r: string)
    requires LinkedTo(uid, r)
    ensures StartsWith(r, "lib:") && StartsWith(Location(r), "data/lib/functions/" + uid + "/")
  {
    var p := "lib:" + uid + "/";
    assert r[..4] == p[..4];
    var q := "data/lib/functions/" + uid + "/";
    assert r[4..|p|] == uid + "/";
    assert Location(r)[..|q|] == "data/lib/functions/" + r[4..|p|];
  }

  /** The dependency files of an output are distinct and in the library's folder. */
  lemma DependencyFilesInLibrary(uid: string, files: seq<string>, entries: seq<string>, fff: map<string, string>, deps: map<string, seq<string>>)
    requires DependencyFiles(files, entries, fff, deps) && LinkedFiles(uid, fff)
    ensures InLibrary(uid, files)
  {
    var cl :| IsClosure(cl, entries, fff, deps) && files == FilesOf(cl, fff);
    forall i, j | 0 <= i < j < |files|
      ensures files[i] != files[j]
    {
      assert Resolves(cl[i], fff, deps) && Resolves(cl[j], fff, deps);
      LocationInLibrary(uid, cl[i]);
      LocationInLibrary(uid, cl[j]);
      if files[i] == files[j] {
        LocationInjective(cl[i], cl[j]);
      }
    }
    forall f | f in files
      ensures StartsWith(f, "data/lib/functions/" + uid + "/")
    {
      var i :| 0 <= i < |files| && files[i] == f;
      assert Resolves(cl[i], fff, deps);
      LocationInLibrary(uid, cl[i]);
    }
  }

  /**
   * An output `o` under `f`: `f` is the new file of a compiled function of
   * the source being built, `o` has its text and its dependency files.
   */
  ghost predicate Produced(current: seq<string>, s: Linking, deps: map<string, seq<string>>, f: string, o: FunctionOutput) {
    && (exists func :: func in current && IsFunctionFile(func) && func in s.transforms && s.transforms[func] == f)
    && f in s.files.vals && o.content == s.files.vals[f]
    && DependencyFiles(o.dependencies, GetDeps(s.functions, s.files.vals[f]), s.fileFromFunc.vals, deps)
  }

  /** The compiled functions of the source being built, each under its new file, with its text and dependencies. */
  method FunctionOutputs(current: seq<string>, s: Linking, deps: map<string, seq<string>>) returns (r: Result<Dict<FunctionOutput>, LinkError>)
    requires s.Valid()
    ensures r.Ok? ==> r.value.Valid()
    ensures r.Ok? ==> forall func :: func in current && IsFunctionFile(func) ==> func in s.transforms && s.transforms[func] in r.value.vals
    ensures r.Ok? ==> forall f :: f in r.value.vals ==> Produced(current, s, deps, f, r.value.vals[f])
    ensures (exists func :: func in current && IsFunctionFile(func) && !(func in s.transforms && s.transforms[func] in s.files.vals)) ==> r.Err?
    ensures (forall func :: func in current && IsFunctionFile(func) ==>
               func in s.transforms && s.transforms[func] in s.files.vals
               && AllResolve(GetDeps(s.functions, s.files.vals[s.transforms[func]]), s.fileFromFunc.vals, deps)) ==> r.Ok?
  {
    var out: Dict<FunctionOutput> := EmptyDict();
    var i := 0;
    while i < |current|
      invariant i <= |current| && out.Valid()
      invariant forall func :: func in current[..i] && IsFunctionFile(func) ==>
                  func in s.transforms && s.transforms[func] in out.vals && s.transforms[func] in s.files.vals
      invariant forall f :: f in out.vals ==> Produced(current, s, deps, f, out.vals[f])
    {
      var func := current[i];
      PrefixSnoc(current, i);
      if IsFunctionFile(func) {
        if func !in s.transforms || s.transforms[func] !in s.files.vals {
          return Err(MissingOutput(func));
        }
        var file := s.transforms[func];
        var content := s.files.vals[file];
        var cl := Flatten(GetDeps(s.functions, content), s.fileFromFunc.vals, deps);
        if cl.Err? {
          return Err(cl.error);
        }
        var files := FilesOf(cl.value, s.fileFromFunc.vals);
        assert Produced(current, s, deps, file, FunctionOutput(content, files)) by {
          assert DependencyFiles(files, GetDeps(s.functions, content), s.fileFromFunc.vals, deps);
          assert func in current;
        }
        out := out.Put(file, FunctionOutput(content, files));
      }
      i := i + 1;
    }
    assert current[..i] == current;
    return Ok(out);
  }

  /** A macro's tokens with their line and file set to `origin`. */
  function Relabel(tokens: seq<MacroToken>, origin: string): (r: seq<MacroToken>)
    ensures |r| == |tokens|
    ensures forall i :: 0 <= i < |r| ==> r[i].token == tokens[i].token && r[i].line == origin && r[i].file == origin
  {
    seq(|tokens|, i requires 0 <= i < |tokens| => tokens[i].(line := origin, file := origin))
  }

  /** The texts of a macro's tokens. */
  function TokenTexts(tokens: seq<MacroToken>): (r: seq<string>)
    ensures |r| == |tokens| && forall i :: 0 <= i < |r| ==> r[i] == tokens[i].token
  {
    seq(|tokens|, i requires 0 <= i < |tokens| => tokens[i].token)
  }

  /** The names of the entries of `data`, in order. */
  function NamesOf(data: seq<(string, seq<MacroToken>)>): (r: seq<string>)
    ensures |r| == |data| && forall i :: 0 <= i < |data| ==> r[i] == data[i].0
  {
    seq(|data|, i requires 0 <= i < |data| => data[i].0)
  }

  /** No later entry of `data` has the name of entry `i`: the entry a JSON object keeps. */
  predicate LastOf(data: seq<(string, seq<MacroToken>)>, i: nat)
    requires i < |data|
  {
    forall j :: i < j < |data| ==> data[j].0 != data[i].0
  }

  /** A macro output `m` for the tokens `tokens`: relabelled, with the files its token text depends on. */
  ghost predicate Expanded(tokens: seq<MacroToken>, origin: string, s: Linking, deps: map<string, seq<string>>, m: MacroOutput) {
    && m.tokens == Relabel(tokens, origin)
    && DependencyFiles(m.dependencies, GetDeps(s.functions, Join(TokenTexts(tokens), "\n")), s.fileFromFunc.vals, deps)
  }

  /** Entry `k` is the one a JSON object keeps exactly when its name does not come again later. */
  lemma LastOfNames(data: seq<(string, seq<MacroToken>)>, k: nat)
    requires k < |data|
    ensures NamesOf(data[k..]) == [data[k].0] + NamesOf(data[k + 1..])
    ensures LastOf(data, k) <==> data[k].0 !in NamesOf(data[k + 1..])
  {
    assert NamesOf(data[k..]) == [data[k].0] + NamesOf(data[k + 1..]);
    if !LastOf(data, k) {
      var j :| k < j < |data| && data[j].0 == data[k].0;
      assert NamesOf(data[k + 1..])[j - k - 1] == data[k].0;
    }
  }

  /** The names whose last entry comes before `k + 1`: those before `k`, and the name of `k` when `k` is its last entry. */
  lemma KeptNamesStep(data: seq<(string, seq<MacroToken>)>, k: nat, name: string)
    requires k < |data|
    ensures (name in NamesOf(data[..k + 1]) && name !in NamesOf(data[k + 1..])) <==>
            (if name == data[k].0 then LastOf(data, k) else name in NamesOf(data[..k]) && name !in NamesOf(data[k..]))
  {
    assert NamesOf(data[..k + 1]) == NamesOf(data[..k]) + [data[k].0];
    LastOfNames(data, k);
  }

  /**
   * The loop invariant of `MacroOutputs` carried over entry `k`: the names
   * whose last entry has been seen are the output's, and each holds that
   * last entry expanded as `m`.
   */
  lemma ExpandedStep(data: seq<(string, seq<MacroToken>)>, k: nat, origin: string, s: Linking, deps: map<string, seq<string>>,
                     out: Dict<MacroOutput>, m: MacroOutput)
    requires k < |data| && out.Valid() && (LastOf(data, k) ==> Expanded(data[k].1, origin, s, deps, m))
    requires forall name :: name in out.vals <==> name in NamesOf(data[..k]) && name !in NamesOf(data[k..])
    requires forall i :: 0 <= i < k && LastOf(data, i) ==> data[i].0 in out.vals && Expanded(data[i].1, origin, s, deps, out.vals[data[i].0])
    ensures var next := if LastOf(data, k) then out.Put(data[k].0, m) else out;
            && (forall name :: name in next.vals <==> name in NamesOf(data[..k + 1]) && name !in NamesOf(data[k + 1..]))
            && (forall i :: 0 <= i < k + 1 && LastOf(data, i) ==> data[i].0 in next.vals && Expanded(data[i].1, origin, s, deps, next.vals[data[i].0]))
  {
    var next := if LastOf(data, k) then out.Put(data[k].0, m) else out;
    forall name
      ensures name in next.vals <==> name in NamesOf(data[..k + 1]) && name !in NamesOf(data[k + 1..])
    {
      KeptNamesStep(data, k, name);
    }
    forall i | 0 <= i < k + 1 && LastOf(data, i)
      ensures data[i].0 in next.vals && Expanded(data[i].1, origin, s, deps, next.vals[data[i].0])
    {
      if i < k {
        assert data[i].0 != data[k].0;
        assert next.vals[data[i].0] == out.vals[data[i].0];
      }
    }
  }

  /**
   * Every macro of the metadata, relabelled, with the library files its
   * token text depends on. Only the entry a JSON object keeps for each name
   * is looked at.
   */
  method MacroOutputs(data: seq<(string, seq<MacroToken>)>, origin: string, s: Linking, deps: map<string, seq<string>>)
    returns (r: Result<Dict<MacroOutput>, LinkError>)
    requires s.Valid()
    ensures r.Ok? ==> r.value.Valid() && forall name :: name in r.value.vals <==> name in NamesOf(data)
    ensures r.Ok? ==> forall i :: 0 <= i < |data| && LastOf(data, i) ==>
              data[i].0 in r.value.vals && Expanded(data[i].1, origin, s, deps, r.value.vals[data[i].0])
    ensures (forall i :: 0 <= i < |data| && LastOf(data, i) ==>
               AllResolve(GetDeps(s.functions, Join(TokenTexts(data[i].1), "\n")), s.fileFromFunc.vals, deps)) ==> r.Ok?
  {
    var out: Dict<MacroOutput> := EmptyDict();
    var k := 0;
    while k < |data|
      invariant k <= |data| && out.Valid()
      invariant forall name :: name in out.vals <==> name in NamesOf(data[..k]) && name !in NamesOf(data[k..])
      invariant forall i :: 0 <= i < k && LastOf(data, i) ==>
                  data[i].0 in out.vals && Expanded(data[i].1, origin, s, deps, out.vals[data[i].0])
    {
      var m := MacroOutput([], []);
      if LastOf(data, k) {
        var cl := Flatten(GetDeps(s.functions, Join(TokenTexts(data[k].1), "\n")), s.fileFromFunc.vals, deps);
        if cl.Err? {
          return Err(cl.error);
        }
        var files := FilesOf(cl.value, s.fileFromFunc.vals);
        m := MacroOutput(Relabel(data[k].1, origin), files);
        assert Expanded(data[k].1, origin, s, deps, m) by {
          assert DependencyFiles(files, GetDeps(s.functions, Join(TokenTexts(data[k].1), "\n")), s.fileFromFunc.vals, deps);
        }
      }
      ExpandedStep(data, k, origin, s, deps, out, m);
      if LastOf(data, k) {
        out := out.Put(data[k].0, m);
      }
      k := k + 1;
    }
    assert data[..k] == data;
    return Ok(out);
  }

  // --------------------------------------------------------------- moving

  /**
   * What the renaming phases change: the files of the build, the renames of
   * the current phase, where each compiled file went, the file of each
   * linked reference, and the linked references in order.
   */
  datatype Linking = Linking(files: Dict<string>, lookup: Dict<string>, transforms: map<string, string>,
                             fileFromFunc: Dict<string>, functions: seq<string>)
  {
    ghost predicate Valid() {
      files.Valid() && lookup.Valid() && fileFromFunc.Valid() && NonEmptyKeys(lookup)
    }
  }

  /**
   * One move: the text of `func` goes to the file of `ref` and `func` is
   * deleted, `key` is to be renamed `ref`, `func` is recorded as gone to that
   * file, and `ref` is linked to it. (The linker only moves names that are
   * files; any other name would move an empty text.)
   */
  function MoveTo(s: Linking, func: string, key: string, ref: string): (t: Linking)
    requires s.Valid() && |key| > 0 && StartsWith(ref, "lib:")
    ensures t.Valid()
    ensures forall x :: x in s.files.vals && x != func ==> x in t.files.vals
    ensures forall x :: x in t.files.vals && x != Location(ref) ==> x in s.files.vals && t.files.vals[x] == s.files.vals[x]
    ensures func in s.files.vals && Location(ref) != func ==>
              Location(ref) in t.files.vals && t.files.vals[Location(ref)] == s.files.vals[func]
    ensures func !in t.files.vals
    ensures t.lookup.vals == s.lookup.vals[key := ref] && t.lookup.keys == Insert(s.lookup.keys, key)
    ensures t.transforms == s.transforms[func := Location(ref)]
    ensures t.fileFromFunc.vals == s.fileFromFunc.vals[ref := Location(ref)]
    ensures t.functions == s.functions + [ref]
  {
    var file := Location(ref);
    var text := if func in s.files.vals then s.files.vals[func] else "";
    Linking(s.files.Put(file, text).Remove(func), s.lookup.Put(key, ref),
            s.transforms[func := file], s.fileFromFunc.Put(ref, file), s.functions + [ref])
  }

  /** The move of one generated function to `lib:<UID>/int/<id>_`; a path without an id is an error. */
  function GeneratedMove(s: Linking, uid: string, func: string): (r: Result<Linking, LinkError>)
    requires s.Valid()
    ensures r.Ok? ==> r.value.Valid() && forall x :: x in s.files.vals && x != func ==> x in r.value.files.vals
  {
    var p := ParsePath(func);
    if p.Err? then Err(p.error)
    else
      IntLocation(uid, p.value.stem);
      Ok(MoveTo(s, func, OldReference(p.value), IntReference(uid, p.value.stem)))
  }

  /** The first phase: the generated functions moved in order, up to the first error. */
  function GeneratedMoves(s: Linking, uid: string, gen: seq<string>): (r: Result<Linking, LinkError>)
    requires s.Valid()
    ensures r.Ok? ==> r.value.Valid()
    decreases |gen|
  {
    if gen == [] then Ok(s)
    else
      var t := GeneratedMove(s, uid, gen[0]);
      if t.Err? then t else GeneratedMoves(t.value, uid, gen[1..])
  }

  /** The number of the next function file of the library's own, once `func` has been moved. */
  function NextNumber(n: nat, func: string): nat {
    if IsFunctionFile(func) then n + 1 else n
  }

  /**
   * The move of one of the library's own files: a function file becomes the
   * `n`-th numbered function `lib:<UID>/ext/<n>_`, any other file stays; a
   * function path without an id is an error.
   */
  function UserMove(s: Linking, uid: string, n: nat, func: string): (r: Result<Linking, LinkError>)
    requires s.Valid()
    ensures r.Ok? ==> r.value.Valid() && forall x :: x in s.files.vals && x != func ==> x in r.value.files.vals
  {
    if !IsFunctionFile(func) then Ok(s)
    else
      var p := ParsePath(func);
      if p.Err? then Err(p.error)
      else
        ExtLocation(uid, n);
        Ok(MoveTo(s, func, OldReference(p.value), ExtReference(uid, n)))
  }

  /** The second phase: the library's own files moved in order, numbered from `n`, up to the first error. */
  function UserMoves(s: Linking, uid: string, n: nat, user: seq<string>): (r: Result<Linking, LinkError>)
    requires s.Valid()
    ensures r.Ok? ==> r.value.Valid()
    decreases |user|
  {
    if user == [] then Ok(s)
    else
      var t := UserMove(s, uid, n, user[0]);
      if t.Err? then t else UserMoves(t.value, uid, NextNumber(n, user[0]), user[1..])
  }

  lemma PrefixSnoc(xs: seq<string>, i: nat)
    requires i < |xs|
    ensures forall x :: x in xs[..i + 1] <==> x in xs[..i] || x == xs[i]
  {
    assert xs[..i + 1] == xs[..i] + [xs[i]];
  }

  lemma DistinctTail(xs: seq<string>)
    requires xs != [] && Distinct(xs)
    ensures Distinct(xs[1..]) && xs[0] !in xs[1..]
  {
    forall i, j | 0 <= i < j < |xs| - 1
      ensures xs[1..][i] != xs[1..][j]
    {
      assert xs[1..][i] == xs[i + 1] && xs[1..][j] == xs[j + 1];
    }
  }

  /** The new references of the generated functions, in order. */
  function IntReferences(uid: string, gen: seq<string>): (r: seq<string>)
    requires forall g :: g in gen ==> ParsePath(g).Ok?
    ensures |r| == |gen| && forall i :: 0 <= i < |gen| ==> r[i] == IntReference(uid, ParsePath(gen[i]).value.stem)
  {
    if gen == [] then [] else [IntReference(uid, ParsePath(gen[0]).value.stem)] + IntReferences(uid, gen[1..])
  }

  /** The first move of a successful first phase, and the phase that remains. */
  lemma GeneratedStep(s: Linking, uid: string, gen: seq<string>) returns (t: Linking)
    requires s.Valid() && gen != [] && GeneratedMoves(s, uid, gen).Ok?
    ensures ParsePath(gen[0]).Ok? && GeneratedMove(s, uid, gen[0]) == Ok(t) && t.Valid()
    ensures GeneratedMoves(s, uid, gen) == GeneratedMoves(t, uid, gen[1..])
    ensures t.functions == s.functions + [IntReference(uid, ParsePath(gen[0]).value.stem)]
    ensures t.transforms == s.transforms[gen[0] := IntFile(uid, ParsePath(gen[0]).value.stem)]
    ensures forall x :: x in s.files.vals && x != gen[0] ==> x in t.files.vals
  {
    t := GeneratedMove(s, uid, gen[0]).value;
    IntLocation(uid, ParsePath(gen[0]).value.stem);
  }

  /** The first phase fails exactly when some generated function's path has no id. */
  lemma {:induction false} GeneratedOutcome(s: Linking, uid: string, gen: seq<string>)
    requires s.Valid()
    ensures GeneratedMoves(s, uid, gen).Ok? <==> forall g :: g in gen ==> ParsePath(g).Ok?
    decreases |gen|
  {
    if gen != [] {
      var t := GeneratedMove(s, uid, gen[0]);
      if t.Ok? {
        GeneratedOutcome(t.value, uid, gen[1..]);
        assert forall g :: g in gen ==> g == gen[0] || g in gen[1..];
      }
    }
  }

  /** After the first phase the linked references are those before it followed by one per generated function, in order. */
  lemma {:induction false} GeneratedFunctions(s: Linking, uid: string, gen: seq<string>)
    requires s.Valid() && GeneratedMoves(s, uid, gen).Ok?
    ensures (forall g :: g in gen ==> ParsePath(g).Ok?)
    ensures GeneratedMoves(s, uid, gen).value.functions == s.functions + IntReferences(uid, gen)
    decreases |gen|
  {
    GeneratedOutcome(s, uid, gen);
    if gen != [] {
      var t := GeneratedStep(s, uid, gen);
      GeneratedFunctions(t, uid, gen[1..]);
      var ref := IntReference(uid, ParsePath(gen[0]).value.stem);
      assert IntReferences(uid, gen) == [ref] + IntReferences(uid, gen[1..]);
      ConcatAssoc(s.functions, [ref], IntReferences(uid, gen[1..]));
    }
  }

  lemma ConcatAssoc(a: seq<string>, b: seq<string>, c: seq<string>)
    ensures a + b + c == a + (b + c)
  {
  }

  /** The first phase records nothing for a name that is not a generated function. */
  lemma {:induction false} GeneratedTransformsKept(s: Linking, uid: string, gen: seq<string>, x: string)
    requires s.Valid() && GeneratedMoves(s, uid, gen).Ok? && x !in gen
    ensures var t := GeneratedMoves(s, uid, gen).value.transforms;
            (x in t <==> x in s.transforms) && (x in s.transforms ==> t[x] == s.transforms[x])
    decreases |gen|
  {
    if gen != [] {
      var t := GeneratedStep(s, uid, gen);
      GeneratedTransformsKept(t, uid, gen[1..], x);
    }
  }

  /** The first phase records each generated function as gone to the file of its new reference. */
  lemma {:induction false} GeneratedTransformAt(s: Linking, uid: string, gen: seq<string>, i: nat)
    requires s.Valid() && GeneratedMoves(s, uid, gen).Ok? && i < |gen| && gen[i] !in gen[i + 1..]
    ensures var t := GeneratedMoves(s, uid, gen).value.transforms;
            ParsePath(gen[i]).Ok? && gen[i] in t && t[gen[i]] == IntFile(uid, ParsePath(gen[i]).value.stem)
    decreases |gen|
  {
    if i == 0 {
      GeneratedTransformFirst(s, uid, gen);
    } else {
      var t := GeneratedStep(s, uid, gen);
      assert gen[1..][i - 1] == gen[i] && gen[1..][i..] == gen[i + 1..];
      GeneratedTransformAt(t, uid, gen[1..], i - 1);
    }
  }

  lemma GeneratedTransformFirst(s: Linking, uid: string, gen: seq<string>)
    requires s.Valid() && GeneratedMoves(s, uid, gen).Ok? && gen != [] && gen[0] !in gen[1..]
    ensures var t := GeneratedMoves(s, uid, gen).value.transforms;
            ParsePath(gen[0]).Ok? && gen[0] in t && t[gen[0]] == IntFile(uid, ParsePath(gen[0]).value.stem)
  {
    var t := GeneratedStep(s, uid, gen);
    GeneratedTransformsKept(t, uid, gen[1..], gen[0]);
  }

  /** The first phase deletes no file but the generated functions. */
  lemma {:induction false} GeneratedKeeps(s: Linking, uid: string, gen: seq<string>, x: string)
    requires s.Valid() && GeneratedMoves(s, uid, gen).Ok? && x in s.files.vals && x !in gen
    ensures x in GeneratedMoves(s, uid, gen).value.files.vals
    decreases |gen|
  {
    if gen != [] {
      var t := GeneratedStep(s, uid, gen);
      GeneratedKeeps(t, uid, gen[1..], x);
    }
  }

  /** The same, for every one of `user`. */
  lemma GeneratedKeepAll(s: Linking, uid: string, gen: seq<string>, user: seq<string>)
    requires s.Valid() && GeneratedMoves(s, uid, gen).Ok?
    requires forall u :: u in user ==> u in s.files.vals && u !in gen
    ensures forall u :: u in user ==> u in GeneratedMoves(s, uid, gen).value.files.vals
  {
    forall u | u in user
      ensures u in GeneratedMoves(s, uid, gen).value.files.vals
    {
      GeneratedKeeps(s, uid, gen, u);
    }
  }


  /** The key the old reference of a compiled file is renamed by, when its path has an id. */
  function LookupKey(func: string): (k: Option<string>)
    ensures k.Some? <==> ParsePath(func).Ok?
  {
    var p := ParsePath(func);
    if p.Err? then None else Some(OldReference(p.value))
  }

  /**
   * No name of `xs` that is renamed shares the key `k`; with `filesOnly`
   * only function files are renamed.
   */
  predicate KeyUnused(xs: seq<string>, k: string, filesOnly: bool) {
    forall j :: 0 <= j < |xs| && (!filesOnly || IsFunctionFile(xs[j])) ==> LookupKey(xs[j]) != Some(k)
  }

  /** No renamed name after position `i` shares the key of `xs[i]`: its rename is the one the lookup keeps. */
  predicate KeyLast(xs: seq<string>, i: nat, filesOnly: bool)
    requires i < |xs|
  {
    forall j :: i < j < |xs| && (!filesOnly || IsFunctionFile(xs[j])) ==> LookupKey(xs[j]) != LookupKey(xs[i])
  }

  lemma KeyUnusedTail(xs: seq<string>, k: string, filesOnly: bool)
    requires xs != [] && KeyUnused(xs, k, filesOnly)
    ensures KeyUnused(xs[1..], k, filesOnly)
  {
    forall j | 0 <= j < |xs| - 1
      ensures xs[1..][j] == xs[j + 1]
    {
    }
  }

  lemma KeyLastFirst(xs: seq<string>, filesOnly: bool)
    requires xs != [] && KeyLast(xs, 0, filesOnly) && LookupKey(xs[0]).Some?
    ensures KeyUnused(xs[1..], LookupKey(xs[0]).value, filesOnly)
  {
    forall j | 0 <= j < |xs| - 1
      ensures xs[1..][j] == xs[j + 1]
    {
    }
  }

  lemma KeyLastTail(xs: seq<string>, i: nat, filesOnly: bool)
    requires 0 < i < |xs| && KeyLast(xs, i, filesOnly)
    ensures xs[1..][i - 1] == xs[i] && KeyLast(xs[1..], i - 1, filesOnly)
  {
    forall j | 0 <= j < |xs| - 1
      ensures xs[1..][j] == xs[j + 1]
    {
    }
  }

  /** The first phase leaves the rename of a key no generated function has as it was. */
  lemma {:induction false} GeneratedLookupKept(s: Linking, uid: string, gen: seq<string>, k: string)
    requires s.Valid() && GeneratedMoves(s, uid, gen).Ok? && KeyUnused(gen, k, false)
    ensures var l := GeneratedMoves(s, uid, gen).value.lookup.vals;
            (k in l <==> k in s.lookup.vals) && (k in s.lookup.vals ==> l[k] == s.lookup.vals[k])
    decreases |gen|
  {
    if gen != [] {
      var t := GeneratedStep(s, uid, gen);
      assert LookupKey(gen[0]) != Some(k);
      KeyUnusedTail(gen, k, false);
      GeneratedLookupKept(t, uid, gen[1..], k);
    }
  }

  /**
   * After the first phase the lookup renames the key of each generated
   * function to its new reference, unless a later one has the same key.
   */
  lemma {:induction false} GeneratedLookupAt(s: Linking, uid: string, gen: seq<string>, i: nat)
    requires s.Valid() && GeneratedMoves(s, uid, gen).Ok? && i < |gen| && KeyLast(gen, i, false)
    ensures ParsePath(gen[i]).Ok?
    ensures var l := GeneratedMoves(s, uid, gen).value.lookup.vals;
            var k := OldReference(ParsePath(gen[i]).value);
            k in l && l[k] == IntReference(uid, ParsePath(gen[i]).value.stem)
    decreases |gen|
  {
    var t := GeneratedStep(s, uid, gen);
    if i == 0 {
      KeyLastFirst(gen, false);
      GeneratedLookupKept(t, uid, gen[1..], OldReference(ParsePath(gen[0]).value));
    } else {
      KeyLastTail(gen, i, false);
      GeneratedLookupAt(t, uid, gen[1..], i - 1);
    }
  }

  /** The first move of a successful second phase, and the phase that remains. */
  lemma UserStep(s: Linking, uid: string, n: nat, user: seq<string>) returns (t: Linking)
    requires s.Valid() && user != [] && UserMoves(s, uid, n, user).Ok?
    ensures UserMove(s, uid, n, user[0]) == Ok(t) && t.Valid()
    ensures UserMoves(s, uid, n, user) == UserMoves(t, uid, NextNumber(n, user[0]), user[1..])
    ensures IsFunctionFile(user[0]) ==> ParsePath(user[0]).Ok? && t.transforms == s.transforms[user[0] := ExtFile(uid, n)]
    ensures IsFunctionFile(user[0]) ==> t.functions == s.functions + [ExtReference(uid, n)]
    ensures !IsFunctionFile(user[0]) ==> t == s
    ensures forall x :: x in s.files.vals && x != user[0] ==> x in t.files.vals
  {
    t := UserMove(s, uid, n, user[0]).value;
    ExtLocation(uid, n);
  }

  /** The first move of a successful second phase when it is a function file. */
  lemma UserStepCounted(s: Linking, uid: string, n: nat, user: seq<string>) returns (t: Linking)
    requires s.Valid() && user != [] && UserMoves(s, uid, n, user).Ok? && IsFunctionFile(user[0])
    ensures t.Valid() && UserMoves(s, uid, n, user) == UserMoves(t, uid, n + 1, user[1..])
    ensures ParsePath(user[0]).Ok? && t.transforms == s.transforms[user[0] := ExtFile(uid, n)]
    ensures t.functions == s.functions + [ExtReference(uid, n)]
    ensures t.lookup.vals == s.lookup.vals[OldReference(ParsePath(user[0]).value) := ExtReference(uid, n)]
  {
    t := UserMove(s, uid, n, user[0]).value;
    ExtLocation(uid, n);
  }

  /** The second phase fails exactly when some function file of the library's own has a path without an id. */
  lemma {:induction false} UserOutcome(s: Linking, uid: string, n: nat, user: seq<string>)
    requires s.Valid()
    ensures UserMoves(s, uid, n, user).Ok? <==> forall u :: u in user && IsFunctionFile(u) ==> ParsePath(u).Ok?
    decreases |user|
  {
    if user != [] {
      var t := UserMove(s, uid, n, user[0]);
      if t.Ok? {
        UserOutcome(t.value, uid, NextNumber(n, user[0]), user[1..]);
        assert forall u :: u in user ==> u == user[0] || u in user[1..];
      }
    }
  }

  lemma ExtReferencesCons(pre: seq<string>, mid: seq<string>, post: seq<string>, uid: string, n: nat, c: nat)
    requires mid == pre + [ExtReference(uid, n)] && post == mid + ExtReferences(uid, n + 1, c)
    ensures post == pre + ExtReferences(uid, n, c + 1)
  {
    ConcatAssoc(pre, [ExtReference(uid, n)], ExtReferences(uid, n + 1, c));
  }

  /** The second phase links the numbered references `n`, `n + 1`, … one per function file, in order. */
  lemma {:induction false} UserFunctions(s: Linking, uid: string, n: nat, user: seq<string>)
    requires s.Valid() && UserMoves(s, uid, n, user).Ok?
    ensures UserMoves(s, uid, n, user).value.functions == s.functions + ExtReferences(uid, n, CountFunctionFiles(user))
    decreases |user|, 1
  {
    if user != [] {
      if IsFunctionFile(user[0]) {
        UserFunctionsCounted(s, uid, n, user);
      } else {
        UserFunctionsSkipped(s, uid, n, user);
      }
    }
  }

  lemma {:induction false} UserFunctionsCounted(s: Linking, uid: string, n: nat, user: seq<string>)
    requires s.Valid() && UserMoves(s, uid, n, user).Ok? && user != [] && IsFunctionFile(user[0])
    ensures UserMoves(s, uid, n, user).value.functions == s.functions + ExtReferences(uid, n, CountFunctionFiles(user))
    decreases |user|, 0
  {
    var c := CountFunctionFiles(user[1..]);
    var r := UserMoves(s, uid, n, user);
    var t := UserStepCounted(s, uid, n, user);
    assert r.value.functions == t.functions + ExtReferences(uid, n + 1, c) by {
      UserFunctions(t, uid, n + 1, user[1..]);
    }
    assert r.value.functions == s.functions + ExtReferences(uid, n, c + 1) by {
      ExtReferencesCons(s.functions, t.functions, r.value.functions, uid, n, c);
    }
    assert CountFunctionFiles(user) == c + 1;
  }

  lemma {:induction false} UserFunctionsSkipped(s: Linking, uid: string, n: nat, user: seq<string>)
    requires s.Valid() && UserMoves(s, uid, n, user).Ok? && user != [] && !IsFunctionFile(user[0])
    ensures UserMoves(s, uid, n, user).value.functions == s.functions + ExtReferences(uid, n, CountFunctionFiles(user))
    decreases |user|, 0
  {
    var t := UserStep(s, uid, n, user);
    UserFunctions(t, uid, n, user[1..]);
  }

  /** The second phase records nothing for a name that is not one of the library's own files. */
  lemma {:induction false} UserTransformsKept(s: Linking, uid: string, n: nat, user: seq<string>, x: string)
    requires s.Valid() && UserMoves(s, uid, n, user).Ok? && x !in user
    ensures var t := UserMoves(s, uid, n, user).value.transforms;
            (x in t <==> x in s.transforms) && (x in s.transforms ==> t[x] == s.transforms[x])
    decreases |user|
  {
    if user != [] {
      var t := UserStep(s, uid, n, user);
      UserTransformsKept(t, uid, NextNumber(n, user[0]), user[1..], x);
    }
  }

  /**
   * The second phase records each function file of the library's own as gone
   * to the numbered file counting the function files before it.
   */
  lemma {:induction false} UserTransformAt(s: Linking, uid: string, n: nat, user: seq<string>, i: nat, m: nat)
    requires s.Valid() && UserMoves(s, uid, n, user).Ok? && i < |user| && IsFunctionFile(user[i]) && user[i] !in user[i + 1..]
    requires m == n + CountFunctionFiles(user[..i])
    ensures var t := UserMoves(s, uid, n, user).value.transforms;
            ParsePath(user[i]).Ok? && user[i] in t && t[user[i]] == ExtFile(uid, m)
    decreases |user|, 1
  {
    if i == 0 {
      UserTransformFirst(s, uid, n, user, m);
    } else {
      UserTransformLater(s, uid, n, user, i, m);
    }
  }

  lemma {:induction false} UserTransformLater(s: Linking, uid: string, n: nat, user: seq<string>, i: nat, m: nat)
    requires s.Valid() && UserMoves(s, uid, n, user).Ok? && 0 < i < |user| && IsFunctionFile(user[i]) && user[i] !in user[i + 1..]
    requires m == n + CountFunctionFiles(user[..i])
    ensures var t := UserMoves(s, uid, n, user).value.transforms;
            ParsePath(user[i]).Ok? && user[i] in t && t[user[i]] == ExtFile(uid, m)
    decreases |user|, 0
  {
    var t := UserStep(s, uid, n, user);
    CountPrefix(n, user, i);
    assert user[1..][i - 1] == user[i] && user[1..][i..] == user[i + 1..];
    UserTransformAt(t, uid, NextNumber(n, user[0]), user[1..], i - 1, m);
  }

  /** Counting the function files before position `i` from `n` is counting from the next number past the first. */
  lemma CountPrefix(n: nat, user: seq<string>, i: nat)
    requires 0 < i <= |user|
    ensures n + CountFunctionFiles(user[..i]) == NextNumber(n, user[0]) + CountFunctionFiles(user[1..][..i - 1])
  {
    assert user[..i][1..] == user[1..][..i - 1];
  }

  lemma UserTransformFirst(s: Linking, uid: string, n: nat, user: seq<string>, m: nat)
    requires s.Valid() && UserMoves(s, uid, n, user).Ok? && user != [] && IsFunctionFile(user[0]) && user[0] !in user[1..]
    requires m == n + CountFunctionFiles(user[..0])
    ensures var t := UserMoves(s, uid, n, user).value.transforms;
            ParsePath(user[0]).Ok? && user[0] in t && t[user[0]] == ExtFile(uid, m)
  {
    assert m == n by {
      assert user[..0] == [];
    }
    var r := UserMoves(s, uid, n, user);
    assert ParsePath(user[0]).Ok? && user[0] in r.value.transforms && r.value.transforms[user[0]] == ExtFile(uid, n) by {
      var t := UserStepCounted(s, uid, n, user);
      UserTransformsKept(t, uid, n + 1, user[1..], user[0]);
    }
  }

  /** The second phase deletes no file but the function files of the library's own. */
  lemma {:induction false} UserKeeps(s: Linking, uid: string, n: nat, user: seq<string>, x: string)
    requires s.Valid() && UserMoves(s, uid, n, user).Ok? && x in s.files.vals && (x !in user || !IsFunctionFile(x))
    ensures x in UserMoves(s, uid, n, user).value.files.vals
    decreases |user|
  {
    if user != [] {
      var t := UserStep(s, uid, n, user);
      UserKeeps(t, uid, NextNumber(n, user[0]), user[1..], x);
    }
  }

  /** The second phase leaves the rename of a key no function file of the library's own has as it was. */
  lemma {:induction false} UserLookupKept(s: Linking, uid: string, n: nat, user: seq<string>, k: string)
    requires s.Valid() && UserMoves(s, uid, n, user).Ok? && KeyUnused(user, k, true)
    ensures var l := UserMoves(s, uid, n, user).value.lookup.vals;
            (k in l <==> k in s.lookup.vals) && (k in s.lookup.vals ==> l[k] == s.lookup.vals[k])
    decreases |user|
  {
    if user != [] {
      var t := UserStep(s, uid, n, user);
      assert IsFunctionFile(user[0]) ==> LookupKey(user[0]) != Some(k);
      KeyUnusedTail(user, k, true);
      UserLookupKept(t, uid, NextNumber(n, user[0]), user[1..], k);
    }
  }

  /**
   * After the second phase the lookup renames the key of each function file
   * of the library's own to its numbered reference, unless a later one has
   * the same key.
   */
  lemma {:induction false} UserLookupAt(s: Linking, uid: string, n: nat, user: seq<string>, i: nat, m: nat)
    requires s.Valid() && UserMoves(s, uid, n, user).Ok? && i < |user| && IsFunctionFile(user[i])
    requires m == n + CountFunctionFiles(user[..i]) && KeyLast(user, i, true)
    ensures ParsePath(user[i]).Ok?
    ensures var l := UserMoves(s, uid, n, user).value.lookup.vals;
            var k := OldReference(ParsePath(user[i]).value);
            k in l && l[k] == ExtReference(uid, m)
    decreases |user|
  {
    if i == 0 {
      assert m == n by {
        assert user[..0] == [];
      }
      var t := UserStepCounted(s, uid, n, user);
      KeyLastFirst(user, true);
      UserLookupKept(t, uid, n + 1, user[1..], OldReference(ParsePath(user[0]).value));
    } else {
      var t := UserStep(s, uid, n, user);
      CountPrefix(n, user, i);
      KeyLastTail(user, i, true);
      UserLookupAt(t, uid, NextNumber(n, user[0]), user[1..], i - 1, m);
    }
  }

  /** The numbered references from `n` split at any count. */
  lemma {:induction false} ExtReferencesSplit(uid: string, n: nat, a: nat, b: nat)
    ensures ExtReferences(uid, n, a + b) == ExtReferences(uid, n, a) + ExtReferences(uid, n + a, b)
  {
    var l, r := ExtReferences(uid, n, a + b), ExtReferences(uid, n, a) + ExtReferences(uid, n + a, b);
    forall j | 0 <= j < a + b
      ensures l[j] == r[j]
    {
      ExtReferenceAt(uid, n, a + b, j);
      if j < a {
        ExtReferenceAt(uid, n, a, j);
      } else {
        ExtReferenceAt(uid, n + a, b, j - a);
      }
    }
  }

  /** The renames of a phase applied, in the order recorded, to the text of every file. */
  function Applied(s: Linking): (r: Linking)
    requires s.Valid()
    ensures r.Valid() && r.files.keys == s.files.keys && r.files.vals.Keys == s.files.vals.Keys
  {
    AllPresent(s.lookup);
    s.(files := RewriteFiles(s.files, s.lookup.keys, s.lookup.vals))
  }

  /** The renames of a phase applied to the text of the JSON files, each once per file of the build. */
  function AppliedJson(s: Linking, json: seq<JsonFile>): (r: seq<JsonFile>)
    requires s.Valid()
    ensures |r| == |json|
  {
    AllPresent(s.lookup);
    RewriteJson(json, s.lookup.keys, s.lookup.vals, |s.files.keys|)
  }

  /** `dependencies`: the direct dependencies of every file of `s`. */
  function Dependencies(s: Linking): (d: map<string, seq<string>>)
    requires s.Valid()
    ensures d.Keys == s.files.vals.Keys
  {
    map f | f in s.files.vals :: DirectDeps(s.functions, s.files.vals[f], OwnReference(s.fileFromFunc, f))
  }

  /** `a` and `b` hold the same JSON files with the same text, in the same order. */
  predicate SameText(a: seq<JsonFile>, b: seq<JsonFile>) {
    |a| == |b| && forall j :: 0 <= j < |a| ==> a[j].name == b[j].name && a[j].content == b[j].content
  }

  /** The files of the build before anything is moved. */
  function Start(vfs: seq<(string, seq<(string, string)>)>): (s: Linking)
    ensures s.Valid()
  {
    Linking(Merged(vfs), EmptyDict(), map[], EmptyDict(), [])
  }

  /** The generated functions of the build, in file order. */
  function GeneratedNames(vfs: seq<(string, seq<(string, string)>)>): seq<string> {
    Select(Merged(vfs).keys, IsGenerated)
  }

  /** The library's own files, in file order. */
  function UserNames(vfs: seq<(string, seq<(string, string)>)>): seq<string> {
    Select(Merged(vfs).keys, IsUser)
  }

  /** The state the first phase leaves: its renames applied and the lookup emptied. */
  function AfterGenerated(uid: string, vfs: seq<(string, seq<(string, string)>)>): (r: Result<Linking, LinkError>)
    ensures r.Ok? ==> r.value.Valid()
  {
    var s1 := GeneratedMoves(Start(vfs), uid, GeneratedNames(vfs));
    if s1.Err? then s1 else Ok(Applied(s1.value).(lookup := EmptyDict()))
  }

  /**
   * What the linker works out before it looks at the target: the state
   * once both phases have moved their functions and applied their renames,
   * and the JSON files with both phases' renames applied to their text.
   */
  function Prepared(uid: string, vfs: seq<(string, seq<(string, string)>)>): (r: Result<(Linking, seq<JsonFile>), LinkError>)
    ensures r.Ok? ==> r.value.0.Valid()
  {
    var s1 := GeneratedMoves(Start(vfs), uid, GeneratedNames(vfs));
    if s1.Err? then Err(s1.error)
    else
      var json1 := AppliedJson(s1.value, JsonOf(Merged(vfs)));
      var s2 := UserMoves(Applied(s1.value).(lookup := EmptyDict()), uid, 0, UserNames(vfs));
      if s2.Err? then Err(s2.error)
      else Ok((Applied(s2.value), AppliedJson(s2.value, json1)))
  }

  /** The second phase starts where the first one ends. */
  lemma PreparedSplit(uid: string, vfs: seq<(string, seq<(string, string)>)>)
    ensures AfterGenerated(uid, vfs).Err? ==> Prepared(uid, vfs).Err?
    ensures AfterGenerated(uid, vfs).Ok? ==>
              (Prepared(uid, vfs).Ok? <==> UserMoves(AfterGenerated(uid, vfs).value, uid, 0, UserNames(vfs)).Ok?)
    ensures Prepared(uid, vfs).Ok? ==>
              (AfterGenerated(uid, vfs).Ok? && UserMoves(AfterGenerated(uid, vfs).value, uid, 0, UserNames(vfs)).Ok?
               && Prepared(uid, vfs).value.0 == Applied(UserMoves(AfterGenerated(uid, vfs).value, uid, 0, UserNames(vfs)).value))
  {
  }

  /** No file of the build is both a generated function and one of the library's own. */
  lemma NamesApart(vfs: seq<(string, seq<(string, string)>)>)
    ensures Distinct(GeneratedNames(vfs)) && Distinct(UserNames(vfs))
    ensures forall u :: u in UserNames(vfs) ==> u !in GeneratedNames(vfs)
  {
    SelectDistinct(Merged(vfs).keys, IsGenerated);
    SelectDistinct(Merged(vfs).keys, IsUser);
  }

  /**
   * Linking succeeds as far as the renaming goes exactly when every
   * generated function, and every function file of the library's own, has a
   * path with an id.
   */
  lemma PreparedOutcome(uid: string, vfs: seq<(string, seq<(string, string)>)>)
    ensures Prepared(uid, vfs).Ok? <==>
              (forall g :: g in GeneratedNames(vfs) ==> ParsePath(g).Ok?)
              && (forall u :: u in UserNames(vfs) && IsFunctionFile(u) ==> ParsePath(u).Ok?)
  {
    PreparedSplit(uid, vfs);
    GeneratedOutcome(Start(vfs), uid, GeneratedNames(vfs));
    if AfterGenerated(uid, vfs).Ok? {
      UserOutcome(AfterGenerated(uid, vfs).value, uid, 0, UserNames(vfs));
    }
  }

  /**
   * The linked references, in order: one `lib:<UID>/int/<id>_` per generated
   * function, then `lib:<UID>/ext/0_`, `lib:<UID>/ext/1_`, … one per
   * function file of the library's own.
   */
  lemma PreparedFunctions(uid: string, vfs: seq<(string, seq<(string, string)>)>)
    requires Prepared(uid, vfs).Ok?
    ensures forall g :: g in GeneratedNames(vfs) ==> ParsePath(g).Ok?
    ensures Prepared(uid, vfs).value.0.functions
            == IntReferences(uid, GeneratedNames(vfs)) + ExtReferences(uid, 0, CountFunctionFiles(UserNames(vfs)))
  {
    PreparedSplit(uid, vfs);
    var gen, user := GeneratedNames(vfs), UserNames(vfs);
    GeneratedOutcome(Start(vfs), uid, gen);
    var ints, exts := IntReferences(uid, gen), ExtReferences(uid, 0, CountFunctionFiles(user));
    var s1 := AfterGenerated(uid, vfs).value;
    assert s1.functions == ints by {
      GeneratedFunctions(Start(vfs), uid, gen);
      assert [] + ints == ints;
    }
    var m2 := UserMoves(s1, uid, 0, user).value;
    assert m2.functions == ints + exts by {
      UserFunctions(s1, uid, 0, user);
    }
    assert Prepared(uid, vfs).value.0.functions == m2.functions;
  }

  /** Each generated function is recorded as gone to the file of its `int` reference. */
  lemma PreparedGeneratedTransform(uid: string, vfs: seq<(string, seq<(string, string)>)>, i: nat)
    requires Prepared(uid, vfs).Ok? && i < |GeneratedNames(vfs)|
    ensures var g := GeneratedNames(vfs)[i];
            var t := Prepared(uid, vfs).value.0.transforms;
            ParsePath(g).Ok? && g in t && t[g] == IntFile(uid, ParsePath(g).value.stem)
  {
    var gen, user := GeneratedNames(vfs), UserNames(vfs);
    PreparedSplit(uid, vfs);
    NamesApart(vfs);
    DistinctAfter(gen, i);
    GeneratedTransformAt(Start(vfs), uid, gen, i);
    UserTransformsKept(AfterGenerated(uid, vfs).value, uid, 0, user, gen[i]);
  }

  /**
   * Each function file of the library's own is recorded as gone to the
   * numbered file that counts the function files before it.
   */
  lemma PreparedUserTransform(uid: string, vfs: seq<(string, seq<(string, string)>)>, i: nat)
    requires Prepared(uid, vfs).Ok? && i < |UserNames(vfs)| && IsFunctionFile(UserNames(vfs)[i])
    ensures var u := UserNames(vfs)[i];
            var t := Prepared(uid, vfs).value.0.transforms;
            ParsePath(u).Ok? && u in t && t[u] == ExtFile(uid, CountFunctionFiles(UserNames(vfs)[..i]))
  {
    var user := UserNames(vfs);
    PreparedSplit(uid, vfs);
    NamesApart(vfs);
    DistinctAfter(user, i);
    UserTransformAt(AfterGenerated(uid, vfs).value, uid, 0, user, i, CountFunctionFiles(user[..i]));
  }

  /** The two lemmas above, for every generated function and every function file of the library's own. */
  lemma PreparedTransforms(uid: string, vfs: seq<(string, seq<(string, string)>)>)
    requires Prepared(uid, vfs).Ok?
    ensures var t := Prepared(uid, vfs).value.0.transforms;
            forall i :: 0 <= i < |GeneratedNames(vfs)| ==>
              var g := GeneratedNames(vfs)[i];
              ParsePath(g).Ok? && g in t && t[g] == IntFile(uid, ParsePath(g).value.stem)
    ensures var t := Prepared(uid, vfs).value.0.transforms;
            forall i :: 0 <= i < |UserNames(vfs)| && IsFunctionFile(UserNames(vfs)[i]) ==>
              var u := UserNames(vfs)[i];
              ParsePath(u).Ok? && u in t && t[u] == ExtFile(uid, CountFunctionFiles(UserNames(vfs)[..i]))
  {
    forall i | 0 <= i < |GeneratedNames(vfs)|
      ensures var g := GeneratedNames(vfs)[i];
              var t := Prepared(uid, vfs).value.0.transforms;
              ParsePath(g).Ok? && g in t && t[g] == IntFile(uid, ParsePath(g).value.stem)
    {
      PreparedGeneratedTransform(uid, vfs, i);
    }
    forall i | 0 <= i < |UserNames(vfs)| && IsFunctionFile(UserNames(vfs)[i])
      ensures var u := UserNames(vfs)[i];
              var t := Prepared(uid, vfs).value.0.transforms;
              ParsePath(u).Ok? && u in t && t[u] == ExtFile(uid, CountFunctionFiles(UserNames(vfs)[..i]))
    {
      PreparedUserTransform(uid, vfs, i);
    }
  }

  lemma DistinctAfter(xs: seq<string>, i: nat)
    requires Distinct(xs) && i < |xs|
    ensures xs[i] !in xs[i + 1..]
  {
    var rest := xs[i + 1..];
    forall j | 0 <= j < |rest|
      ensures rest[j] != xs[i]
    {
      assert rest[j] == xs[i + 1 + j];
    }
  }

  /**
   * The linker's state: the files of the build under their current names,
   * the renames of the current phase, the linked references in order, where
   * each compiled file went, the file of each linked reference, the direct
   * dependencies of each file, and the JSON files.
   */
  class Transform {
    const uid: string
    var files: Dict<string>
    var lookup: Dict<string>
    var functions: seq<string>
    var transforms: map<string, string>
    var fileFromFunc: Dict<string>
    var dependencies: map<string, seq<string>>
    var json: seq<JsonFile>

    /** Every linked reference is `lib:<UID>/…`, lives at its `Location`, and is known by `fileFromFunc`. */
    ghost predicate Valid()
      reads this
    {
      && files.Valid() && lookup.Valid() && fileFromFunc.Valid()
      && NonEmptyKeys(lookup) && LinkedFiles(uid, fileFromFunc.vals) && Recorded(functions, fileFromFunc.vals)
    }

    /** A reference into this library. */
    predicate Linked(r: string) {
      LinkedTo(uid, r)
    }

    constructor(uid: string, vfs: seq<(string, seq<(string, string)>)>)
      ensures Valid() && this.uid == uid && files == Merged(vfs) && json == JsonOf(Merged(vfs))
      ensures lookup == EmptyDict() && functions == [] && transforms == map[] && fileFromFunc == EmptyDict()
      ensures dependencies == map[]
    {
      var d := EmptyDict();
      var i := 0;
      while i < |vfs|
        invariant i <= |vfs| && d == Merged(vfs[..i])
      {
        d := MergeSource(d, vfs[i].1);
        assert vfs[..i + 1][..i] == vfs[..i];
        i := i + 1;
      }
      assert vfs[..i] == vfs;
      this.uid := uid;
      files := d;
      lookup := EmptyDict();
      functions := [];
      transforms := map[];
      fileFromFunc := EmptyDict();
      dependencies := map[];
      json := JsonOf(d);
    }

    /** No file of a linked reference is itself a linked reference. */
    lemma Apart()
      requires Valid()
      ensures PathsApart(fileFromFunc.vals)
    {
      forall k | k in fileFromFunc.vals
        ensures fileFromFunc.vals[k] !in fileFromFunc.vals
      {
        var f := fileFromFunc.vals[k];
        assert f[0] == 'd';
        forall x | x in fileFromFunc.vals
          ensures x != f
        {
          assert Linked(x) && ("lib:" + uid + "/")[0] == 'l';
        }
      }
    }

    /** The part of the state the renaming phases change. */
    function Moved(): Linking
      reads this
    {
      Linking(files, lookup, transforms, fileFromFunc, functions)
    }

    /**
     * The move of a compiled function: its text goes to the file of `ref`,
     * its old name is deleted, the rename `key` → `ref` is recorded, and
     * `ref` is linked to that file.
     */
    method Move(func: string, key: string, ref: string)
      requires Valid() && func in files.vals && |key| > 0 && Linked(ref) && StartsWith(ref, "lib:")
      modifies `files, `lookup, `transforms, `fileFromFunc, `functions
      ensures Valid() && Moved() == MoveTo(old(Moved()), func, key, ref)
    {
      var t := MoveTo(Moved(), func, key, ref);
      RecordKeeps(uid, lookup, functions, fileFromFunc.vals, key, ref);
      assert t.lookup == lookup.Put(key, ref) && t.functions == functions + [ref];
      assert t.fileFromFunc == fileFromFunc.Put(ref, Location(ref));
      Store(t);
    }

    /** The renaming state replaced by `t`. */
    method Store(t: Linking)
      modifies `files, `lookup, `transforms, `fileFromFunc, `functions
      ensures Moved() == t
    {
      files, lookup, transforms, fileFromFunc, functions := t.files, t.lookup, t.transforms, t.fileFromFunc, t.functions;
    }

    /** A generated function moves to `lib:<UID>/int/<id>_`; a path without an id is an error. */
    method MoveGenerated(func: string) returns (r: Outcome<LinkError>)
      requires Valid() && func in files.vals
      modifies `files, `lookup, `transforms, `fileFromFunc, `functions
      ensures Valid()
      ensures var m := GeneratedMove(old(Moved()), uid, func);
              (r.Fail? <==> m.Err?) && (r.Fail? ==> r.error == m.error) && (r.Pass? ==> Moved() == m.value)
    {
      var p := ParsePath(func);
      if p.Err? {
        return Fail(p.error);
      }
      var stem := p.value.stem;
      IntLocation(uid, stem);
      Move(func, OldReference(p.value), IntReference(uid, stem));
      r := Pass;
    }

    /** The library's `n`-th own function moves to `lib:<UID>/ext/<n>_`; a path without an id is an error. */
    method MoveUser(func: string, n: nat) returns (r: Outcome<LinkError>)
      requires Valid() && func in files.vals && IsFunctionFile(func)
      modifies `files, `lookup, `transforms, `fileFromFunc, `functions
      ensures Valid()
      ensures var m := UserMove(old(Moved()), uid, n, func);
              (r.Fail? <==> m.Err?) && (r.Fail? ==> r.error == m.error) && (r.Pass? ==> Moved() == m.value)
    {
      var p := ParsePath(func);
      if p.Err? {
        return Fail(p.error);
      }
      ExtLocation(uid, n);
      Move(func, OldReference(p.value), ExtReference(uid, n));
      r := Pass;
    }

    /** The first phase: every generated function moved, in order, stopping at the first error. */
    method MoveAllGenerated(gen: seq<string>) returns (r: Outcome<LinkError>)
      requires Valid() && Distinct(gen) && forall g :: g in gen ==> g in files.vals
      modifies `files, `lookup, `transforms, `fileFromFunc, `functions
      ensures Valid()
      ensures var m := GeneratedMoves(old(Moved()), uid, gen);
              (r.Fail? <==> m.Err?) && (r.Fail? ==> r.error == m.error) && (r.Pass? ==> Moved() == m.value)
    {
      var i := 0;
      while i < |gen|
        invariant Valid() && i <= |gen|
        invariant GeneratedMoves(old(Moved()), uid, gen) == GeneratedMoves(Moved(), uid, gen[i..])
        invariant forall j :: i <= j < |gen| ==> gen[j] in files.vals
      {
        ghost var before := Moved();
        assert gen[i..][0] == gen[i] && gen[i..][1..] == gen[i + 1..];
        r := MoveGenerated(gen[i]);
        if r.Fail? {
          return;
        }
        forall j | i < j < |gen|
          ensures gen[j] in files.vals
        {
          assert gen[j] != gen[i];
        }
        i := i + 1;
      }
      r := Pass;
    }

    /** The second phase: the library's own function files moved, in order, numbered from 0. */
    method MoveAllUser(user: seq<string>) returns (r: Outcome<LinkError>)
      requires Valid() && Distinct(user) && forall u :: u in user ==> u in files.vals
      modifies `files, `lookup, `transforms, `fileFromFunc, `functions
      ensures Valid()
      ensures var m := UserMoves(old(Moved()), uid, 0, user);
              (r.Fail? <==> m.Err?) && (r.Fail? ==> r.error == m.error) && (r.Pass? ==> Moved() == m.value)
    {
      var usrId: nat := 0;
      var i := 0;
      while i < |user|
        invariant Valid() && i <= |user|
        invariant UserMoves(old(Moved()), uid, 0, user) == UserMoves(Moved(), uid, usrId, user[i..])
        invariant forall j :: i <= j < |user| ==> user[j] in files.vals
      {
        assert user[i..][0] == user[i] && user[i..][1..] == user[i + 1..];
        r, usrId := MoveNextUser(user[i], usrId);
        if r.Fail? {
          return;
        }
        forall j | i < j < |user|
          ensures user[j] in files.vals
        {
          assert user[j] != user[i];
        }
        i := i + 1;
      }
      r := Pass;
    }

    /** One turn of the second phase: a function file is moved under the next number, any other file stays. */
    method MoveNextUser(func: string, n: nat) returns (r: Outcome<LinkError>, next: nat)
      requires Valid() && func in files.vals
      modifies `files, `lookup, `transforms, `fileFromFunc, `functions
      ensures Valid()
      ensures var m := UserMove(old(Moved()), uid, n, func);
              (r.Fail? <==> m.Err?) && (r.Fail? ==> r.error == m.error) && (r.Pass? ==> Moved() == m.value)
      ensures next == NextNumber(n, func)
    {
      next := NextNumber(n, func);
      if IsFunctionFile(func) {
        r := MoveUser(func, n);
      } else {
        r := Pass;
      }
    }

    /** One rename applied to the text of every file, file by file. */
    method ReplaceInFiles(p: string, r: string)
      requires files.Valid() && |p| > 0
      modifies `files
      ensures files.Valid() && files.keys == old(files.keys) && files.vals.Keys == old(files.vals.Keys)
      ensures forall f :: f in files.vals ==> files.vals[f] == ReplaceAll(old(files.vals[f]), p, r)
    {
      var names := files.keys;
      AllPresent(files);
      var j := 0;
      while j < |names|
        invariant j <= |names| && files.Valid() && files.keys == names && files.vals.Keys == old(files.vals.Keys)
        invariant forall f :: f in files.vals ==>
                    files.vals[f] == if f in names[..j] then ReplaceAll(old(files.vals[f]), p, r) else old(files.vals[f])
      {
        var name := names[j];
        assert name !in names[..j];
        assert forall f :: f in names[..j + 1] <==> f in names[..j] || f == name;
        files := files.Put(name, ReplaceAll(files.vals[name], p, r));
        j := j + 1;
      }
      assert names[..j] == names;
    }

    /** One rename applied to the text of every JSON file, once for each file of the build. */
    method ReplaceInJson(p: string, r: string)
      requires |p| > 0
      modifies `json
      ensures |json| == |old(json)|
      ensures forall i :: 0 <= i < |json| ==> json[i] == old(json)[i].(content := Repeat(old(json)[i].content, p, r, |files.keys|))
    {
      var i := 0;
      while i < |json|
        invariant i <= |json| && |json| == |old(json)|
        invariant forall k :: 0 <= k < |json| ==>
                    json[k] == if k < i then old(json)[k].(content := Repeat(old(json)[k].content, p, r, |files.keys|)) else old(json)[k]
      {
        var c := json[i].content;
        var n := 0;
        while n < |files.keys|
          invariant n <= |files.keys| && c == Repeat(json[i].content, p, r, n)
        {
          c := ReplaceAll(c, p, r);
          n := n + 1;
        }
        json := json[i := json[i].(content := c)];
        i := i + 1;
      }
    }

    /** Every recorded rename applied, in the order recorded, to the files and to the JSON files. */
    method ApplyLookup()
      requires Valid()
      modifies `files, `json
      ensures Valid()
      ensures files == RewriteFiles(old(files), lookup.keys, lookup.vals)
      ensures json == RewriteJson(old(json), lookup.keys, lookup.vals, |files.keys|)
    {
      var keys := lookup.keys;
      AllPresent(lookup);
      var i := 0;
      while i < |keys|
        invariant i <= |keys| && Valid()
        invariant files == RewriteFiles(old(files), keys[..i], lookup.vals)
        invariant json == RewriteJson(old(json), keys[..i], lookup.vals, |files.keys|)
      {
        ReplaceInFiles(keys[i], lookup.vals[keys[i]]);
        ReplaceInJson(keys[i], lookup.vals[keys[i]]);
        assert files == RewriteFiles(old(files), keys[..i + 1], lookup.vals) by {
          RewriteFilesSnoc(old(files), keys, lookup.vals, i);
          SameDict(files, RewriteFiles(old(files), keys[..i + 1], lookup.vals));
        }
        assert json == RewriteJson(old(json), keys[..i + 1], lookup.vals, |files.keys|) by {
          RewriteJsonSnoc(old(json), keys, lookup.vals, |files.keys|, i);
        }
        i := i + 1;
      }
      assert keys[..i] == keys;
    }

    /**
     * The direct dependencies of every file: the linked references its text
     * mentions, less the first mention of the file's own reference.
     */
    method ComputeDependencies()
      requires Valid()
      modifies `dependencies
      ensures Valid()
      ensures dependencies.Keys == files.vals.Keys
      ensures forall f :: f in files.vals ==> dependencies[f] == DirectDeps(functions, files.vals[f], OwnReference(fileFromFunc, f))
    {
      dependencies := DependencyLists(functions, files, fileFromFunc);
    }

    /** The flattened dependencies of every JSON file; a reference without a file or dependency list is an error. */
    method JsonDependencies() returns (r: Outcome<LinkError>)
      requires Valid()
      modifies `json
      ensures Valid() && |json| == |old(json)|
      ensures forall i :: 0 <= i < |json| ==> json[i].name == old(json)[i].name && json[i].content == old(json)[i].content
      ensures r.Pass? ==> forall i :: 0 <= i < |json| ==>
                IsClosure(json[i].dependencies, GetDeps(functions, json[i].content), fileFromFunc.vals, dependencies)
      ensures (forall i :: 0 <= i < |json| ==> AllResolve(GetDeps(functions, json[i].content), fileFromFunc.vals, dependencies)) ==> r.Pass?
    {
      var i := 0;
      while i < |json|
        invariant i <= |json| && |json| == |old(json)|
        invariant forall k :: 0 <= k < |json| ==> json[k].name == old(json)[k].name && json[k].content == old(json)[k].content
        invariant forall k :: 0 <= k < i ==>
                    IsClosure(json[k].dependencies, GetDeps(functions, json[k].content), fileFromFunc.vals, dependencies)
      {
        var cl := Flatten(GetDeps(functions, json[i].content), fileFromFunc.vals, dependencies);
        if cl.Err? {
          return Fail(cl.error);
        }
        json := json[i := json[i].(dependencies := cl.value)];
        i := i + 1;
      }
      r := Pass;
    }

    /** `lookup = {}` between the two phases. */
    method ClearLookup()
      requires Valid()
      modifies `lookup
      ensures Valid() && lookup == EmptyDict()
    {
      lookup := EmptyDict();
    }
  }

  /** The references of a closure are references into the library. */
  lemma ClosureLinked(uid: string, cl: seq<string>, entries: seq<string>, fff: map<string, string>, deps: map<string, seq<string>>)
    requires IsClosure(cl, entries, fff, deps) && LinkedFiles(uid, fff)
    ensures forall d :: d in cl ==> LinkedTo(uid, d)
  {
    forall d | d in cl
      ensures LinkedTo(uid, d)
    {
      assert Resolves(d, fff, deps);
    }
  }

  /** Every name in the metadata has a last occurrence. */
  lemma {:induction false} LastIndex(data: seq<(string, seq<MacroToken>)>, name: string)
    requires name in NamesOf(data)
    ensures exists i :: 0 <= i < |data| && LastOf(data, i) && data[i].0 == name
  {
    var k := |data| - 1;
    if data[k].0 == name {
      assert LastOf(data, k);
    } else {
      var front := data[..k];
      assert name in NamesOf(front) by {
        var j :| 0 <= j < |data| && NamesOf(data)[j] == name;
        assert j < k && NamesOf(front)[j] == name;
      }
      LastIndex(front, name);
      var i :| 0 <= i < |front| && LastOf(front, i) && front[i].0 == name;
      assert LastOf(data, i);
    }
  }

  /** The dependencies of every expanded macro are files of the library. */
  lemma MacroOutputsInLibrary(uid: string, data: seq<(string, seq<MacroToken>)>, origin: string, s: Linking,
                              deps: map<string, seq<string>>, out: Dict<MacroOutput>)
    requires LinkedFiles(uid, s.fileFromFunc.vals)
    requires forall name :: name in out.vals ==> name in NamesOf(data)
    requires forall i :: 0 <= i < |data| && LastOf(data, i) ==>
               data[i].0 in out.vals && Expanded(data[i].1, origin, s, deps, out.vals[data[i].0])
    ensures forall name :: name in out.vals ==> InLibrary(uid, out.vals[name].dependencies)
  {
    forall name | name in out.vals
      ensures InLibrary(uid, out.vals[name].dependencies)
    {
      LastIndex(data, name);
      var i :| 0 <= i < |data| && LastOf(data, i) && data[i].0 == name;
      assert Expanded(data[i].1, origin, s, deps, out.vals[name]);
      DependencyFilesInLibrary(uid, out.vals[name].dependencies, GetDeps(s.functions, Join(TokenTexts(data[i].1), "\n")),
                               s.fileFromFunc.vals, deps);
    }
  }

  /** The dependencies of every output function are files of the library. */
  lemma FunctionOutputsInLibrary(uid: string, current: seq<string>, s: Linking, deps: map<string, seq<string>>,
                                 out: Dict<FunctionOutput>)
    requires LinkedFiles(uid, s.fileFromFunc.vals)
    requires forall f :: f in out.vals ==> Produced(current, s, deps, f, out.vals[f])
    ensures forall f :: f in out.vals ==> InLibrary(uid, out.vals[f].dependencies)
  {
    forall f | f in out.vals
      ensures InLibrary(uid, out.vals[f].dependencies)
    {
      assert Produced(current, s, deps, f, out.vals[f]);
      DependencyFilesInLibrary(uid, out.vals[f].dependencies, GetDeps(s.functions, s.files.vals[f]), s.fileFromFunc.vals, deps);
    }
  }

  /** `b` holds the JSON files of `a`, under the same names and in the same order. */
  predicate SameNames(a: seq<JsonFile>, b: seq<JsonFile>) {
    |a| == |b| && forall j :: 0 <= j < |a| ==> a[j].name == b[j].name
  }

  /**
   * The first phase of the linker: the generated functions `gen` moved
   * under `int` and every reference to them rewritten in the files and the
   * JSON files; the lookup is then emptied. The library's own files `user`
   * are left where they are.
   */
  method GeneratedPhase(t: Transform, gen: seq<string>, user: seq<string>) returns (o: Outcome<LinkError>)
    requires t.Valid() && Distinct(gen) && forall g :: g in gen ==> g in t.files.vals
    requires forall u :: u in user ==> u in t.files.vals && u !in gen
    modifies t
    ensures t.Valid() && t.lookup == EmptyDict() && SameNames(old(t.json), t.json) && t.dependencies == old(t.dependencies)
    ensures var m := GeneratedMoves(old(t.Moved()), t.uid, gen);
            (o.Fail? <==> m.Err?) && (o.Fail? ==> o.error == m.error)
    ensures o.Pass? ==> var m := GeneratedMoves(old(t.Moved()), t.uid, gen).value;
              t.Moved() == Applied(m).(lookup := EmptyDict()) && t.json == AppliedJson(m, old(t.json))
    ensures o.Pass? ==> forall u :: u in user ==> u in t.files.vals
  {
    ghost var s0 := t.Moved();
    ghost var json0 := t.json;
    ghost var deps0 := t.dependencies;
    o := t.MoveAllGenerated(gen);
    assert t.json == json0 && t.dependencies == deps0;
    if o.Pass? {
      ghost var m := t.Moved();
      GeneratedKeepAll(s0, t.uid, gen, user);
      t.ApplyLookup();
      assert t.Moved() == Applied(m) && t.json == AppliedJson(m, json0);
    }
    ghost var json1 := t.json;
    assert SameNames(json0, json1);
    t.ClearLookup();
    assert t.json == json1 && t.dependencies == deps0;
  }

  /**
   * The second phase of the linker: the library's own function files
   * moved under `ext`, and every reference to them rewritten in the files
   * and the JSON files.
   */
  method UserPhase(t: Transform, user: seq<string>) returns (o: Outcome<LinkError>)
    requires t.Valid() && Distinct(user) && forall u :: u in user ==> u in t.files.vals
    modifies t
    ensures t.Valid() && SameNames(old(t.json), t.json)
    ensures var m := UserMoves(old(t.Moved()), t.uid, 0, user);
            (o.Fail? <==> m.Err?) && (o.Fail? ==> o.error == m.error)
    ensures o.Pass? ==> var m := UserMoves(old(t.Moved()), t.uid, 0, user).value;
              t.Moved() == Applied(m) && t.json == AppliedJson(m, old(t.json))
  {
    ghost var json0 := t.json;
    o := t.MoveAllUser(user);
    if o.Fail? {
      return;
    }
    ghost var m := t.Moved();
    assert t.json == json0;
    t.ApplyLookup();
    assert t.Moved() == Applied(m) && t.json == AppliedJson(m, json0);
  }

  /**
   * After the renaming: the direct dependencies of every file, then the
   * closure of every JSON file's mentions.
   */
  method ResolveDependencies(t: Transform) returns (o: Outcome<LinkError>)
    requires t.Valid()
    modifies t
    ensures t.Valid() && t.Moved() == old(t.Moved()) && SameText(old(t.json), t.json)
    ensures t.dependencies == Dependencies(t.Moved()) && PathsApart(t.fileFromFunc.vals)
    ensures o.Pass? ==> forall j :: 0 <= j < |t.json| ==>
              IsClosure(t.json[j].dependencies, GetDeps(t.functions, t.json[j].content), t.fileFromFunc.vals, t.dependencies)
    ensures (forall j :: 0 <= j < |t.json| ==> AllResolve(GetDeps(t.functions, t.json[j].content), t.fileFromFunc.vals, t.dependencies)) ==> o.Pass?
  {
    t.ComputeDependencies();
    assert t.dependencies == Dependencies(t.Moved());
    o := t.JsonDependencies();
    t.Apart();
  }

  /** Both renaming phases on a fresh linker state: the state and JSON of `Prepared`, or its error. */
  method Rename(t: Transform, vfs: seq<(string, seq<(string, string)>)>) returns (o: Outcome<LinkError>)
    requires t.Valid() && t.Moved() == Start(vfs) && t.json == JsonOf(Merged(vfs))
    modifies t
    ensures t.Valid() && SameNames(old(t.json), t.json)
    ensures o.Fail? <==> Prepared(t.uid, vfs).Err?
    ensures o.Fail? ==> o.error == Prepared(t.uid, vfs).error
    ensures o.Pass? ==> t.Moved() == Prepared(t.uid, vfs).value.0 && t.json == Prepared(t.uid, vfs).value.1
  {
    var names := t.files.keys;
    AllPresent(t.files);
    var gen := Select(names, IsGenerated);
    var user := Select(names, IsUser);
    NamesApart(vfs);
    PreparedSplit(t.uid, vfs);
    ghost var json0 := t.json;
    o := GeneratedPhase(t, gen, user);
    if o.Fail? {
      return;
    }
    assert t.Moved() == AfterGenerated(t.uid, vfs).value;
    ghost var json1 := t.json;
    assert json1 == AppliedJson(GeneratedMoves(Start(vfs), t.uid, gen).value, json0);
    o := UserPhase(t, user);
  }

  /** Every reference the JSON files mention, and every child listed under one, resolves in `s`. */
  ghost predicate JsonResolves(s: Linking, json: seq<JsonFile>)
    requires s.Valid()
  {
    forall j :: 0 <= j < |json| ==> AllResolve(GetDeps(s.functions, json[j].content), s.fileFromFunc.vals, Dependencies(s))
  }

  /** Every function file of the source being built was moved, and what its new file mentions resolves in `s`. */
  ghost predicate SourceResolves(current: seq<string>, s: Linking)
    requires s.Valid()
  {
    forall func :: func in current && IsFunctionFile(func) ==>
      && func in s.transforms && s.transforms[func] in s.files.vals
      && AllResolve(GetDeps(s.functions, s.files.vals[s.transforms[func]]), s.fileFromFunc.vals, Dependencies(s))
  }

  /** The metadata file is there and parses, and what each macro it keeps mentions resolves in `s`. */
  ghost predicate MetadataResolves(entry: string, parse: string -> Option<seq<(string, seq<MacroToken>)>>, s: Linking)
    requires s.Valid()
  {
    && entry in s.files.vals && parse(s.files.vals[entry]).Some?
    && var data := parse(s.files.vals[entry]).value;
    forall i :: 0 <= i < |data| && LastOf(data, i) ==>
      AllResolve(GetDeps(s.functions, Join(TokenTexts(data[i].1), "\n")), s.fileFromFunc.vals, Dependencies(s))
  }

  /**
   * Everything the linker does before it looks at the target: the files of
   * every source merged, then the two phases. The result is the state
   * `Prepared` describes, with the dependency lists of its files and a
   * closure for every JSON file; every dependency a JSON file ends up with
   * is a reference into the library.
   */
  method Prepare(uid: string, vfs: seq<(string, seq<(string, string)>)>) returns (t: Transform, o: Outcome<LinkError>)
    ensures fresh(t) && t.Valid() && t.uid == uid
    ensures Prepared(uid, vfs).Err? ==> o == Fail(Prepared(uid, vfs).error)
    ensures o.Pass? ==> Prepared(uid, vfs).Ok? && t.Moved() == Prepared(uid, vfs).value.0
    ensures o.Pass? ==> SameText(Prepared(uid, vfs).value.1, t.json) && SameNames(JsonOf(Merged(vfs)), t.json)
    ensures o.Pass? ==> t.dependencies == Dependencies(t.Moved()) && PathsApart(t.fileFromFunc.vals)
    ensures o.Pass? ==> forall j :: 0 <= j < |t.json| ==>
              IsClosure(t.json[j].dependencies, GetDeps(t.functions, t.json[j].content), t.fileFromFunc.vals, t.dependencies)
    ensures o.Pass? ==> forall j, d :: 0 <= j < |t.json| && d in t.json[j].dependencies ==> LinkedTo(uid, d)
    ensures o.Pass? ==>
              && (forall g :: g in GeneratedNames(vfs) ==> ParsePath(g).Ok?)
              && t.functions == IntReferences(uid, GeneratedNames(vfs)) + ExtReferences(uid, 0, CountFunctionFiles(UserNames(vfs)))
    ensures o.Pass? ==> forall i :: 0 <= i < |GeneratedNames(vfs)| ==>
              var g := GeneratedNames(vfs)[i];
              ParsePath(g).Ok? && g in t.transforms && t.transforms[g] == IntFile(uid, ParsePath(g).value.stem)
    ensures o.Pass? ==> forall i :: 0 <= i < |UserNames(vfs)| && IsFunctionFile(UserNames(vfs)[i]) ==>
              var u := UserNames(vfs)[i];
              ParsePath(u).Ok? && u in t.transforms && t.transforms[u] == ExtFile(uid, CountFunctionFiles(UserNames(vfs)[..i]))
    ensures Prepared(uid, vfs).Ok? && JsonResolves(Prepared(uid, vfs).value.0, Prepared(uid, vfs).value.1) ==> o.Pass?
  {
    t := new Transform(uid, vfs);
    o := Rename(t, vfs);
    if o.Fail? {
      return;
    }
    o := ResolveDependencies(t);
    if o.Pass? {
      PreparedFunctions(uid, vfs);
      PreparedTransforms(uid, vfs);
      forall j, d | 0 <= j < |t.json| && d in t.json[j].dependencies
        ensures LinkedTo(uid, d)
      {
        ClosureLinked(uid, t.json[j].dependencies, GetDeps(t.functions, t.json[j].content), t.fileFromFunc.vals, t.dependencies);
      }
    }
  }

  /**
   * The linker: `Prepare`, then the macros or the functions of the target
   * returned with their dependencies. `uid` is the library's build id and
   * `libName` its configured name; `parse` stands for `JSON.parse` of the
   * macro metadata.
   */
  method Link(uid: string, libName: string, vfs: seq<(string, seq<(string, string)>)>, target: Target,
              parse: string -> Option<seq<(string, seq<MacroToken>)>>) returns (r: Result<LinkOutput, LinkError>)
    ensures Prepared(uid, vfs).Err? ==> r == Err(Prepared(uid, vfs).error)
    ensures r.Ok? ==> Prepared(uid, vfs).Ok? && (r.value.Macros? <==> target.MacroLibrary?)
    ensures r.Ok? ==> SameNames(JsonOf(Merged(vfs)), r.value.json) && SameText(Prepared(uid, vfs).value.1, r.value.json)
    ensures r.Ok? ==> var s := Prepared(uid, vfs).value.0;
              forall j :: 0 <= j < |r.value.json| ==>
                IsClosure(r.value.json[j].dependencies, GetDeps(s.functions, r.value.json[j].content), s.fileFromFunc.vals, Dependencies(s))
    ensures r.Ok? && target.FunctionLibrary? ==>
              var s := Prepared(uid, vfs).value.0;
              var current := SourceFiles(vfs, target.source);
              && (forall func :: func in current && IsFunctionFile(func) ==> func in s.transforms && s.transforms[func] in r.value.functions.vals)
              && (forall f :: f in r.value.functions.vals ==> Produced(current, s, Dependencies(s), f, r.value.functions.vals[f]))
    ensures r.Ok? && target.MacroLibrary? ==>
              var s := Prepared(uid, vfs).value.0;
              && target.entry in s.files.vals && parse(s.files.vals[target.entry]).Some?
              && var data := parse(s.files.vals[target.entry]).value;
              && (forall name :: name in r.value.macros.vals <==> name in NamesOf(data))
              && (forall i :: 0 <= i < |data| && LastOf(data, i) ==>
                    data[i].0 in r.value.macros.vals && Expanded(data[i].1, "lib/" + libName, s, Dependencies(s), r.value.macros.vals[data[i].0]))
    ensures r.Ok? ==> forall j, d :: 0 <= j < |r.value.json| && d in r.value.json[j].dependencies ==> LinkedTo(uid, d)
    ensures r.Ok? && r.value.Functions? ==> forall f :: f in r.value.functions.vals ==> InLibrary(uid, r.value.functions.vals[f].dependencies)
    ensures r.Ok? && r.value.Macros? ==> forall m :: m in r.value.macros.vals ==> InLibrary(uid, r.value.macros.vals[m].dependencies)
    ensures Prepared(uid, vfs).Ok? && JsonResolves(Prepared(uid, vfs).value.0, Prepared(uid, vfs).value.1) ==>
              && (target.FunctionLibrary? && SourceResolves(SourceFiles(vfs, target.source), Prepared(uid, vfs).value.0) ==> r.Ok?)
              && (target.MacroLibrary? && MetadataResolves(target.entry, parse, Prepared(uid, vfs).value.0) ==> r.Ok?)
  {
    var t, o := Prepare(uid, vfs);
    if o.Fail? {
      return Err(o.error);
    }
    match target
    case MacroLibrary(entry) =>
      if entry !in t.files.vals {
        return Err(BadMetadata(entry));
      }
      var data := parse(t.files.vals[entry]);
      if data.None? {
        return Err(BadMetadata(entry));
      }
      var macros := MacroOutputs(data.value, "lib/" + libName, t.Moved(), t.dependencies);
      if macros.Err? {
        return Err(macros.error);
      }
      MacroOutputsInLibrary(uid, data.value, "lib/" + libName, t.Moved(), t.dependencies, macros.value);
      return Ok(Macros(macros.value, t.json));
    case FunctionLibrary(source) =>
      var outputs := FunctionOutputs(SourceFiles(vfs, source), t.Moved(), t.dependencies);
      if outputs.Err? {
        return Err(outputs.error);
      }
      FunctionOutputsInLibrary(uid, SourceFiles(vfs, source), t.Moved(), t.dependencies, outputs.value);
      return Ok(Functions(outputs.value, t.json));
  }
}
