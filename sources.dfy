/**
 * The two stores the compiler consults beside its token stream (entry.js):
 * the macro-file cache behind `getMacro`, and the bookkeeping of
 * `includeFileList`, which copies library functions into the output and
 * follows the dependencies of library JSON resources.
 */
module Sources {
  import opened Wrappers
  import opened Text
  import opened Tokenizer
  import opened Errors
  import opened Braces
  import opened IoModel
  import opened Syntax

  // ------------------------------------------------------------ set helpers

  function Members(s: seq<string>): set<string> {
    set x | x in s
  }

  /** Reading one more file leaves fewer files unread. */
  lemma UnreadShrinks(all: set<string>, before: set<string>, now: set<string>, x: string)
    requires before <= now && x in all && x !in before && x in now
    ensures |all - now| < |all - before|
  {
    ProperSubsetSmaller(all - now, all - before, x);
  }

  lemma ProperSubsetSmaller(a: set<string>, b: set<string>, x: string)
    requires a <= b && x in b && x !in a
    ensures |a| < |b|
  {
    assert a <= b - {x};
    SubsetNoLarger(a, b - {x});
  }

  lemma {:induction false} SubsetNoLarger(a: set<string>, b: set<string>)
    requires a <= b
    ensures |a| <= |b|
    decreases |b|
  {
    if a != {} {
      var x :| x in a;
      SubsetNoLarger(a - {x}, b - {x});
    }
  }

  // ------------------------------------------------------------ macro files

  /** One cached macro file: its own macros, the files that imported it, and the macros it imported. */
  datatype MacroFile = MacroFile(macros: map<string, seq<Token>>, dependents: seq<string>, imported: map<string, seq<Token>>)

  /** `getMacro` adds the `.mcm` extension to a path that lacks it. */
  function MacroPath(p: string): (r: string)
    ensures EndsWith(r, ".mcm")
    ensures EndsWith(p, ".mcm") ==> r == p
  {
    if EndsWith(p, ".mcm") then p
    else
      assert (p + ".mcm")[|p|..] == ".mcm";
      p + ".mcm"
  }

  /** The 1-based line text `getMacro` puts after `path@`. */
  function NextLineText(l: Line): string {
    match l
    case LineNo(n) => NatToString(n + 1)
    case LineTag(t) => t + "1"
  }

  /** The tokens of a macro file, each tagged `path@line` and marked as coming from `path`. */
  function Relabel(ts: seq<Token>, path: string): (r: seq<Token>)
    ensures |r| == |ts| && Texts(r) == Texts(ts)
    ensures forall i :: 0 <= i < |r| ==> r[i].file == Some(path)
  {
    seq(|ts|, i requires 0 <= i < |ts| => ts[i].(line := LineTag(path + "@" + NextLineText(ts[i].line)), file := Some(path)))
  }

  /**
   * `MacroCache` with the file system it reads: `files` maps the existing
   * `.mcm` paths to their text and `resolve(from, target)` resolves an
   * import against the directory of `from`.
   */
  class MacroStore {
    var entries: map<string, MacroFile>
    const files: map<string, string>
    const resolve: (string, string) -> string

    ghost predicate Valid()
      reads this
    {
      forall p :: p in entries ==> p in files && Distinct(entries[p].dependents)
    }

    constructor(files: map<string, string>, resolve: (string, string) -> string)
      ensures Valid() && entries == map[] && this.files == files && this.resolve == resolve
    {
      this.files := files;
      this.resolve := resolve;
      entries := map[];
    }

    /** How many existing macro files are not cached yet: what bounds the recursion through imports. */
    ghost function Unread(): nat
      reads this
    {
      |files.Keys - entries.Keys|
    }

    /**
     * `getMacro(target, dependent)`: read and cache a macro file once (its
     * `macro name {…}` definitions and, recursively, its imports), record
     * who depends on it, and return its own macros.
     */
    method Get(target: string, dependent: Option<string>) returns (r: Result<map<string, seq<Token>>, CompileError>)
      requires Valid()
      modifies this
      ensures Valid() && old(entries).Keys <= entries.Keys && Unread() <= old(Unread())
      ensures MacroPath(target) !in files ==> r == Err(MacroFileNotFound(MacroPath(target))) && entries == old(entries)
      ensures MacroPath(target) in old(entries) ==> r == Ok(old(entries)[MacroPath(target)].macros) && entries.Keys == old(entries).Keys
      ensures r.Ok? ==> MacroPath(target) in entries && r.value == entries[MacroPath(target)].macros
      ensures r.Ok? && dependent.Some? ==> dependent.value in entries[MacroPath(target)].dependents
      decreases Unread(), 1
    {
      var path := MacroPath(target);
      if path !in files {
        return Err(MacroFileNotFound(path));
      }
      if path !in entries {
        var read := Read(path);
        if read.Fail? {
          return Err(read.error);
        }
      }
      AddDependent(path, dependent);
      return Ok(entries[path].macros);
    }

    /** `MacroCache[path].dependents.push(dependent)` unless it is listed already. */
    method AddDependent(path: string, dependent: Option<string>)
      requires Valid() && path in entries
      modifies this
      ensures Valid() && entries.Keys == old(entries).Keys && Unread() == old(Unread())
      ensures entries[path].macros == old(entries[path].macros)
      ensures dependent.Some? ==> dependent.value in entries[path].dependents
    {
      var e := entries[path];
      if dependent.Some? && dependent.value !in e.dependents {
        ghost var keys := entries.Keys;
        entries := entries[path := e.(dependents := e.dependents + [dependent.value])];
        assert entries.Keys == keys;
      }
    }

    /** A file seen for the first time: cache it as empty, then parse its tokens into the entry. */
    method Read(path: string) returns (r: Outcome<CompileError>)
      requires Valid() && path in files && path !in entries
      modifies this
      ensures Valid() && path in entries && old(entries).Keys <= entries.Keys && Unread() < old(Unread())
      decreases Unread(), 0
    {
      ghost var before := entries.Keys;
      entries := entries[path := MacroFile(map[], [], map[])];
      UnreadShrinks(files.Keys, before, entries.Keys, path);
      var lexed := Tokenize(files[path]);
      r := Parse(path, Relabel(lexed, path));
    }

    /**
     * The body of a macro file being cached under `path`: `macro name {…}`
     * stores the tokens between the braces, `import target` merges the
     * target's macros into the imported ones, anything else is an error.
     */
    method Parse(path: string, tokens: seq<Token>) returns (r: Outcome<CompileError>)
      requires Valid() && path in entries
      modifies this
      ensures Valid() && path in entries && old(entries).Keys <= entries.Keys && Unread() <= old(Unread())
      decreases Unread(), 3
    {
      var ts := tokens;
      while ts != []
        invariant Valid() && path in entries && old(entries).Keys <= entries.Keys && Unread() <= old(Unread())
        decreases |ts|
      {
        var t := ts[0];
        ts := ts[1..];
        if StartsWith(t.text, "macro") {
          var words := Split(t.text, ' ');
          var name := if |words| > 1 then words[1] else "undefined";
          var next := ValidateNext(ts, "{");
          if next.Err? {
            return Fail(next.error);
          }
          ts := next.value;
          if ts == [] {
            return Fail(ExpectedMore);
          }
          var body, used := CaptureMacroBody(ts);
          ts := ts[used..];
          Define(path, name, body);
        } else if StartsWith(t.text, "import") {
          var done := ImportInto(path, Trim(SubstrFrom(t.text, 7)));
          if done.Fail? {
            return done;
          }
        } else {
          return Fail(UnexpectedValue(t.text, t.line));
        }
      }
      return Pass;
    }

    /** `MacroCache[path].macros[name] = body`. */
    method Define(path: string, name: string, body: seq<Token>)
      requires Valid() && path in entries
      modifies this
      ensures Valid() && entries.Keys == old(entries).Keys && Unread() == old(Unread())
      ensures entries[path] == old(entries[path]).(macros := old(entries[path]).macros[name := body])
    {
      var e := entries[path];
      ghost var keys := entries.Keys;
      entries := entries[path := e.(macros := e.macros[name := body])];
      assert entries.Keys == keys;
    }

    /** An `import` line of the macro file `path`: its target's macros join `path`'s imported macros. */
    method ImportInto(path: string, target: string) returns (r: Outcome<CompileError>)
      requires Valid() && path in entries
      modifies this
      ensures Valid() && path in entries && old(entries).Keys <= entries.Keys && Unread() <= old(Unread())
      decreases Unread(), 2
    {
      var got := Get(resolve(path, target), Some(path));
      if got.Err? {
        return Fail(got.error);
      }
      var e := entries[path];
      ghost var keys := entries.Keys;
      entries := entries[path := e.(imported := e.imported + got.value)];
      assert entries.Keys == keys;
      return Pass;
    }
  }

  // ------------------------------------------------------------ library files

  /**
   * What the library lookup holds under a name: a library function carries
   * its text, a library JSON resource the names it depends on.
   */
  datatype LibEntry = LibEntry(content: Option<string>, dependencies: Option<seq<string>>)

  /** The per-file `included_file_list` and the library files it has written. */
  class Includes {
    var included: seq<string>
    var written: seq<(string, Option<string>)>
    const lookup: map<string, LibEntry>

    ghost predicate Valid()
      reads this
    {
      Distinct(included)
    }

    constructor(lookup: map<string, LibEntry>)
      ensures Valid() && included == [] && written == [] && this.lookup == lookup
    {
      this.lookup := lookup;
      included, written := [], [];
    }

    /** A JSON resource whose dependencies are queued. */
    predicate Expands(x: string)
      reads this
    {
      EndsWith(x, ".json") && x in lookup && lookup[x].dependencies.Some?
    }

    /** A function file that is copied into the output. */
    predicate Copied(x: string)
      reads this
    {
      !EndsWith(x, ".json") && x in lookup
    }

    /** An item whose processing ran to the end (a missing entry throws, and the throw is swallowed). */
    predicate Completes(x: string)
      reads this
    {
      Copied(x) || Expands(x)
    }

    ghost function AllDependencies(): set<string>
      reads this
    {
      set k, d | k in lookup && lookup[k].dependencies.Some? && d in lookup[k].dependencies.value :: d
    }

    /** The work on one newly included name: the names it queues and the file it writes. */
    method Visit(item: string, file: string, io: Io) returns (more: seq<string>, copy: seq<(string, Option<string>)>)
      requires io.Valid()
      modifies io.loadFunction, io.tickFunction
      ensures io.Valid()
      ensures more == if Expands(item) then lookup[item].dependencies.value else []
      ensures copy == if Copied(item) then [(item, lookup[item].content)] else []
      ensures forall y :: y in old(io.tickFunction.ValuesFor(file)) ==> y in io.tickFunction.ValuesFor(file)
      ensures forall y :: y in old(io.loadFunction.ValuesFor(file)) ==> y in io.loadFunction.ValuesFor(file)
      ensures Completes(item) && EndsWith(item, "tick.mcfunction") ==> ToFunction(item) in io.tickFunction.ValuesFor(file)
      ensures Completes(item) && EndsWith(item, "load.mcfunction") ==> ToFunction(item) in io.loadFunction.ValuesFor(file)
    {
      more, copy := [], [];
      if !EndsWith(item, ".json") {
        if item in lookup {
          copy := [(item, lookup[item].content)];
        }
      } else if item in lookup && lookup[item].dependencies.Some? {
        more := lookup[item].dependencies.value;
      }
      if Completes(item) {
        if EndsWith(item, "tick.mcfunction") {
          io.tickFunction.Set(file, ToFunction(item));
        }
        if EndsWith(item, "load.mcfunction") {
          io.loadFunction.Set(file, ToFunction(item));
        }
      }
    }

    /** What processing `x` left behind: its copy written, its tick/load function registered under `file`. */
    ghost predicate Done(x: string, file: string, io: Io)
      reads this, io, io.loadFunction, io.tickFunction
    {
      && (Copied(x) ==> (x, lookup[x].content) in written)
      && (Completes(x) && EndsWith(x, "tick.mcfunction") ==> ToFunction(x) in io.tickFunction.ValuesFor(file))
      && (Completes(x) && EndsWith(x, "load.mcfunction") ==> ToFunction(x) in io.loadFunction.ValuesFor(file))
    }

    /** Mark one new name included and process it; whatever earlier names left behind stays. */
    method Add(item: string, file: string, io: Io) returns (more: seq<string>)
      requires Valid() && io.Valid() && item !in included
      modifies this, io.loadFunction, io.tickFunction
      ensures Valid() && io.Valid()
      ensures included == old(included) + [item]
      ensures more == if Expands(item) then lookup[item].dependencies.value else []
      ensures Done(item, file, io)
      ensures forall x :: old(Done(x, file, io)) ==> Done(x, file, io)
    {
      included := included + [item];
      var copy;
      more, copy := Visit(item, file, io);
      written := written + copy;
    }

    /** `x` was asked for in `list0`, or is a dependency of a JSON resource among `among`. */
    ghost predicate Reached(x: string, list0: seq<string>, among: seq<string>) {
      x in list0 || exists y :: y in among && DependsOn(y, x)
    }

    /** `y` is a JSON resource of the library with `x` among its dependencies. */
    ghost predicate DependsOn(y: string, x: string) {
      EndsWith(y, ".json") && y in lookup && lookup[y].dependencies.Some? && x in lookup[y].dependencies.value
    }

    /** What is reached stays reached as names are included; the dependencies of a new JSON resource are reached. */
    lemma ReachedGrows(list0: seq<string>, among: seq<string>, item: string)
      ensures forall x :: Reached(x, list0, among) ==> Reached(x, list0, among + [item])
      ensures Expands(item) ==> forall x :: x in lookup[item].dependencies.value ==> Reached(x, list0, among + [item])
    {
      forall x | Reached(x, list0, among)
        ensures Reached(x, list0, among + [item])
      {
        if x !in list0 {
          var y :| y in among && DependsOn(y, x);
          assert y in among + [item];
        }
      }
      if Expands(item) {
        forall x | x in lookup[item].dependencies.value
          ensures Reached(x, list0, among + [item])
        {
          assert item in among + [item] && DependsOn(item, x);
        }
      }
    }

    /**
     * `includeFileList(list, file)`: a worklist over the names. Each new name
     * is marked included once; a function file is written, a JSON resource
     * queues its dependencies, and a completed `…tick.mcfunction` /
     * `…load.mcfunction` is registered under `file` by its function name.
     */
    method Include(list0: seq<string>, file: string, io: Io)
      requires Valid() && io.Valid()
      modifies this, io.loadFunction, io.tickFunction
      ensures Valid() && io.Valid()
      ensures |old(included)| <= |included| && included[..|old(included)|] == old(included)
      ensures forall i :: 0 <= i < |list0| ==> list0[i] in included
      ensures forall x :: x in included[|old(included)|..] && Expands(x) ==>
        forall d :: d in lookup[x].dependencies.value ==> d in included
      ensures forall x :: x in included[|old(included)|..] ==> Done(x, file, io)
      ensures forall x :: x in included[|old(included)|..] ==> Reached(x, list0, included[|old(included)|..])
    {
      var list := list0;
      ghost var added := [];
      ghost var universe := Members(list0) + AllDependencies();
      ghost var todo := universe;
      while list != []
        invariant Valid() && io.Valid()
        invariant included == old(included) + added
        invariant forall x :: x in list ==> x in universe
        invariant forall x :: x in universe && x !in included ==> x in todo
        invariant forall i :: 0 <= i < |list0| ==> list0[i] in included || list0[i] in list
        invariant forall x :: x in added && Expands(x) ==>
          forall d :: d in lookup[x].dependencies.value ==> d in included || d in list
        invariant forall x :: x in added ==> Done(x, file, io)
        invariant forall x :: x in list ==> Reached(x, list0, added)
        invariant forall x :: x in added ==> Reached(x, list0, added)
        decreases |todo|, |list|
      {
        var item := list[0];
        list := list[1..];
        if item !in included {
          ProperSubsetSmaller(todo - {item}, todo, item);
          todo := todo - {item};
          var more := Add(item, file, io);
          ReachedGrows(list0, added, item);
          assert included == old(included) + (added + [item]);
          added := added + [item];
          list := list + more;
        }
      }
      assert included[|old(included)|..] == added;
    }
  }
}
