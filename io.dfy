/**
 * The output side of the compiler (io.js): command buffers (`MCFunction`)
 * that collect commands and are emitted at most once per path per compiled
 * file, and the per-source-file aggregations behind the load/tick event
 * functions (`MultiFile`) and the load/tick tag manifests (`MultiFileTag`).
 *
 * The module-level state of io.js — the set of confirmed paths, the
 * template environment, the two event aggregations and the file sink — is
 * the `Io` object every buffer operation takes.
 */
module IoModel {
  import opened Wrappers
  import opened Text
  import opened Values
  import opened Errors

  // ------------------------------------------------------ ordered segments

  /** The values of `segs` in the order of `keys`, one list after the other. */
  function Concatenated(keys: seq<string>, segs: map<string, seq<string>>): seq<string>
    requires forall k :: k in keys ==> k in segs
  {
    if keys == [] then [] else segs[keys[0]] + Concatenated(keys[1..], segs)
  }

  /** `keys` without `k`. */
  function Without(keys: seq<string>, k: string): (r: seq<string>)
    ensures forall x :: x in r <==> x in keys && x != k
    ensures |r| <= |keys|
  {
    if keys == [] then [] else (if keys[0] == k then [] else [keys[0]]) + Without(keys[1..], k)
  }

  predicate Distinct(keys: seq<string>) {
    forall i, j :: 0 <= i < j < |keys| ==> keys[i] != keys[j]
  }

  lemma {:induction false} WithoutDistinct(keys: seq<string>, k: string)
    requires Distinct(keys)
    ensures Distinct(Without(keys, k))
  {
    if keys != [] {
      WithoutDistinct(keys[1..], k);
      var r := Without(keys, k);
      if keys[0] != k {
        forall j | 0 < j < |r|
          ensures r[0] != r[j]
        {
          assert r[j] in Without(keys[1..], k);
          assert r[j] in keys[1..];
        }
      }
    }
  }

  /** Appending one value under a present key adds exactly that value to the flattened whole. */
  lemma {:induction false} ConcatenatedAppend(keys: seq<string>, segs: map<string, seq<string>>, id: string, v: string)
    requires forall k :: k in keys ==> k in segs
    requires Distinct(keys) && id in keys
    ensures multiset(Concatenated(keys, segs[id := segs[id] + [v]])) == multiset(Concatenated(keys, segs)) + multiset{v}
  {
    var s2 := segs[id := segs[id] + [v]];
    if keys[0] == id {
      ConcatenatedSame(keys[1..], segs, s2);
    } else {
      ConcatenatedAppend(keys[1..], segs, id, v);
    }
  }

  /** Concatenating only looks at the listed keys. */
  lemma {:induction false} ConcatenatedSame(keys: seq<string>, s1: map<string, seq<string>>, s2: map<string, seq<string>>)
    requires forall k :: k in keys ==> k in s1 && k in s2 && s1[k] == s2[k]
    ensures Concatenated(keys, s1) == Concatenated(keys, s2)
  {
    if keys != [] {
      ConcatenatedSame(keys[1..], s1, s2);
    }
  }

  /** Dropping a key takes exactly its values out of the flattened whole. */
  lemma {:induction false} FlattenWithout(keys: seq<string>, segs: map<string, seq<string>>, k: string)
    requires forall x :: x in keys ==> x in segs
    requires Distinct(keys) && k in keys
    ensures multiset(Concatenated(Without(keys, k), segs - {k})) + multiset(segs[k]) == multiset(Concatenated(keys, segs))
  {
    if keys[0] == k {
      assert k !in keys[1..] by {
        forall j | 1 <= j < |keys|
          ensures keys[j] != k
        {
          assert keys[0] != keys[j];
        }
      }
      WithoutAbsent(keys[1..], k);
      assert Without(keys, k) == keys[1..];
      ConcatenatedSame(keys[1..], segs - {k}, segs);
    } else {
      FlattenWithout(keys[1..], segs, k);
    }
  }

  lemma {:induction false} WithoutAbsent(keys: seq<string>, k: string)
    requires k !in keys
    ensures Without(keys, k) == keys
  {
    if keys != [] {
      WithoutAbsent(keys[1..], k);
    }
  }

  /** The concatenation of a list of lists. */
  function Concat(lists: seq<seq<string>>): seq<string> {
    if lists == [] then [] else lists[0] + Concat(lists[1..])
  }

  /** `Object.values(segments).flat(Infinity)` of a tag's segments. */
  function FlattenDeep(keys: seq<string>, segs: map<string, seq<seq<string>>>): seq<string>
    requires forall k :: k in keys ==> k in segs
  {
    if keys == [] then [] else Concat(segs[keys[0]]) + FlattenDeep(keys[1..], segs)
  }

  // ------------------------------------------------------------ MultiFile

  /** Per-source-file lists of function references, in first-set order of the files. */
  class MultiFile {
    var keys: seq<string>
    var segments: map<string, seq<string>>

    ghost predicate Valid()
      reads this
    {
      (forall k :: k in segments <==> k in keys) && Distinct(keys)
    }

    constructor()
      ensures Valid() && keys == [] && segments == map[]
    {
      keys, segments := [], map[];
    }

    /** `valuesFor(key)`: the list set under `key`, or nothing. */
    function ValuesFor(key: string): (r: seq<string>)
      reads this
      ensures key !in segments ==> r == []
      ensures key in segments ==> r == segments[key]
    {
      if key in segments then segments[key] else []
    }

    /** `values()`: every list, in key order. */
    function AllValues(): seq<string>
      reads this
      requires Valid()
    {
      Concatenated(keys, segments)
    }

    /** `set(id, func)`: append under `id` only. */
    method Set(id: string, func: string)
      requires Valid()
      modifies this
      ensures Valid()
      ensures segments == old(segments)[id := old(ValuesFor(id)) + [func]]
      ensures keys == if id in old(keys) then old(keys) else old(keys) + [id]
    {
      if id !in segments {
        keys := keys + [id];
        segments := segments[id := []];
      }
      segments := segments[id := segments[id] + [func]];
    }

    /** `reset(file)`: forget the lists of `file` and nothing else. */
    method Reset(file: string)
      requires Valid()
      modifies this
      ensures Valid()
      ensures segments == old(segments) - {file}
      ensures keys == Without(old(keys), file)
    {
      WithoutDistinct(keys, file);
      keys := Without(keys, file);
      segments := segments - {file};
    }
  }

  /** `set(id, v)` under a file not seen before: every value is still there and `v` once more. */
  lemma SetAddsNewKey(keys: seq<string>, segs: map<string, seq<string>>, id: string, v: string)
    requires (forall k :: k in segs <==> k in keys) && id !in keys
    ensures multiset(Concatenated(keys + [id], segs[id := [v]])) == multiset(Concatenated(keys, segs)) + multiset{v}
  {
    var segs2 := segs[id := [v]];
    ConcatenatedSame(keys, segs, segs2);
    FlattenSnoc(keys, segs2, id);
  }

  lemma {:induction false} FlattenSnoc(keys: seq<string>, segs: map<string, seq<string>>, k: string)
    requires forall x :: x in keys ==> x in segs
    requires k in segs
    ensures Concatenated(keys + [k], segs) == Concatenated(keys, segs) + segs[k]
    ensures Distinct(keys) && k !in keys ==> Distinct(keys + [k])
  {
    if keys == [] {
      assert [k][1..] == [];
    } else {
      assert (keys + [k])[1..] == keys[1..] + [k];
      FlattenSnoc(keys[1..], segs, k);
    }
  }

  /** After `reset(file)` the other files' values are all that is left. */
  lemma ResetRemovesOnlyFile(keys: seq<string>, segs: map<string, seq<string>>, file: string)
    requires (forall k :: k in segs <==> k in keys) && Distinct(keys)
    ensures multiset(Concatenated(Without(keys, file), segs - {file}))
            == multiset(Concatenated(keys, segs)) - multiset(if file in segs then segs[file] else [])
  {
    if file in keys {
      FlattenWithout(keys, segs, file);
    } else {
      WithoutAbsent(keys, file);
      ConcatenatedSame(keys, segs - {file}, segs);
    }
  }

  // ---------------------------------------------------------- MultiFileTag

  /** The JSON of a function tag: `{replace: false, values: [...]}`. */
  datatype TagJson = TagJson(replace: bool, values: seq<string>)

  /**
   * A function tag (`tick.json`, `load.json`) gathered from every source
   * file. `confirms` counts how often its file was registered with the sink,
   * `contents` is the JSON last handed to it.
   */
  class MultiFileTag {
    var keys: seq<string>
    var segments: map<string, seq<seq<string>>>
    var current: bool
    var confirms: nat
    var contents: Option<TagJson>

    ghost predicate Valid()
      reads this
    {
      && (forall k :: k in segments <==> k in keys) && Distinct(keys)
      && (contents.Some? ==> contents.value == TagJson(false, FlattenDeep(keys, segments)))
    }

    constructor()
      ensures Valid() && keys == [] && segments == map[] && !current && confirms == 0 && contents == None
    {
      keys, segments, current, confirms, contents := [], map[], false, 0, None;
    }

    /** The values the tag lists: every file's lists, flattened, in file order. */
    function Values(): seq<string>
      reads this
      requires Valid()
    {
      FlattenDeep(keys, segments)
    }

    /** `set(id, values)`: register the file once per epoch, append, rewrite the JSON. */
    method Set(id: string, values: seq<string>)
      requires Valid()
      modifies this
      ensures Valid() && current
      ensures confirms == if old(current) then old(confirms) else old(confirms) + 1
      ensures segments == old(segments)[id := (if id in old(segments) then old(segments)[id] else []) + [values]]
      ensures keys == if id in old(keys) then old(keys) else old(keys) + [id]
      ensures contents == Some(TagJson(false, Values()))
    {
      if !current {
        confirms := confirms + 1;
        current := true;
      }
      if id !in segments {
        keys := keys + [id];
        segments := segments[id := []];
      }
      segments := segments[id := segments[id] + [values]];
      contents := Some(TagJson(false, FlattenDeep(keys, segments)));
    }

    /** `reset(file)`: drop the file's lists; the file is always registered again. */
    method Reset(file: string)
      requires Valid()
      modifies this
      ensures Valid() && current
      ensures confirms == old(confirms) + 1
      ensures segments == old(segments) - {file} && keys == Without(old(keys), file)
      ensures file !in keys
      ensures contents == Some(TagJson(false, Values()))
    {
      current := false;
      WithoutDistinct(keys, file);
      keys := Without(keys, file);
      segments := segments - {file};
      if !current {
        confirms := confirms + 1;
        current := true;
      }
      contents := Some(TagJson(false, FlattenDeep(keys, segments)));
    }
  }

  // ------------------------------------------------------------ the Io state

  /** The template evaluator behind `<% … %>`: the line and the environment in, the text or a failure out. */
  type Interpolator = (string, Env) -> Option<string>

  /** The state io.js keeps at module level, and the file sink. */
  class Io {
    var fakefs: set<string>
    var env: Env
    var out: seq<MCFunction>
    const loadFunction: MultiFile
    const tickFunction: MultiFile
    const interp: Interpolator

    ghost predicate Valid()
      reads this, loadFunction, tickFunction
    {
      loadFunction != tickFunction && loadFunction.Valid() && tickFunction.Valid()
    }

    constructor(interp: Interpolator)
      ensures Valid() && fakefs == {} && out == [] && env == map[] && this.interp == interp
      ensures fresh(loadFunction) && fresh(tickFunction)
      ensures loadFunction.segments == map[] && tickFunction.segments == map[]
    {
      this.interp := interp;
      loadFunction := new MultiFile();
      tickFunction := new MultiFile();
      fakefs, env, out := {}, map[], [];
    }

    /** `MCFunction.setEnv(env)`: a new epoch, in which every path may be emitted again. */
    method SetEnv(e: Env)
      modifies this
      ensures fakefs == {} && env == e && out == old(out)
    {
      fakefs := {};
      env := e;
    }
  }

  /** Whether `addCommand` interpolates `line`: it holds a `<%` and does not start with `%>` (a missing `%>` does not stop it). */
  predicate IsTemplate(line: string) {
    IndexOf(line, "<%") > -1 && IndexOf(line, "%>") != 0
  }

  /** `evaluate(line)` of io.js under `env`: templates go through the evaluator, other text is kept. */
  function Interpolate(interp: Interpolator, env: Env, line: string): (r: Result<string, CompileError>)
    ensures !IsTemplate(line) ==> r == Ok(line)
    ensures IsTemplate(line) && interp(line, env).None? ==> r == Err(TemplateError(line))
    ensures IsTemplate(line) && interp(line, env).Some? ==> r == Ok(interp(line, env).value)
  {
    if !IsTemplate(line) then Ok(line)
    else match interp(line, env)
      case None => Err(TemplateError(line))
      case Some(t) => Ok(t)
  }

  /** Text without `<%` is never interpolated. */
  lemma PlainTextKept(interp: Interpolator, env: Env, line: string)
    requires !Contains(line, "<%")
    ensures Interpolate(interp, env, line) == Ok(line)
  {
  }

  // ------------------------------------------------------------- MCFunction

  /** A command buffer. `top` is the buffer itself when `topOrSelf` is null. */
  class MCFunction {
    const parent: MCFunction?
    const topOrSelf: MCFunction?
    const intent: Option<string>
    var functions: seq<string>
    var namespace: string
    var path: string

    constructor(parent: MCFunction?, top: MCFunction?, intent: Option<string>)
      ensures this.parent == parent && topOrSelf == top && this.intent == intent
      ensures functions == [] && namespace == "lang_error" && path == ""
    {
      this.parent := parent;
      topOrSelf := top;
      this.intent := intent;
      functions := [];
      namespace := "lang_error";
      path := "";
    }

    /** `getReference()`. */
    function Reference(): (r: string)
      reads this
      ensures |r| == |namespace| + 1 + |path|
      ensures r[..|namespace|] == namespace && r[|namespace|] == ':' && r[|namespace| + 1..] == path
    {
      namespace + ":" + path
    }

    /** `toString()`: the command that calls the buffer. */
    function ToString(): (r: string)
      reads this
      ensures r == "function " + Reference()
    {
      "function " + namespace + ":" + path
    }

    method SetPath(p: string)
      modifies `path
      ensures path == p
    {
      path := p;
    }

    method SetNamespace(ns: string)
      modifies `namespace
      ensures namespace == ns
    {
      namespace := ns;
    }

    /** `addCommand(command)`: one more entry, interpolated first. */
    method AddCommand(io: Io, command: string) returns (res: Outcome<CompileError>)
      modifies `functions
      ensures var line := Interpolate(io.interp, io.env, command);
              && (line.Ok? ==> res.Pass? && functions == old(functions) + [line.value])
              && (line.Err? ==> res == Fail(line.error) && functions == old(functions))
    {
      var line := Interpolate(io.interp, io.env, command);
      if line.Err? {
        return Fail(line.error);
      }
      functions := functions + [line.value];
      return Pass;
    }

    /** The reference `$top` stands for. */
    function TopReference(): string
      reads this, topOrSelf
    {
      if topOrSelf == null then Reference() else topOrSelf.Reference()
    }

    /**
     * One command as it is written out: `$block`, then `$top`, then
     * `$parent` replaced everywhere; `$parent` without a parent is an error.
     */
    function Render(command: string): (r: Result<string, CompileError>)
      reads this, topOrSelf, parent
      ensures var c := ReplaceAll(ReplaceAll(command, "$block", Reference()), "$top", TopReference());
              && (r.Err? <==> parent == null && Contains(c, "$parent"))
              && (r.Err? ==> r.error == ParentMissing)
              && (r.Ok? && parent != null ==> r.value == ReplaceAll(c, "$parent", parent.Reference()))
              && (r.Ok? && parent == null ==> r.value == c)
    {
      var c := ReplaceAll(ReplaceAll(command, "$block", Reference()), "$top", TopReference());
      if parent != null then Ok(ReplaceAll(c, "$parent", parent.Reference()))
      else if Contains(c, "$parent") then Err(ParentMissing)
      else ReplaceAbsent(c, "$parent", ""); Ok(c)
    }

    /** The rendered commands, in order, up to the first that fails. */
    function RenderAll(commands: seq<string>): (r: Result<seq<string>, CompileError>)
      reads this, topOrSelf, parent
      ensures r.Ok? <==> forall i :: 0 <= i < |commands| ==> Render(commands[i]).Ok?
      ensures r.Ok? ==> |r.value| == |commands| && forall i :: 0 <= i < |commands| ==> r.value[i] == Render(commands[i]).value
      ensures r.Err? ==> r.error == ParentMissing
    {
      if commands == [] then Ok([])
      else match Render(commands[0])
        case Err(e) => Err(e)
        case Ok(line) =>
          match RenderAll(commands[1..])
          case Err(e) => Err(e)
          case Ok(rest) => Ok([line] + rest)
    }

    /** `getContents()`: the optional header, then the rendered commands one per line. */
    function Contents(header: string): (r: Result<string, CompileError>)
      reads this, topOrSelf, parent
      ensures r.Err? <==> parent == null && exists i :: 0 <= i < |functions| && Render(functions[i]).Err?
      ensures r.Ok? ==> r.value == (if header != "" then header + "\n\n" else "") + Join(RenderAll(functions).value, "\n")
    {
      match RenderAll(functions)
      case Err(e) => Err(e)
      case Ok(lines) => Ok((if header != "" then header + "\n\n" else "") + Join(lines, "\n"))
    }

    /**
     * `confirm(file)`: the first time in an epoch that this path is
     * confirmed, remember the path, register a load/tick buffer under `file`
     * and hand the buffer to the sink; afterwards nothing happens.
     */
    method Confirm(io: Io, file: string)
      requires io.Valid()
      modifies io, io.loadFunction, io.tickFunction
      ensures io.Valid()
      ensures io.fakefs == old(io.fakefs) + {path} && io.env == old(io.env)
      ensures path in old(io.fakefs) ==>
        io.out == old(io.out)
        && io.loadFunction.segments == old(io.loadFunction.segments) && io.loadFunction.keys == old(io.loadFunction.keys)
        && io.tickFunction.segments == old(io.tickFunction.segments) && io.tickFunction.keys == old(io.tickFunction.keys)
      ensures path !in old(io.fakefs) ==> io.out == old(io.out) + [this]
      ensures path !in old(io.fakefs) && intent == Some("load") ==>
        io.loadFunction.segments == old(io.loadFunction.segments)[file := old(io.loadFunction.ValuesFor(file)) + [Reference()]]
        && io.tickFunction.segments == old(io.tickFunction.segments)
      ensures path !in old(io.fakefs) && intent == Some("tick") ==>
        io.tickFunction.segments == old(io.tickFunction.segments)[file := old(io.tickFunction.ValuesFor(file)) + [Reference()]]
        && io.loadFunction.segments == old(io.loadFunction.segments)
      ensures path !in old(io.fakefs) && intent != Some("load") && intent != Some("tick") ==>
        io.loadFunction.segments == old(io.loadFunction.segments) && io.tickFunction.segments == old(io.tickFunction.segments)
    {
      if path !in io.fakefs {
        io.fakefs := io.fakefs + {path};
        if intent == Some("load") {
          io.loadFunction.Set(file, Reference());
        } else if intent == Some("tick") {
          io.tickFunction.Set(file, Reference());
        }
        io.out := io.out + [this];
      }
    }
  }

  /** A buffer whose commands never mention `$parent` always renders. */
  lemma {:induction false} NoParentMentionRenders(f: MCFunction, header: string)
    requires forall i :: 0 <= i < |f.functions| ==>
      !Contains(ReplaceAll(ReplaceAll(f.functions[i], "$block", f.Reference()), "$top", f.TopReference()), "$parent")
    ensures f.Contents(header).Ok?
  {
  }

  /** Rendering a command with no placeholders leaves it as it is. */
  lemma RenderPlain(f: MCFunction, command: string)
    requires '$' !in command
    ensures f.Render(command) == Ok(command)
  {
    assert "$block"[0] == '$' && "$top"[0] == '$' && "$parent"[0] == '$';
    CharRulesOut(command, "$block", '$');
    ReplaceAbsent(command, "$block", f.Reference());
    CharRulesOut(command, "$top", '$');
    ReplaceAbsent(command, "$top", f.TopReference());
    CharRulesOut(command, "$parent", '$');
    if f.parent != null {
      ReplaceAbsent(command, "$parent", f.parent.Reference());
    }
  }

  /**
   * The interpolated commands a script emitted to the `load` buffer
   * (`toLoad`) or to its own buffer, in the order emitted; a line that does
   * not interpolate contributes nothing.
   */
  function Emitted(interp: Interpolator, env: Env, emits: seq<(string, bool)>, toLoad: bool): seq<string> {
    if emits == [] then []
    else
      var last := emits[|emits| - 1];
      var line := Interpolate(interp, env, last.0);
      Emitted(interp, env, emits[..|emits| - 1], toLoad) + (if last.1 == toLoad && line.Ok? then [line.value] else [])
  }

  /** One more emitted line adds at most itself, to the buffer it was meant for. */
  lemma EmittedSnoc(interp: Interpolator, env: Env, emits: seq<(string, bool)>, i: nat)
    requires i < |emits|
    ensures var line := Interpolate(interp, env, emits[i].0);
            && Emitted(interp, env, emits[..i + 1], emits[i].1) == Emitted(interp, env, emits[..i], emits[i].1) + (if line.Ok? then [line.value] else [])
            && Emitted(interp, env, emits[..i + 1], !emits[i].1) == Emitted(interp, env, emits[..i], !emits[i].1)
  {
    assert emits[..i + 1][..i] == emits[..i];
  }

  /** When every line interpolates, each emitted command lands in exactly one of the two buffers. */
  lemma {:induction false} EmittedSplit(interp: Interpolator, env: Env, emits: seq<(string, bool)>)
    requires forall i :: 0 <= i < |emits| ==> Interpolate(interp, env, emits[i].0).Ok?
    ensures |Emitted(interp, env, emits, true)| + |Emitted(interp, env, emits, false)| == |emits|
  {
    if emits != [] {
      EmittedSplit(interp, env, emits[..|emits| - 1]);
    }
  }

}
