# lang-mc core, modelled in Dafny

lang-mc compiles `.mc` source files, a brace-structured command language, into Minecraft
data-pack functions. It also builds macro libraries from `.mcm` files. This project models
the deterministic core of the compiler and of its library linker, and proves properties of
that model.

- **Token stream compiler** (`entry.js`).
  - `tokenize` turns a file into a token deque (`tokenizer.dfy`).
  - The two handler tables, `consumer.EntryOp` at the top level and `consumer.Generic` in
    bodies, are built with `list`/`addAction` (`dispatch.dfy`, `syntax.dfy`).
  - The handlers consume tokens from the front of the deque and append commands to
    function buffers (`compiler.dfy`, class `Compilation.Compiler`).
  - Buffers are named from the namespace stack and per-reason counters (`naming.dfy`).
  - Balanced brace spans are skipped or captured (`braces.dfy`).
  - Macro calls parse `<type:content>` arguments and substitute `$$N` placeholders
    (`macros.dfy`).
  - `sequence` groups commands by tick offset (`sequence.dfy`).
  - Macro files are cached by `getMacro`, and library functions are pulled in by
    `includeFileList` (`sources.dfy`).
- **Command buffers and hook manifests** (`io.js`, `io.dfy`).
  - `MCFunction` is a class whose command list grows in place. `confirm` emits a buffer at
    most once per path and epoch, and `setEnv` starts a new epoch.
  - `MultiFile` and `MultiFileTag` are per-file aggregations that can be appended to, reset
    per key and flattened.
- **Library linker** (`transformlib.js`, `linker.dfy`).
  - Generated functions are renamed to `lib:<UID>/int/<id>_`.
  - The library's own functions are renamed to `lib:<UID>/ext/<n>_`.
  - Every old reference in the files is rewritten.
  - Each file's direct library references are computed, excluding the file's own reference.
  - `flatten` closes them transitively with a worklist.
  - The result is the macros or functions of the target, each with its dependency files.

Supporting modules:
- `text.dfy`: the JavaScript string operations the source uses (`trim`, `substr`,
  `indexOf`, `split`, `join`, replace-all).
- `values.dfy`: compile-time values and the evaluator oracle.
- `errors.dfy`: the compile errors.
- `wrappers.dfy`: `Option`, `Result` and `Outcome`.

Several behaviours of the code are modelled as written, and lemmas state them:
- In a file-local macro, placeholders are substituted from index 0 up, so `$$10` becomes
  argument 1 followed by `0` (`Macros.AscendingSplitsTen`).
- A typed argument written as one segment, `<type:content>`, is never listed
  (`Macros.OneSegmentArgumentIsLost`).
- A bare one-digit `delay` is read as a unit with no amount (`Sequence.TimeToTicksSingleDigit`).
- A function directly under `functions` gets the rename key `<ns>:/<stem>`
  (`Linker.OldReferenceKey`).
- `flatten` skips a child only when the child's file is already in the result
  (`Linker.Flatten`).

## Model

| member | source | states |
|---|---|---|
| Tokenizer.CopyToken | entry.js:1177-1183 | the copy keeps the line, text, file and dependencies of the original and carries the given arguments; copying with the original's own arguments gives the original back |
| Tokenizer.LexLine | entry.js:220-230 | the per-line step equals the line's specified tokens: a leading `}` first, then the trimmed text before a trailing `{` if non-empty, then `{`; otherwise the whole line |
| Tokenizer.LineStep | entry.js:217-219 | a line flips the block-comment flag exactly when it starts with `###`, and yields tokens only when the flag after it is off, it is not blank and does not start with `#` |
| Tokenizer.Tokenize | entry.js:214-233 | the reduce over the lines, with its accumulator and comment flag, returns exactly the left fold of the per-line outputs |
| Tokenizer.TokenizeLine | entry.js:216-231 | one turn of the reduce leaves the comment flag and the accumulator the specification has after that line |
| Tokenizer.CommentRegionDropped | entry.js:218-219 | a line reached inside a block comment yields nothing, the closing `###` line included |
| Tokenizer.OpenTokensShape | entry.js:225-230 | every token made from the text after a leading `}` is a fresh lexer token of that line with non-empty text |
| Tokenizer.LineTokensShape | entry.js:220-230 | every token of a kept line carries that line's 0-based index and has non-empty text |
| Tokenizer.TokensFromKeptLines | entry.js:214-233 | every token of the output comes from a kept line, with that line's index and non-empty text |
| Tokenizer.TokensOrdered | entry.js:214-233 | the output tokens come in the order of their lines |
| Tokenizer.TokensAsFlatten | entry.js:216-232 | the reduce is the concatenation of the per-line outputs, first line to last |
| Tokenizer.FlattenOrdered | entry.js:216-232 | per-line outputs that each carry their own line index concatenate in line order |
| Tokenizer.LineOutputIndex | entry.js:221-230 | every token one line adds carries that line's index |
| Tokenizer.OrderedAppend | entry.js:231 | pushing the tokens of a later line after those of earlier lines keeps the line order |
| Tokenizer.DroppedLinesYieldNothing | entry.js:218-219 | blank lines, `#` lines and every line of a `###` block (both toggle lines included) contribute no token to the output |
| Tokenizer.OpenBraceTexts | entry.js:225-228 | a line ending in `{` yields its trimmed remainder (only when non-empty) followed by `{` |
| Tokenizer.OpenBraceKeepsInk | entry.js:225-228 | splitting off a trailing `{` loses only whitespace |
| Tokenizer.OpenTokensKeepInk | entry.js:225-230 | the tokens after an optional leading `}` hold the same non-whitespace characters as the text, in order |
| Tokenizer.LineTokensKeepInk | entry.js:220-230 | the lexer loses only whitespace: the non-whitespace characters of a kept line are exactly those of its tokens, in order |
| Braces.DepthSnoc | entry.js:357-358 | one more token moves the depth up by one on `{`, down by one on `}`, and not otherwise |
| Braces.SkipLen | entry.js:354-359 | the counting loop never consumes more than the stream holds, and nothing when no brace is open |
| Braces.SkipLenBalances | entry.js:354-359 | the loop stops right after the `}` that closes every open brace and not before: every shorter prefix leaves a brace open, and the span is balanced unless the stream ran out |
| Braces.SkipLenStep | entry.js:355-359 | each turn of the loop consumes exactly one token and moves the count by that token |
| Braces.ValidateNext | entry.js:235-243 | the check succeeds exactly when the stream is empty or its first token is the wanted text; success drops that one token (nothing on an empty stream), failure names the token found, the text wanted and the line |
| Braces.ValidateNextRemovesOne | entry.js:236 | a successful check removes exactly one token, or none from an empty stream |
| Braces.SkipBalanced | entry.js:604-609 | the false branch of `!IF(…)` leaves exactly the stream after the balanced span of the already-opened brace |
| Braces.FindMatch | entry.js:1080-1087 | the matching `}` of a leading `{` is found exactly when the span closes within the stream, at the position where it closes |
| Braces.MatchStep | entry.js:1082-1085 | one step of the search moves its level by the token it reads, in step with the counting loop |
| Braces.CaptureSpan | entry.js:654-662 | the tokens carried along by an `execute … run … {` rewrite are the `{` and the balanced span after it; the rest of the stream is what follows |
| Braces.CaptureMacroBody | entry.js:73-84 | a macro definition's body is every token up to the `}` that closes it, without that `}`, or everything left when the file ends first; the consumed count is the span's length |
| Dispatch.List | entry.js:244-259 | the table keeps the actions in order and gives each its position as its priority |
| Dispatch.ListSorted | entry.js:255-258 | a freshly built table is sorted by priority |
| Dispatch.FirstMatch | entry.js:246 | the chosen action accepts the input and no earlier action does; no choice means no action accepts it |
| Dispatch.Dispatch | entry.js:245-253 | a handler runs exactly when some action accepts the input, and it is the first such action's; otherwise the default runs |
| Dispatch.DefaultPriority | entry.js:260 | the default priority of `addAction` is the table's length |
| Dispatch.InsertPos | entry.js:262-264 | the insertion point has only entries of lower priority before it |
| Dispatch.AddActionInserts | entry.js:260-265 | adding an action puts it after every entry of lower priority and moves nothing else |
| Dispatch.InsertPosAbove | entry.js:262-264 | on a sorted table every entry from the insertion point on has at least the new priority |
| Dispatch.AddActionSorted | entry.js:260-265 | adding an action keeps the table sorted by priority |
| Dispatch.InsertPosAllBelow | entry.js:260 | when every priority is below the new one, the action goes at the end |
| Dispatch.AddDefaultGoesLast | entry.js:260-265 | with the default priority, an action added to a built table goes last |
| Dispatch.DispatchLast | entry.js:246-252 | an action at the end of a table runs exactly when no earlier action accepts the input |
| Dispatch.AddAction | entry.js:260-265 | adding an action grows the table by exactly one entry |
| Naming.NamespaceOf | entry.js:999 | a buffer's namespace is the bottom of the namespace stack |
| Naming.PathOfNested | entry.js:268-277 | naming a buffer inside `dir seg { … }` gives the same namespace and the same path as naming `seg/name` outside it |
| Naming.PathOfEndsWithName | entry.js:1000 | a buffer's path ends with the name it was made for |
| Naming.GeneratedNameInjective | entry.js:988-992 | two generated names `__generated__/<reason>/<n>` are equal only for the same reason and the same number |
| Naming.FirstSlash | entry.js:988-992 | in a generated name the reason ends at the first `/` after the prefix |
| Naming.NextId | entry.js:992 | the next block of a reason is numbered 0 the first time and one more than the last after that |
| Naming.Bump | entry.js:992 | bumping a reason's counter sets it to its next number and leaves every other counter alone |
| Naming.NextIdCounts | entry.js:988-992 | numbering restarts with each file and counts the earlier blocks of the same reason: the n-th block of a reason gets n, from 0 |
| Naming.BadNameChar | entry.js:414-419 | a function name is rejected exactly when some character is outside `[a-z0-9_.]`, and the one reported is such a character |
| Naming.AcceptedNameHasNoSlash | entry.js:414-422 | an accepted function name holds no `/`, so it adds exactly one path segment |
| Naming.HashNames.Get | entry.js:31-38 | the first request for a hash names it after the prefix and the number of hashes named so far and remembers it; later requests return the remembered name and change nothing |
| Naming.HashNamesDistinct | entry.js:31-38 | two hashes named under the same prefix never share a name |
| Values.Evaluate | entry.js:113-123 | an expression the evaluator cannot run is the boolean `true`; otherwise its value is the evaluator's |
| IoModel.Without | io.js:44 | removing a key keeps every other key and only those |
| IoModel.WithoutDistinct | io.js:44 | removing a key keeps the key list free of repeats |
| IoModel.ConcatenatedAppend | io.js:33-39 | appending one value under a present key adds exactly that value to the flattened values |
| IoModel.ConcatenatedSame | io.js:37-39 | the flattened values depend only on the lists of the listed keys |
| IoModel.FlattenWithout | io.js:43-45 | dropping a key takes exactly its values out of the flattened values |
| IoModel.WithoutAbsent | io.js:44 | deleting an absent key changes nothing |
| IoModel.MultiFile.constructor | io.js:30-32 | a new aggregation holds no lists |
| IoModel.MultiFile.ValuesFor | io.js:40-42 | the values of a key are its list, or nothing when the key is absent |
| IoModel.MultiFile.Set | io.js:33-36 | `set` appends one value to that key's list and touches no other key; a new key is added last |
| IoModel.MultiFile.Reset | io.js:43-45 | `reset` removes that key and its list and nothing else |
| IoModel.SetAddsNewKey | io.js:33-39 | setting a value under a new key keeps every value and adds that one once |
| IoModel.FlattenSnoc | io.js:37-39 | a key added last contributes its list at the end of the flattened values |
| IoModel.ResetRemovesOnlyFile | io.js:43-45 | after `reset(file)` the flattened values are the old ones less exactly that file's list |
| IoModel.MultiFileTag.constructor | io.js:49-54 | a new tag holds no lists, is not registered and has written nothing |
| IoModel.MultiFileTag.Set | io.js:55-68 | `set` registers the tag file once per epoch, appends the list under that key only, and rewrites the JSON as `{replace: false, values: <every list flattened>}` |
| IoModel.MultiFileTag.Reset | io.js:69-82 | `reset` drops that key, registers the file again, and rewrites the JSON without that key's values |
| IoModel.Io.constructor | io.js:9-99 | a fresh module state has no confirmed path, no output and two empty event aggregations |
| IoModel.Io.SetEnv | io.js:174-177 | `setEnv` clears the set of confirmed paths and installs the environment, without touching the output |
| IoModel.Interpolate | io.js:12-27 | a line that is not a template is kept unchanged; a template is replaced by what the evaluator returns, and an evaluator failure is a template error |
| IoModel.PlainTextKept | io.js:13-26 | text without `<%` is never interpolated |
| IoModel.MCFunction.constructor | io.js:102-111 | a new buffer has the given parent, top (itself when none is given) and intent, no commands and namespace `lang_error` |
| IoModel.MCFunction.Reference | io.js:122-124 | the reference is the namespace, a `:`, then the path |
| IoModel.MCFunction.ToString | io.js:170-172 | the calling command is `function ` followed by the reference |
| IoModel.MCFunction.SetPath | io.js:119-121 | `setPath` sets the path |
| IoModel.MCFunction.SetNamespace | io.js:107 | the namespace is the one assigned |
| IoModel.MCFunction.AddCommand | io.js:116-118 | `addCommand` appends exactly one entry, the interpolated command; a failing template appends nothing and reports the error |
| IoModel.MCFunction.Render | io.js:129-142 | `$block` becomes the buffer's reference, `$top` the top's, `$parent` the parent's; the render fails exactly when `$parent` occurs and there is no parent |
| IoModel.MCFunction.RenderAll | io.js:128-143 | the commands render one for one, in order, exactly when every one of them renders |
| IoModel.MCFunction.Contents | io.js:125-145 | the contents fail exactly when there is no parent and some command still mentions `$parent`; otherwise they are the optional header and the rendered commands joined by newlines |
| IoModel.MCFunction.Confirm | io.js:159-169 | the first confirm of a path in an epoch records the path, registers a load or tick buffer under the file and emits the buffer once; a later confirm of the same path changes nothing |
| IoModel.NoParentMentionRenders | io.js:133-141 | a buffer none of whose commands mentions `$parent` always renders |
| IoModel.RenderPlain | io.js:129-142 | a command with no `$` renders unchanged |
| Syntax.AmountEnd | entry.js:846 | the amount of a `schedule` header is the longest run of digits and dots at that point |
| Syntax.ScheduleHeader | entry.js:845-848 | a `schedule` header is recognised exactly as its pattern says: `schedule`, an optional blank, a time of digits and dots with unit `d`, `t` or `s` or a template, an optional blank and an optional mode |
| Syntax.EntryTable | entry.js:278-399 | the top level has seven handlers: import, dir, function, clock, LOOP, `!IF(` and `!`, in that order |
| Syntax.GenericTable | entry.js:436-933 | a body has eighteen handlers, in the order of the source table |
| Syntax.GenericIfCall | entry.js:592-615 | inside a body `!IF(…)` always runs the compile-time `if`, never the `!…` handler |
| Syntax.EntryDirAnywhere | entry.js:282-311 | at the top level any token not starting with `import` that holds `dir ` with text after it is a `dir` block, whatever it starts with |
| Syntax.EntryIfCall | entry.js:311-342 | at the top level `!IF(…)` with no directive word inside runs the compile-time `if` |
| Syntax.ExecuteCallBeforeRun | entry.js:530 | `execute (…)` is a conditional even when it holds `run` |
| Syntax.FirstAcceptIs | entry.js:246 | the first table entry that accepts a token decides which handler runs |
| Syntax.LoopHeaderPlain | entry.js:1039-1041 | `LOOP(count, name)` with plain parts gives the count and the variable, both trimmed |
| Syntax.LoopHeaderList | entry.js:1042-1049 | in `LOOP([…], name)` the commas of the list stay in the count and the variable is the text after the last comma |
| Syntax.SplitLastCommaAt | entry.js:709-711 | the condition of `until`/`async while` may hold commas; the time is what follows the last one, both trimmed |
| Syntax.ExecuteRunSplit | entry.js:649-650 | `execute … run command` splits at the last `run` into the trimmed prefix through `run` and the trimmed command |
| Syntax.FirstWhitespace | entry.js:861 | the first whitespace at or after a position ends the non-whitespace run there |
| Syntax.SplitWhitespace | entry.js:861 | splitting on whitespace runs yields at least one piece |
| Syntax.SplitWhitespaceJoin | entry.js:861 | words joined by single spaces split back into the same words |
| Syntax.ToFunctionOf | entry.js:150-155 | a library path `data/<ns>/functions/<a>/<b>.mcfunction` becomes the reference `<ns>:<a>/<b>` |
| Syntax.ToFunctionOfParts | entry.js:150-155 | a path of plain segments becomes its second segment, a colon, and the segments from the fourth on |
| Syntax.ToFunctionParts | entry.js:150-155 | once `.mcfunction` is dropped and the path is split, the reference is the second piece, a colon and the pieces from the fourth on |
| Syntax.DropExtension | entry.js:152 | the one `.mcfunction` dropped is the one at the end when the rest holds no dot |
| Sources.MacroPath | entry.js:50-52 | the path looked up always ends in `.mcm`, and a path that already does is kept |
| Sources.Relabel | entry.js:61-67 | the tokens of a macro file keep their texts and all come from that file |
| Sources.MacroStore.constructor | entry.js:43 | the cache starts empty over the given files |
| Sources.MacroStore.Get | entry.js:49-111 | a missing file is an error that caches nothing; a cached file returns its macros without reading again; on success the file is cached, the dependent is recorded, and the result is the file's own macros; the cache only grows |
| Sources.MacroStore.AddDependent | entry.js:94-95 | the dependent is listed once and the macros are untouched |
| Sources.MacroStore.Read | entry.js:55-61 | a file seen for the first time is cached before its body is parsed, so a cycle of imports ends |
| Sources.MacroStore.Parse | entry.js:68-92 | parsing a macro file keeps the cache valid and only adds files to it |
| Sources.MacroStore.Define | entry.js:83 | a definition stores the body under its name and changes nothing else |
| Sources.MacroStore.ImportInto | entry.js:84-88 | an import keeps the cache valid and only adds files to it |
| Sources.Includes.constructor | entry.js:134 | a file starts with nothing included |
| Sources.Includes.Visit | entry.js:142-161 | a function file is copied with its text, a JSON resource queues its dependencies, and a completed `…tick.mcfunction`/`…load.mcfunction` is registered under the file by its function name; nothing registered before is lost |
| Sources.Includes.Add | entry.js:139-162 | a new name is included once, processed, and what earlier names left behind stays |
| Sources.Includes.Include | entry.js:136-166 | every listed name ends up included, the earlier list is kept as a prefix, every newly included JSON resource has all its dependencies included, every newly included name was processed, and every newly included name was listed or is a dependency of a newly included JSON resource |
| Sources.Includes.ReachedGrows | entry.js:137-149 | a name stays accounted for as more names are included, and the dependencies a new JSON resource queues are accounted for by it |
| Macros.Step | entry.js:1104-1127 | one segment keeps the argument state well formed; it fails exactly when it closes a block (`…>`, not starting with `<`) before any block was opened |
| Macros.Steps | entry.js:1103-1128 | the segment loop keeps the argument state well formed |
| Macros.Resolve | entry.js:1124-1127 | every listed argument resolves to one argument, blocks with their final content |
| Macros.NonEmpty | entry.js:1129 | the filter keeps exactly the arguments with non-empty content, in order |
| Macros.ParseArgs | entry.js:1099-1129 | every argument handed to a global macro has non-empty content |
| Macros.ParseMacroArgs | entry.js:1099-1129 | the shifting loop over the segments computes exactly the specified arguments |
| Macros.FailureSticks | entry.js:1103-1128 | once the segment loop has failed, later segments do not change the outcome |
| Macros.PlainSegments | entry.js:1125-1127 | segments that neither open nor close a block pass through as plain arguments of type "unkown", in order |
| Macros.TwoSegmentArgument | entry.js:1107-1129 | `<type:first` followed by `last>` makes one argument of that type with the trimmed content, dropped when that content is empty |
| Macros.OpenTyped | entry.js:1107-1111 | `<type:first` opens a block with that type and content |
| Macros.CloseTyped | entry.js:1120-1124 | `last>` closes the open block, trims its content and lists it |
| Macros.OneSegmentArgumentIsLost | entry.js:1106-1124 | a typed argument written as one segment `<type:content>` opens a block nothing closes, so it is never listed |
| Macros.Placeholder | entry.js:1141 | the placeholder of argument `j` is `$$` followed by `j` |
| Macros.SubstituteDownNoDollar | entry.js:1138-1143 | text without `$` is left alone by the substitution |
| Macros.PlaceholderNotInLower | entry.js:1138-1143 | a higher placeholder never occurs inside a lower one |
| Macros.HigherPlaceholdersSkip | entry.js:1138-1143 | substituting the higher indices first leaves `$$j` intact until its own turn |
| Macros.PlaceholderBecomesArgument | entry.js:1136-1145 | from the highest index down, a token that is exactly `$$j` becomes argument `j`'s content, so `$$10` is replaced before `$$1` |
| Macros.AscendingSplitsTen | entry.js:1166-1168 | in the file-local branch, substituting from index 0 up turns `$$10` into argument 1 followed by `0` |
| Macros.SubstituteUpNoDollar | entry.js:1166-1168 | text without `$` is left alone by the ascending substitution |
| Macros.ExpandGlobal | entry.js:1131-1145 | a global macro expands to one token per body token, in body order, each keeping its line, file and dependencies, carrying the arguments, with every placeholder substituted from the highest index down |
| Macros.ExpandLocal | entry.js:1155-1169 | a macro from a macro file expands to one fresh token per body token, with the body's line and file, the raw argument strings, and placeholders substituted from index 0 up |
| Macros.ExpandGlobalPlaceholder | entry.js:1136-1145 | a body token that is exactly `$$j` expands to argument `j`'s content |
| Sequence.Plus | entry.js:893 | adding offsets is JavaScript addition: NaN exactly when either side is NaN |
| Sequence.TimeToTicksUnit | entry.js:875-887 | an amount with unit `s` is 20 ticks each, with unit `d` 24000, with any other unit (`t` included) the amount itself |
| Sequence.AmountOf | entry.js:876 | the amount is the decimal number before the last character |
| Sequence.TimeToTicksSingleDigit | entry.js:876-877 | a bare one-digit time has no amount: its digit is read as the unit and the time is 0 |
| Sequence.Entries | entry.js:890-901 | the filed commands are at most the block's commands |
| Sequence.KeysOf | entry.js:899 | the offsets used are exactly those of the filed commands |
| Sequence.KeysOfDistinct | entry.js:899 | each offset is used once |
| Sequence.Group | entry.js:889-902 | the grouping loop files every command that is not a delay under the offset in force, in order, with `delay` adding to and `setdelay` setting the offset, and records each offset once in order of first use |
| Sequence.GroupCommand | entry.js:891-901 | one turn of the loop moves the offset or files the command, in step with the specification |
| Sequence.GroupStep | entry.js:891-901 | a delay files nothing; any other command extends exactly the group of the offset in force and adds that offset if it is new |
| Sequence.GroupOfAbsent | entry.js:899-900 | an offset no command runs at collects nothing |
| Sequence.EntryInGroup | entry.js:899-900 | every filed command lands in the group of its offset |
| Sequence.GroupSizes | entry.js:889-902 | together the groups hold exactly as many commands as were filed: none is lost or doubled |
| Sequence.SumSizesStep | entry.js:899-900 | one more filed command adds one to the total of the groups that include its offset |
| Sequence.SumSizesSnoc | entry.js:899-900 | one more offset adds its group's size to the total |
| Sequence.InsertAscending | entry.js:903 | inserting an index key keeps the keys ascending and adds exactly that key |
| Sequence.IndexKeysAscending | entry.js:903 | the index keys are exactly those of the object, in ascending order |
| Sequence.OtherKeys | entry.js:903 | the other keys are exactly the non-index keys of the object |
| Sequence.EnumerationOrder | entry.js:903 | `for … in` visits every offset of the object, and only those |
| Sequence.SmallOffsetsAscending | entry.js:903 | when every offset is a small whole number, the groups are visited by increasing offset |
| Compilation.Top | entry.js:994 | a block gets its functional parent as its top exactly when that parent is a buffer |
| Compilation.InterpolateAll | io.js:116-118 | interpolating a list of commands keeps its length when it succeeds |
| Compilation.InterpolateAllLines | io.js:116-118 | a list of commands interpolates exactly when every command does, and then each line is that command interpolated |
| Compilation.InterpolateOne | io.js:116-118 | one command interpolates as a list of one |
| Compilation.InterpolateAllAppend | io.js:116-118 | interpolating two runs of commands in turn is interpolating their concatenation: the first failure wins |
| Compilation.AddAll | entry.js:1002-1019 | adding commands one by one appends exactly their interpolations, and fails when one of them does |
| Compilation.CloseParen | entry.js:925-928 | the raw form ends at the first `)` token, and there is none before it |
| Compilation.SpacedJoin | entry.js:925-928 | the raw form's text is the token texts joined by single spaces, with one space after |
| Compilation.CollectRaw | entry.js:923-929 | the collecting loop yields the spaced texts before the first `)` and their count, and fails without a `)` |
| Compilation.ScriptEnd | entry.js:480-484 | a script block ends at the first `%%>` or empty token, and at none before it |
| Compilation.PrefixedJoin | entry.js:480-484 | the code of a script block is a newline followed by its lines joined by newlines |
| Compilation.CollectScript | entry.js:478-484 | the `do … while` loop collects exactly the code up to the end marker and consumes it with the marker; with no marker it fails |
| Compilation.PrefixedStep | entry.js:480-484 | one more line of script code adds a newline and that line |
| Compilation.ScriptEndAt | entry.js:480-484 | the first terminator found by the loop is where the block ends, and an empty terminator contributes one newline |
| Compilation.ConcatAssoc | entry.js:903-916 | appending lowered steps in turn does not depend on grouping |
| Compilation.LoweredInterpolated | entry.js:903-916 | interpolating the lowering of one more offset is the lowering so far followed by that offset's step |
| Compilation.LoweredSnoc | entry.js:903-916 | lowering one more offset appends its step, numbered after the buffers already scheduled |
| Compilation.InterpolateAllOk | io.js:116-118 | two runs that interpolate interpolate together, in order |
| Compilation.Counting | entry.js:1051-1058 | the counting values are `0 … n-1` |
| Compilation.LoopBindings | entry.js:1038-1060 | `LOOP` makes at least one pass; over a non-empty array it binds the items in order; over a count `n >= 1` it binds `0 … n-1` |
| Compilation.Dedup | entry.js:1231-1234 | the de-duplicated load buffer keeps every command and holds each once, and is no longer than before |
| Compilation.DedupDistinct | entry.js:1231-1234 | a list without repeats is left unchanged by the de-duplication |
| Compilation.ScopeOf | entry.js:938-942 | a token from no macro file sees the global macros; one from a cached macro file that imports the name sees that file's imported macros |
| Compilation.Before | entry.js:388-396 | the error after a bad top-level token quotes `EOF` when nothing follows, the next token when it has at most 10 characters, and its first 10 characters and `...` otherwise |
| Compilation.LastOnLine | entry.js:657-660 | the token found is the last one on that line, and none is found when no token is on it |
| Compilation.RunSpan | entry.js:655-670 | `execute … run` carries tokens into its block exactly when the last token on its line is `{` |
| Compilation.Compiler.constructor | entry.js:1194-1214 | a file starts with no tokens, no macros and fresh counters, with empty `load` and `tick` buffers at `__generated__/load` and `__generated__/tick` under the namespace stack |
| Compilation.BeginFile | entry.js:1209-1226 | before an existing file is compiled, its lists are dropped from the load and tick aggregations and from the `load`/`tick` tags (each tag reset to `{replace: false, values: []}`), the environment becomes `{config}` in a new epoch with nothing emitted, no other output changes, and the compiler starts as its constructor says |
| Compilation.Compiler.Entry | entry.js:400-408 | top-level compilation succeeds only once the token deque is empty |
| Compilation.Compiler.EntryOp | entry.js:278-398 | each top-level statement spends one step; a token no top-level handler accepts is an error naming it and the token after it |
| Compilation.Compiler.EntryDeclaration | entry.js:281-322 | the `import`, `dir` and `function` handlers keep the compiler state valid and the namespace stack on success |
| Compilation.Compiler.EntryControl | entry.js:323-385 | the `clock`, `LOOP`, `!IF` and `!` handlers keep the compiler state valid and the namespace stack on success |
| Compilation.Compiler.EntryBody | entry.js:272-373 | a nested top-level body is read until the closing `}`, which is left in front |
| Compilation.Compiler.Import | entry.js:281-308 | `import` consumes its token; a `.mcm` import merges that macro file's macros over the table and records this file as its dependent; any other import follows the library rules |
| Compilation.Compiler.ImportMacroFile | entry.js:287-291 | the macro file's macros are merged over the table and this file is recorded as a dependent |
| Compilation.Compiler.ImportLibrary | entry.js:292-305 | an import without a library name fails; a library that is not loaded is a type error (`Crash`); a missing component fails naming component and library; a present one is merged over the table; a failure leaves the table unchanged |
| Compilation.Compiler.Namespace | entry.js:268-277 | a `dir` whose name fails to interpolate fails; otherwise the body runs with one more namespace segment that is popped again, so the stack is unchanged on success |
| Compilation.Compiler.EntryCondition | entry.js:342-385 | a missing `{` fails; a false condition skips the balanced block up to its `}` and emits nothing |
| Compilation.Compiler.Function | entry.js:410-435 | the name is interpolated; a name with a character outside `[a-z0-9_.]` is rejected; on success the function's path under the namespace stack is emitted |
| Compilation.Compiler.FunctionBody | entry.js:420-434 | on success the named function is emitted under the namespace stack |
| Compilation.Compiler.Clock | entry.js:323-333 | on success the clock's block is the last load function registered for the file: for an unnamed clock its generated `clock` path, for a named one the interpolated name, under the namespace stack |
| Compilation.Compiler.Loop | entry.js:1030-1076 | a missing `{` fails; on success the loop name is unbound again |
| Compilation.Compiler.LoopCopies | entry.js:1041-1060 | the passes over copies leave the real token deque as it was |
| Compilation.Compiler.LoopPass | entry.js:1061-1064 | one pass reads statements up to the closing `}` |
| Compilation.Compiler.Block | entry.js:972-1028 | a block starts with `{`; it is fresh, under the namespace stack, with the given parent and top; named by `name <path>` or the next `__generated__/<reason>/<n>`; it holds the prepend lines first and append lines last; unless a dummy, it is emitted |
| Compilation.Compiler.BlockName | entry.js:983-993 | `name <path>` consumes the token and gives the trimmed interpolated path; otherwise the next generated name for the reason, with that counter bumped |
| Compilation.Compiler.BlockBuild | entry.js:994-1027 | the named block is a fresh buffer under the namespace stack with prepend lines first, append lines last, and it is emitted unless a dummy |
| Compilation.Compiler.ConfirmBuffer | entry.js:1023-1024 | confirming a buffer adds its path to the emitted paths and nothing else |
| Compilation.Compiler.NewBuffer | io.js:102-111 | a new buffer has the given parent, top, intent, namespace and path and no commands |
| Compilation.Compiler.BlockFill | entry.js:1001-1020 | a filled block holds the prepend lines first and the append lines last |
| Compilation.Compiler.SubBlock | entry.js:972-1028 | a successful block is a fresh buffer and spends a step |
| Compilation.Compiler.BlockBody | entry.js:1007-1021 | the body is read up to the closing `}` and the block ends with the interpolated append lines |
| Compilation.Compiler.GenericBody | entry.js:1007-1015 | a body is read until the closing `}`, which is left in front; the buffer only grows |
| Compilation.Compiler.Generic | entry.js:436-439 | each body statement spends one step, only appends to its buffer, and keeps the namespace stack |
| Compilation.Compiler.GenericStatement | entry.js:440-528 | `load`, `tick`, script, `warn`, `error` and `macro` statements only append to the buffer |
| Compilation.Compiler.GenericControl | entry.js:530-705 | conditions, blocks, `execute … run` and `LOOP` in a body only append to the buffer |
| Compilation.Compiler.GenericRepeat | entry.js:707-932 | `until`, `while`, `schedule`, `sequence` and the raw form only append to the buffer |
| Compilation.Compiler.LoadTick | entry.js:440-472 | `load { … }` and `tick { … }` keep the compiler state valid |
| Compilation.Compiler.Warn | entry.js:506-511 | `warn` consumes its token and fails exactly when its text fails to interpolate |
| Compilation.Compiler.ScriptBlock | entry.js:474-504 | a script block with no end marker fails; otherwise the code up to the marker is consumed with it, and the block succeeds exactly when the script completes and every emitted command interpolates, in which case the buffer gains the interpolated plain emits and the load buffer the load emits, each in order; any other failure is a script error |
| Compilation.Compiler.RunScript | entry.js:485-503 | the script runs with the environment and the token's arguments; it succeeds exactly when it completes and its emits interpolate, and then both buffers gain exactly the interpolated emits; a throw is a script error |
| Compilation.Compiler.Emit | entry.js:488-495 | the emits succeed exactly when every emitted command interpolates; then the buffer gains the interpolated plain emits and the load buffer the load emits, each in order; a failure is a script error; both buffers only grow |
| Compilation.Compiler.EmitNext | entry.js:489-495 | one more emit: it succeeds exactly when its command interpolates, and then the buffers hold the emits up to it; a failure changes neither buffer |
| Compilation.Compiler.EmitLine | entry.js:489-495 | an emit goes to the load buffer when flagged and to the block's buffer otherwise, as its interpolated command; the other buffer is unchanged, and a failure to interpolate changes neither |
| IoModel.EmittedSnoc | entry.js:489-495 | one more emit adds its interpolated command to the lines of its own buffer and nothing to the other's |
| IoModel.EmittedSplit | entry.js:489-495 | when every emit interpolates, each lands in exactly one of the two buffers |
| Compilation.Compiler.ExecuteIf | entry.js:530-590 | on success the buffer gets the flag reset to 0 first, followed by at least one arm |
| Compilation.Compiler.ElseArms | entry.js:554-589 | the `else` arms only append to the buffer |
| Compilation.Compiler.Arm | entry.js:540-585 | an arm spends a step and appends exactly one line; for a block without `name` it is the interpolated prefix followed by `function <namespace>:<path>` of the next generated `conditional` block |
| Compilation.Compiler.ConditionalBlock | entry.js:541-552 | the block of an arm spends a step and, without `name`, takes the next generated `conditional` path under the namespace stack |
| Compilation.Compiler.GenericCondition | entry.js:592-634 | a missing `{` fails; a false condition skips the balanced block up to its `}` and leaves the buffer unchanged |
| Compilation.Compiler.BlockStatement | entry.js:636-643 | a `block` statement only appends to the buffer |
| Compilation.Compiler.ExecuteRun | entry.js:645-697 | `execute … run` only appends to the buffer |
| Compilation.Compiler.ExecuteRunBlock | entry.js:672-691 | the wrapped block is compiled and its call or first command appended |
| Compilation.Compiler.WrapRun | entry.js:652-670 | the command, and the balanced block opening on its line, go back on the deque between `{` and `}` |
| Compilation.Compiler.ExecuteRunCall | entry.js:682-691 | a block of more than one command without `$block` is emitted and called after `execute … run function`; any other block's first command (or `undefined`) is inlined; exactly that one line is appended |
| Compilation.Compiler.Until | entry.js:707-742 | `until` only appends to the buffer |
| Compilation.Compiler.UntilBlock | entry.js:713-741 | on success the next numbered `__generated__/until` function is emitted and the buffer's last line calls it |
| Compilation.Compiler.UntilFunction | entry.js:726-741 | on success the `until` function is emitted and called last from the buffer |
| Compilation.Compiler.NewGenerated | entry.js:726-731 | a generated buffer is fresh and empty, named with the next number for its reason, which is bumped |
| Compilation.Compiler.EmitGenerated | entry.js:726-741 | the generated buffer holds exactly the interpolated commands, is emitted, and its call is appended to the buffer; failures of either interpolation fail |
| Compilation.Compiler.CallFrom | entry.js:790-841 | the buffer is emitted and its interpolated call appended, or nothing is appended when the call fails to interpolate |
| Compilation.Compiler.While | entry.js:744-843 | `while` and `async while` only append to the buffer |
| Compilation.Compiler.WhileBlock | entry.js:750-841 | on success the next numbered `__generated__/while` function is emitted and the buffer's last line calls it |
| Compilation.Compiler.WhileBody | entry.js:756-819 | on success the while function is emitted and called last from the buffer |
| Compilation.Compiler.WhileTail | entry.js:770-841 | on success the while function is emitted and called last from the buffer |
| Compilation.Compiler.WhileReset | entry.js:770-823 | the while function starts with the flag cleared and then runs the body when the condition holds |
| Compilation.Compiler.WhileFinish | entry.js:775-841 | on success the while function is emitted and called last from the buffer |
| Compilation.Compiler.Finally | entry.js:775-838 | the `finally` block only appends to the while function |
| Compilation.Compiler.Schedule | entry.js:845-862 | a `schedule` succeeds only when its header interpolates |
| Compilation.Compiler.SequenceStatement | entry.js:864-919 | `sequence` only appends to the buffer |
| Compilation.Compiler.EmitGroups | entry.js:903-917 | the lowering loop appends exactly the interpolated lowering: offset-0 commands in place, one numbered `schedule` per other offset, and the `sequence` counter advanced by that many |
| Compilation.Compiler.EmitGroup | entry.js:903-916 | one turn of the lowering loop extends the lowering by that offset's step |
| Compilation.Compiler.LowerOffset | entry.js:904-915 | offset 0 appends its commands in place; any other offset appends one schedule and emits a numbered buffer; the counter advances only for non-zero offsets |
| Compilation.Compiler.ScheduleGroup | entry.js:906-914 | a later offset gets the next numbered buffer, emitted, and a `schedule function … <t>t replace` line in the buffer |
| Compilation.Compiler.Raw | entry.js:921-932 | without a `)` the raw form fails; otherwise the tokens up to `)` are consumed and one line, their trimmed spaced texts interpolated, is appended |
| Compilation.Compiler.Default | entry.js:934-970 | a token that is not a macro call is consumed; an `execute … run <macro>` line without arguments of its own puts its head, `{`, the call and `}` in front of the deque and appends nothing; any other line is appended as one interpolated command, and a failure to interpolate fails and leaves the buffer unchanged |
| Compilation.RunAsBlock | entry.js:950-963 | a rewritten `execute` line becomes four tokens of its own line and arguments: the part up to ` run`, `{`, the command and `}` |
| Compilation.RunSplit | entry.js:946-949 | when ` run ` occurs, the head, a space and the command give back the line with ` run execute` dropped |
| Compilation.Compiler.HandleMacro | entry.js:1078-1098 | a macro call with nothing after it fails for want of tokens |
| Compilation.Compiler.Expand | entry.js:1129-1174 | a global call fails on bad arguments or an unknown name, otherwise puts the expansion in front of the deque and includes the macro's library dependencies; a file-local call fails on an unknown name, otherwise puts the local expansion in front; the macro table is unchanged |
| Linker.Dict.Put | transformlib.js:13-31 | assigning a key keeps the object well formed, maps the key to the value, and adds a new key last while an existing key keeps its place |
| Linker.Dict.Remove | transformlib.js:35-61 | deleting a key removes exactly that key |
| Linker.Present | transformlib.js:16-18 | `Object.keys` lists exactly the keys present |
| Linker.Insert | transformlib.js:93-103 | adding to an insertion-ordered set adds exactly that value, keeps it free of repeats, and leaves it alone when the value is there |
| Linker.InsertAll | transformlib.js:93 | `new Set(entries)` holds exactly the entries, once each |
| Linker.Select | transformlib.js:16-17 | a filter keeps exactly the names that pass, as often as they occur |
| Linker.SelectAppend | transformlib.js:16-17 | filtering a concatenation is filtering each part, in order: with `SelectOne` this fixes the order of the result as the order of `names` |
| Linker.SelectOne | transformlib.js:16-17 | a single name is kept exactly when it passes |
| Linker.KeptCounts | transformlib.js:16-17 | the filter's loop keeps each passing name as often as it occurs and nothing else |
| Linker.KeptAppend | transformlib.js:16-17 | the filter's loop distributes over concatenation |
| Linker.SelectDistinct | transformlib.js:16-17 | filtering the keys of an object lists each kept name once |
| Linker.ParsePath | transformlib.js:27-55 | destructuring a path fails exactly when it has fewer than four segments, so there is no id to pop |
| Linker.ParseFunctionPath | transformlib.js:27-57 | a function file `data/<ns>/functions/<dirs…>/<id>` is read back as its namespace, directories and id without `.mcfunction` |
| Linker.OldReferenceKey | transformlib.js:30-57 | the rename key is the function's reference `<ns>:<dirs…>/<stem>`, but `<ns>:/<stem>` for a function directly under `functions` |
| Linker.Location | transformlib.js:29-59 | the file of a library reference lies under `data/` |
| Linker.IntLocation | transformlib.js:29-33 | a generated function's new file is where its new reference `lib:<UID>/int/<id>_` lives |
| Linker.ExtLocation | transformlib.js:56-59 | a numbered function's new file is where `lib:<UID>/ext/<n>_` lives |
| Linker.ExtReferenceInjective | transformlib.js:56-63 | distinct numbers give distinct references |
| Linker.ExtReferences | transformlib.js:62-63 | the numbered references from `n` are `count` many |
| Linker.ExtReferenceAt | transformlib.js:62-63 | the `j`-th numbered reference from `n` is numbered `n + j` |
| Linker.ExtReferencesSplit | transformlib.js:62-63 | the numbered references from `n` split at any count into the first ones and those numbered after them |
| Linker.RewriteUnmentioned | transformlib.js:37-41 | a text that mentions no old reference is left as it was by the renames |
| Linker.RepeatUnmentioned | transformlib.js:42-48 | a rename with nothing to replace leaves a JSON text alone however often it is repeated |
| Linker.RewriteFiles | transformlib.js:37-71 | the renames keep the file names and their order |
| Linker.RewriteJson | transformlib.js:42-78 | the renames change only the text of the JSON files, never their names or dependencies |
| Linker.RewriteFilesSnoc | transformlib.js:37-41 | one more rename is one more replace-all over the text of every file |
| Linker.RewriteJsonSnoc | transformlib.js:42-48 | one more rename is that replace-all repeated over each JSON text, once per file of the build |
| Linker.GetDeps | transformlib.js:81-83 | `getDeps` returns exactly the linked references occurring in the text, each as often as listed |
| Linker.GetDepsAppend | transformlib.js:82 | `getDeps` over a concatenation of reference lists is the concatenation of the two results: with `GetDepsOne` this fixes the order as that of `functions` |
| Linker.GetDepsOne | transformlib.js:82 | a single reference is kept exactly when the text contains it |
| Linker.DropFirst | transformlib.js:87-89 | the splice removes one occurrence and nothing else |
| Linker.DirectDepsMembers | transformlib.js:85-90 | every mentioned reference other than the file's own is a direct dependency, and nothing else is |
| Linker.DirectDepsOwn | transformlib.js:85-90 | the file's own reference is listed once fewer than it is mentioned, so never when references are listed once |
| Linker.Invert | transformlib.js:84 | inverting `file_from_func` maps each file back to a reference of that file, and every file has one |
| Linker.OwnReference | transformlib.js:84-87 | the reference found for a file is one whose file it is; none is found only when no reference has that file |
| Linker.DependencyLists | transformlib.js:85-90 | the loop gives every file, and only the files, its direct dependency list |
| Linker.Flatten | transformlib.js:91-111 | the closure lists each reference once, holds every entry, holds only references with a file and a dependency list, holds nothing that is neither an entry nor needed by a member, and is closed under dependencies when no file name is a reference; it succeeds whenever every entry, and every child listed in any dependency list, resolves |
| Linker.Visit | transformlib.js:94-109 | one turn of the worklist keeps its invariant and shrinks either what is left to add or the queue |
| Linker.VisitNew | transformlib.js:97-108 | a new reference joins the result with its children queued, and what is left to add shrinks |
| Linker.WorklistDone | transformlib.js:94-110 | an empty worklist leaves the closure in the result |
| Linker.Enqueue | transformlib.js:101-105 | the inner loop queues exactly the children whose file is not in the result, without repeats |
| Linker.ChildrenInUniverse | transformlib.js:98-103 | every child of a reference is something `flatten` can meet |
| Linker.Normalize | transformlib.js:13 | a normalised name has no backslash, the same length, and a name without backslash is kept |
| Linker.PutAll | transformlib.js:11-14 | the files of one source keep the object well formed |
| Linker.Merged | transformlib.js:8-15 | the merged files form a well-formed object |
| Linker.MergedNames | transformlib.js:8-15 | a name is a file of the build exactly when some source has a file of that normalised name |
| Linker.PutAllNames | transformlib.js:11-14 | the files of one source add exactly their normalised names |
| Linker.MergeSource | transformlib.js:11-14 | the inner merge loop puts the files of one source in order |
| Linker.LocationInjective | transformlib.js:33-59 | distinct library references have distinct files |
| Linker.LocationInLibrary | transformlib.js:29-56 | the file of a reference into the library lies in the library's function folder |
| Linker.DependencyFilesInLibrary | transformlib.js:126-137 | the files an output depends on are distinct and in the library's function folder |
| Linker.FunctionOutputs | transformlib.js:131-141 | every compiled function of the source is output under its new file with its text and the files of its closure; a function never moved is an error; the output succeeds whenever every compiled function of the source was moved and every reference its new file mentions, and every child listed in any dependency list, resolves |
| Linker.Relabel | transformlib.js:121-125 | every macro token keeps its text and gets `lib/<name>` as line and file |
| Linker.TokenTexts | transformlib.js:126 | the texts are the tokens' texts, in order |
| Linker.NamesOf | transformlib.js:119 | the names are the metadata entries' names, in order |
| Linker.MacroOutputs | transformlib.js:115-129 | the output has exactly the metadata's names; each holds the last entry of its name, relabelled, with the files of its closure, and only those entries are read; it succeeds whenever every reference those entries mention, and every child listed in any dependency list, resolves |
| Linker.LastOfNames | transformlib.js:119-120 | an entry is the one the object keeps exactly when its name does not come again later |
| Linker.ExpandedStep | transformlib.js:119-127 | after each entry the output holds exactly the names whose last entry has been read, each expanded from that entry |
| Linker.LastIndex | transformlib.js:119-120 | every name of the metadata has a last entry, the one the object keeps |
| Linker.MoveTo | transformlib.js:29-62 | a move deletes the old name, keeps every other file with its text and puts the moved text at the new reference's file; it records the rename `key` to `ref` in the lookup (in its insertion order), `func` as gone to the new file, the new file as the file of `ref`, and appends `ref` to the linked references |
| Linker.LookupKey | transformlib.js:30 | a path has a rename key exactly when it has an id |
| Linker.GeneratedLookupKept | transformlib.js:26-36 | the first phase leaves alone a rename key that no generated function produces |
| Linker.GeneratedLookupAt | transformlib.js:30 | the key of a generated function, where it is the last to produce that key, is renamed to its `lib:<UID>/int/<id>_` reference |
| Linker.UserLookupKept | transformlib.js:52-65 | the second phase leaves alone a rename key that no function file produces |
| Linker.UserLookupAt | transformlib.js:57 | the key of a function file, where it is the last to produce that key, is renamed to the reference numbered by the count of function files before it |
| Linker.GeneratedMove | transformlib.js:27-35 | moving a generated function keeps every other file |
| Linker.GeneratedMoves | transformlib.js:26-36 | the first phase keeps the linker state well formed |
| Linker.UserMove | transformlib.js:53-64 | moving one of the library's own files keeps every other file |
| Linker.UserMoves | transformlib.js:52-65 | the second phase keeps the linker state well formed |
| Linker.IntReferences | transformlib.js:34 | the new references of the generated functions are `lib:<UID>/int/<id>_`, in order |
| Linker.GeneratedStep | transformlib.js:26-36 | a successful first phase is its first move followed by the rest: one reference linked, one transform recorded, no other file lost |
| Linker.GeneratedOutcome | transformlib.js:26-28 | the first phase fails exactly when some generated function's path has no id |
| Linker.GeneratedFunctions | transformlib.js:34 | after the first phase the linked references are those before followed by one per generated function, in order |
| Linker.GeneratedTransformsKept | transformlib.js:32 | the first phase records nothing for a name that is not a generated function |
| Linker.GeneratedTransformAt | transformlib.js:29-32 | each generated function is recorded as gone to the file of its new reference |
| Linker.GeneratedKeeps | transformlib.js:31-35 | the first phase deletes no file but the generated functions |
| Linker.GeneratedKeepAll | transformlib.js:31-35 | the library's own files survive the first phase |
| Linker.UserStep | transformlib.js:52-65 | a successful second phase is its first move followed by the rest; a function file is recorded and linked under the next number, any other file changes nothing |
| Linker.UserOutcome | transformlib.js:53-55 | the second phase fails exactly when some function file of the library's own has a path without an id |
| Linker.UserFunctions | transformlib.js:62-63 | the second phase links the numbered references from `n`, one per function file, in order |
| Linker.UserTransformsKept | transformlib.js:60 | the second phase records nothing for a name that is not one of the library's own files |
| Linker.UserTransformAt | transformlib.js:56-63 | each own function file is recorded as gone to the file numbered by the count of function files before it |
| Linker.UserKeeps | transformlib.js:58-61 | the second phase deletes no file but the library's own function files |
| Linker.Transform.constructor | transformlib.js:8-25 | the linker starts from the merged files, their JSON files, and empty renames, references, transforms and dependencies |
| Linker.Transform.Apart | transformlib.js:98-103 | no file of a linked reference is itself a linked reference |
| Linker.Transform.Move | transformlib.js:30-62 | a move of the linker state is the move `MoveTo` describes |
| Linker.Transform.MoveGenerated | transformlib.js:27-35 | moving a generated function fails exactly when its path has no id, and otherwise is the generated move |
| Linker.Transform.MoveUser | transformlib.js:54-63 | moving a function file of the library's own fails exactly when its path has no id, and otherwise is the numbered move |
| Linker.Transform.MoveAllGenerated | transformlib.js:26-36 | the first loop fails exactly when the first phase does, with its error, and otherwise leaves the state the first phase describes |
| Linker.Transform.MoveAllUser | transformlib.js:51-65 | the second loop fails exactly when the second phase does, with its error, and otherwise leaves the state the second phase describes |
| Linker.Transform.MoveNextUser | transformlib.js:53-64 | one turn of the second loop is the numbered move, and the number advances only for a function file |
| Linker.Transform.ReplaceInFiles | transformlib.js:38-71 | one rename is a replace-all over the text of every file, names unchanged |
| Linker.Transform.ReplaceInJson | transformlib.js:42-78 | one rename is a replace-all repeated over each JSON text once per file of the build |
| Linker.Transform.ApplyLookup | transformlib.js:37-79 | the renames are applied in the order recorded to every file and to every JSON file |
| Linker.Transform.ComputeDependencies | transformlib.js:84-90 | every file gets its direct dependencies and only files get one |
| Linker.Transform.JsonDependencies | transformlib.js:112-114 | every JSON file keeps its name and text and gets the closure of the references it mentions; it succeeds whenever every reference the JSON files mention, and every child listed in any dependency list, resolves |
| Linker.Transform.ClearLookup | transformlib.js:50 | the renames are emptied between the two phases |
| Linker.ClosureLinked | transformlib.js:91-111 | every reference of a closure is a reference into the library |
| Linker.MacroOutputsInLibrary | transformlib.js:126 | the dependencies of every macro are files of the library's function folder, each once |
| Linker.FunctionOutputsInLibrary | transformlib.js:137 | the dependencies of every output function are files of the library's function folder, each once |
| Linker.Applied | transformlib.js:37-49 | applying the renames keeps the file names |
| Linker.AppliedJson | transformlib.js:42-48 | applying the renames to the JSON files keeps their number |
| Linker.Dependencies | transformlib.js:85-90 | every file, and only a file, has a direct dependency list |
| Linker.Start | transformlib.js:8-15 | the linker starts from a well-formed state |
| Linker.AfterGenerated | transformlib.js:26-50 | the state after the first phase is well formed |
| Linker.Prepared | transformlib.js:8-79 | the state after both renaming phases is well formed |
| Linker.PreparedSplit | transformlib.js:26-79 | the renaming fails when the first phase fails, and otherwise exactly when the second fails; on success it is the second phase's renames applied to the first phase's result |
| Linker.NamesApart | transformlib.js:16-17 | the generated functions and the library's own files are each listed once and share no name |
| Linker.PreparedOutcome | transformlib.js:27-55 | renaming succeeds exactly when every generated function and every own function file has a path with an id |
| Linker.PreparedFunctions | transformlib.js:34-63 | after renaming the linked references are one `lib:<UID>/int/<id>_` per generated function, in order, followed by `lib:<UID>/ext/0_` … one per own function file |
| Linker.PreparedGeneratedTransform | transformlib.js:29-32 | after renaming each generated function is recorded as gone to `data/lib/functions/<UID>/int/<id>_.mcfunction` |
| Linker.PreparedUserTransform | transformlib.js:56-60 | after renaming each own function file is recorded as gone to the file numbered by the count of function files before it |
| Linker.PreparedTransforms | transformlib.js:29-60 | both transform facts hold for every generated function and every own function file |
| Linker.DistinctAfter | transformlib.js:16-17 | a name listed once does not recur later |
| Linker.GeneratedPhase | transformlib.js:26-50 | the first phase fails exactly when the generated moves fail, with their error; on success the state is the generated moves with their renames applied to every file and every JSON file and the lookup emptied; JSON names, dependencies and the library's own files are kept |
| Linker.UserPhase | transformlib.js:51-79 | the second phase fails exactly when the numbered moves fail, with their error; on success the state is the numbered moves with their renames applied to every file and every JSON file |
| Linker.ResolveDependencies | transformlib.js:80-114 | files and JSON texts are unchanged; every file gets its direct dependencies; on success every JSON file carries the closure of the references it mentions; it succeeds whenever every reference the JSON files mention, and every child listed in any dependency list, resolves |
| Linker.Rename | transformlib.js:8-79 | both renaming phases on the build's files fail exactly when `Prepared` does, with its error, and otherwise leave the state and JSON files of `Prepared` |
| Linker.Prepare | transformlib.js:8-114 | the linker fails with the renaming's error when renaming fails; on success the state is that of `Prepared`, the JSON files keep their names and renamed texts, every file has its direct dependencies, every JSON file carries the closure of its references (all into the library), the linked references and the transforms of every generated and own function file are as `PreparedFunctions` and `PreparedTransforms` say; it succeeds whenever the renaming succeeds and every reference the renamed JSON texts mention, and every child listed in any dependency list, resolves |
| Linker.Link | transformlib.js:7-144 | a renaming failure is returned; on success a macro target yields macros and a function target functions, the JSON files are the renamed ones with their closures; a function target outputs every compiled function of its source under its new file with its text and dependency files; a macro target's metadata entry exists and parses, the output has exactly its names and each keeps the last entry of its name relabelled to `lib/<name>` with its dependency files; every dependency is in the library; when the renaming succeeds and those JSON references resolve, a function target succeeds whenever every function file of its source was moved and what its new file mentions resolves, and a macro target whenever its metadata exists, parses and what each kept macro mentions resolves |

## Left out

- File system and module loading are not modelled: `fs`, `require` of the project's configuration files, and `loadLib`. The loaded libraries (`libraries`, `lib_function_lookup`) are a parameter of the compiler (`Compilation.Host`). `path.resolve` and `path.join` become a `resolve` function parameter. The metadata entry and source key of the linker are parameters too.
- The sink is modelled as the list of emitted buffers and the set of confirmed paths. `File.confirm`/`setContents` writing to disk is not modelled.
- JavaScript evaluation is modelled as oracles: `evaluate`, `evaluateCodeWithEnv` for `<%% … %%>` blocks, and `<% %>` template interpolation. An expression that throws counts as `true`, as in the source.
- Regular expressions are modelled as literal replace-all. This covers the `$$j` substitution and the linker's rename keys. The `.` metacharacter in keys and `$` patterns in replacement strings are not modelled.
- `timeToTicks` is modelled for natural-number amounts only. Fractional amounts, which `+` coercion allows, are not modelled.
- The `Date`-based library id `UID` and the library name are parameters of `Linker.Link`.
- The `Math.random` default path of `MCFunction` is not modelled; a new buffer has the empty path until `setPath`. The md5 `getHash` is not modelled.
- `JSON.parse` of the macro metadata is the `parse` parameter of `Linker.Link`. Unparseable metadata and a missing entry are the error `BadMetadata`.
- The linker's sources are a list of (source, files) pairs. A repeated file name within or across sources behaves as a later assignment to the same key would. A repeated source key, which a JavaScript object cannot hold, puts the files of every entry with that key into the build, in order, while `SourceFiles`, the file names of a target source, takes those of the last such entry only.
- Exceptions are modelled as error results (`CompileError`, `LinkError`). Running off the end of the token deque is `ExpectedMore`. Reading a property of `undefined` is `Crash`.
- The exception-message normalisation of `MC_LANG_HANDLER` is not modelled.
- `EventEmitter` events, `logger` output and the registry wiring are not modelled. `warn` only checks that its text interpolates.
- The per-file driver `MC_LANG_HANDLER` is modelled through the state it sets up for an existing file (`Compilation.BeginFile`) and the load de-duplication (`Compilation.Dedup`). Reading the file, the branch for a file that no longer exists, the `start`/`end` events and writing the tags afterwards are not modelled. The reset of `MacroStorage` is not modelled: it is only handed to evaluated `<%% … %%>` code, which is an oracle here. `MCM_LANG_HANDLER` is not modelled beyond `getMacro` (`Sources.MacroStore`).
- The F_LIB metadata writes of `getMacro` (entry.js:96-102) are not modelled.
- The source recurses without bound: a macro may expand to a call of itself. Every handler dispatch spends one unit of a `steps` budget, and running out is the error `OutOfSteps`. A compilation that the source would finish within the budget is modelled exactly.
- Compilation.Compiler.Entry: states success only when the deque is emptied, not which commands each statement produced.
- Compilation.Compiler.EntryDeclaration: states that the state stays valid and the stack is kept; the effects of `import`, `dir` and `function` are stated by the handlers it calls.
- Compilation.Compiler.EntryControl: states that the state stays valid; the effects of `clock`, `LOOP` and conditions are stated by the handlers it calls.
- Compilation.Compiler.Generic: states one step spent, the buffer only grown and the stack kept, not which handler ran; `Dispatch.Dispatch` and `Syntax.GenericTable` state the choice.
- Compilation.Compiler.GenericStatement: states only that the buffer grows.
- Compilation.Compiler.GenericControl: states only that the buffer grows.
- Compilation.Compiler.GenericRepeat: states only that the buffer grows.
- Compilation.Compiler.LoadTick: does not state that the block's commands land in the load or tick buffer.
- Compilation.Compiler.ElseArms: states only that the buffer grows.
- Compilation.Compiler.EntryCondition: when the condition holds, states only that the state stays valid and progress is made; what the body compiles to is not stated, because no function of the token deque describes a compiled body.
- Compilation.Compiler.GenericCondition: when the condition holds, states only that the state stays valid, progress is made and the buffer only grows; what the body appends is not stated, for the same reason.
- Compilation.Compiler.Clock: does not state the `schedule function $block <time>` line the clock's block starts with; `Block` states its prepend lines (`Framed`) for a buffer the handler does not return.
- Compilation.Compiler.ExecuteIf: states the flag reset and that at least two lines follow it. The first arm's `execute <cond> run function …` line is stated by `Arm`, in the environment after that arm, which the handler's contract cannot name. The chaining of the `else` arms through the flag is stated only by the prefixes `ElseArms` passes to `Arm`.
- Compilation.Compiler.Arm: states the call line only for a block without `name`; a named block's call is not stated.
- Compilation.Compiler.Default: the macro-call branch states only that the state stays valid and progress is made; `HandleMacro` and `Expand` state the expansion.
- Linker.Flatten: the success condition asks that every entry and every child in any dependency list resolve (`AllResolve` over `Universe`), not only the children reachable from the entries; a closure that succeeds while an unreachable child does not resolve is not stated.
- Linker.FunctionOutputs: the success condition is `AllResolve` over every listed child, as for `Flatten`, not only the reachable ones.
- Linker.MacroOutputs: the success condition is `AllResolve` over every listed child, as for `Flatten`, not only the reachable ones.
- Linker.MacroOutputs: the output keys follow the order in which the kept entries come in the metadata, not the `JSON.parse` order, where integer-like names come first in ascending order and the others follow their first occurrence.
- Linker.Transform.JsonDependencies: the success condition is `AllResolve` over every listed child, as for `Flatten`, not only the reachable ones.
- Linker.ResolveDependencies: the success condition is `AllResolve` over every listed child, as for `Flatten`, not only the reachable ones.
- Linker.Prepare: the success condition is `AllResolve` over every listed child, as for `Flatten`, not only the reachable ones.
- Linker.Link: the success conditions are `AllResolve` over every listed child, as for `Flatten`, not only the reachable ones.
- Compilation.Compiler.BlockStatement: does not state that the block's call is the line appended.
- Compilation.Compiler.ExecuteRun: states only that the buffer grows; `WrapRun` and `ExecuteRunCall` state the rewrite and the line appended.
- Compilation.Compiler.ExecuteRunBlock: states only that the buffer grows.
- Compilation.Compiler.Until: states only that the buffer grows; `UntilBlock` states the function emitted and called.
- Compilation.Compiler.While: states only that the buffer grows; `WhileBlock` states the function emitted and called.
- Compilation.Compiler.Finally: states only that the while function grows.
- Compilation.Compiler.SequenceStatement: states only that the buffer grows; `EmitGroups` and `Sequence.Group` state the lowering.
- Compilation.Compiler.EmitGroups: does not state the contents of each scheduled buffer, only the lines added to the enclosing buffer and the buffers emitted.
- Compilation.Compiler.HandleMacro: states only the failure on an empty deque; `Expand` states the expansion, but the block arguments are not tied to it.
- Compilation.Compiler.Loop: does not state the commands each pass produces, only the `{` check and the unbinding of the loop name.
- Compilation.Compiler.Schedule: does not state the `schedule` line appended.
- Compilation.Compiler.Namespace: states the interpolation failure and, through the unchanged stack, the pop; not the body's commands.
- Sources.MacroStore.Parse: states that the cache stays valid and only grows, not the macros defined.
- Sources.MacroStore.ImportInto: states that the cache stays valid and only grows, not the macros merged.
