# callTree: a verified model of the caller-tree engine

`callTree.py` builds caller trees for C symbols from the tag tables of GNU
Global. GTAGS holds the definitions, GRTAGS the references and GPATH the
file ids. The `CallTree` class does five things:

- it groups the table rows into dictionaries;
- it indexes the definitions by file and line (`buildDefinitionMap`);
- it decodes GNU Global's compact line-number lists (`splitLineNumbers`);
- for every reference it finds the enclosing definition (`findCaller`),
  using a binary search over the definition lines (`searchEngine`), a
  cached test for `#define` macros (`checkIsCallerMacro`), and a scan of
  backslash-continued macro bodies (`checkIsCalleeInCallerMacro`);
- it expands callers recursively into nested dictionaries (`findAllCaller`
  and `buildTree`). The markers are `@Blacklisted` and `@Traversed`, and
  the `traversed` dictionary is shared by all roots.

The model keeps that shape:

- `Engine.CallTree` is a class. `traversed`, `checkedMacro`, `trees` and the
  dictionaries are fields that its methods update. The methods' loops carry
  invariants.
- Every method is proved to compute a specification function of the value
  modules:
  - `Tags`: the tables and the definition index;
  - `LineNumbers`: the line-number decoder;
  - `Search`: the nearest-definition search;
  - `Resolve`: what `findCaller` answers and the macro cache it leaves;
  - `Expansion`: the trees and the `traversed` map.
- The lemmas about those functions state what the program promises.
- Python exceptions become `Err` values that every caller passes on. An
  uncaught exception ends the whole run.
- Insertion order is kept wherever it is visible in the output:
  - the returned caller dictionaries and `trees` are association lists
    (`Dicts`);
  - `definitions` and `functionDefinitions` are maps, each with its key
    order beside it in a sequence (`definitionOrder`, `functionOrder`);
    that order fixes the order of symbols in the definition maps and so
    the order of callers.
- `str.split`, `str.strip`, `isnumeric`, `int` and `str` are written out in
  `PyStr`.

Behaviour of the program worth noting, which the model keeps:

- a blacklisted symbol appears in the tree with the marker `@Blacklisted`;
- a symbol expanded once, under any root, is marked `@Traversed` everywhere
  afterwards, because `traversed` is shared by the whole run;
- the expansion has no depth limit;
- a caller line of 0 makes the macro-body scan of checkIsCalleeInCallerMacro
  start at `codes[-1]`, the file's last line, as Python's negative index
  does; `Resolve.ContinuesTo` keeps this through `PyIndex`, and
  `Resolve.CalleeInMacroMeaning` characterises only caller lines from 1 on;
- errors are the Python exceptions the code raises, and any of them ends
  the run.

## Model

| member | source | states |
|---|---|---|
| PyStr.Split | callTree.py:183 | `str.split(sep)` gives at least one piece, and no piece contains the separator |
| PyStr.JoinSplit | callTree.py:183 | joining the pieces of a split with the separator gives the string back |
| PyStr.SplitJoin | callTree.py:183 | splitting the join of separator-free pieces gives the pieces back |
| PyStr.SplitPiece | callTree.py:183 | a piece without the separator splits into itself alone |
| PyStr.SplitPieceThen | callTree.py:183 | a separator-free piece then the separator splits off as the first piece |
| PyStr.AfterSeparatorsIsSplitTail | callTree.py:87-91 | `split(' ', 3)[3]` exists exactly when the plain split has more than three fields, and it is the rest of the fields joined back with spaces |
| PyStr.SpaceRunSpans | callTree.py:223 | the leading whitespace run is all whitespace and is followed by a non-space or the end |
| PyStr.SpaceRunUnique | callTree.py:223 | any prefix that is all whitespace and followed by a non-space or the end is exactly the leading run |
| PyStr.TrimRightDrops | callTree.py:213 | trimming the right keeps a prefix, ends in a non-space, and drops only whitespace |
| PyStr.StripTrims | callTree.py:213 | `strip()` gives an infix of the line that starts and ends with a non-space and has only whitespace around it |
| PyStr.DigitChar | callTree.py:294 | the character `str` writes for a digit is a digit of that value |
| PyStr.NatToString | callTree.py:294 | `str(n)` is a canonical numeral: digits only, no leading zero |
| PyStr.ParseNatToString | callTree.py:294 | `int(str(n)) == n` |
| PyStr.ParseNatLeading | callTree.py:282 | a numeral is worth at least its leading digit |
| PyStr.NatToStringParse | callTree.py:294 | `str(int(s)) == s` for every canonical numeral `s` |
| Dicts.FirstOccurrences | callTree.py:361-378 | the first occurrences of a list are distinct and hold exactly its elements |
| Dicts.Keys | callTree.py:361-378 | the keys of an association list are its first components, in order |
| Dicts.Put | callTree.py:365-378 | `d[k] = v` keeps the key order when `k` is present and appends `k` otherwise; `k` then maps to `v` and every other key keeps its value |
| Dicts.KeysCons | callTree.py:365-378 | the keys and values of an association list with a pair in front |
| Dicts.FirstOccurrencesPrefix | callTree.py:361-378 | one more element adds itself to the first occurrences exactly when it is new |
| Search.NearestUnique | callTree.py:256-278 | at most one line is the nearest definition of a call line |
| Search.Nearest | callTree.py:256-278 | every non-empty set of lines has a nearest definition |
| Search.NearestIs | callTree.py:256-278 | the nearest definition is the one line with that property |
| Search.SearchEngine | callTree.py:256-278 | on a non-empty ascending list the index is in range; it holds the target when the target is present, and otherwise holds a value below the target (or is 0) with nothing at or below the target after it; it is never -1 |
| Search.SearchFindsNearest | callTree.py:256-278 | the value at that index is the nearest definition line: the target itself, else the largest line below it, else the smallest line |
| Search.InsertionPoint | callTree.py:283 | the insertion point has exactly the elements below `x` before it |
| Search.InsertSorted | callTree.py:283 | inserting into a sorted list keeps it sorted and is a permutation of the old list plus one `x` |
| Search.InsertAt | callTree.py:283 | placing `x` after the elements below it keeps the list sorted and adds exactly one `x` |
| Search.SplicePermutes | callTree.py:283 | splicing `x` into a list at any position adds exactly one `x` to its multiset |
| Search.SortedLineNumbers | callTree.py:282-283 | `sorted([int(num) for num in keys])`: ascending, one number per key, and the values are the keys' values |
| LineNumbers.ParseEntry | callTree.py:185-192 | a parsed plain entry has no `-` and is numeric; a parsed run has a `-` |
| LineNumbers.ParseEntriesStep | callTree.py:184-192 | one more token either fails the decoding or appends its entry |
| LineNumbers.ExpandSnoc | callTree.py:187-197 | one more entry appends its numbers, counted from the current number, and moves the current number by its delta plus its repeats |
| LineNumbers.EmitRun | callTree.py:195-196 | a run emits `repeats + 1` consecutive numbers |
| LineNumbers.ParseEntriesErrPersists | callTree.py:184-192 | the first bad token decides the error; later tokens do not matter |
| LineNumbers.AppendRun | callTree.py:195-196 | the inner loop appends the run of consecutive numbers |
| LineNumbers.AppendEntry | callTree.py:185-197 | one iteration: the entry's error (AssertionError for a non-numeric part, ValueError for a bad `d-r` shape), or the list with the entry's numbers appended and the advanced current number |
| LineNumbers.SplitLineNumbers | callTree.py:180-199 | the decoder computes `Decode`: the entries' numbers in order, or the first token's error |
| LineNumbers.ExpandLength | callTree.py:180-199 | the output has one number per plain entry and `r + 1` per run `d-r` |
| LineNumbers.ExpandBounded | callTree.py:180-199 | every number is at most the final current number, and the last one equals it |
| LineNumbers.ExpandSorted | callTree.py:180-199 | the decoded numbers are non-decreasing |
| LineNumbers.ParseEntriesOk | callTree.py:184-192 | decoding succeeds exactly when every token parses, and then yields one entry per token, in order |
| LineNumbers.NonNumericTokenFails | callTree.py:185-192 | a token with a non-numeric part makes the decoding fail |
| LineNumbers.Texts | callTree.py:183 | the encoding writes one token per entry |
| LineNumbers.NumeralHasNoSeparator | callTree.py:183-190 | a numeral has no `,` or `-` |
| LineNumbers.ParseEntryText | callTree.py:185-192 | parsing an entry's text gives the entry back |
| LineNumbers.TextsHaveNoComma | callTree.py:183 | no token of an encoding contains a comma |
| LineNumbers.ParseTexts | callTree.py:184-192 | parsing the tokens of an encoding gives the entries back |
| LineNumbers.DecodeEncode | callTree.py:180-199 | decoding the text of an entry list gives exactly the numbers that list stands for |
| Tags.GroupIsFilter | callTree.py:79-85 | a key is grouped exactly when some row has it, and its records are those rows' remaining columns in row order |
| Tags.RecordsWithKeyMembership | callTree.py:79-85 | a record is listed under `k` exactly when some row with key `k` carries it |
| Tags.GroupKeys | callTree.py:81-85 | the grouped keys are the keys of the rows |
| Tags.KeyOrderListsGroup | callTree.py:81-85 | the key order lists each grouped key once |
| Tags.DefineMacroMatches | callTree.py:223 | when `Tags.IsDefineMacro` (isSourceCodeDefineMacro) holds, `#\s*@d\s+@n` matches at the start with the whitespace runs it consumed |
| Tags.MatchesDefineIsMacro | callTree.py:223 | any match of `#\s*@d\s+@n` at the start makes `Tags.IsDefineMacro` hold |
| Tags.DefineMacroIsPattern | callTree.py:223 | `Tags.IsDefineMacro`, the model of isSourceCodeDefineMacro, holds exactly when `#\s*@d\s+@n` matches at the start |
| Tags.FunctionRowsFilter | callTree.py:87-99 | the function rows are GTAGS rows that have a fourth field and are not defines |
| Tags.PathTableLastWins | callTree.py:107-112 | a file id maps to the path of its last GPATH row |
| Tags.AddDefinitionShape | callTree.py:130-144 | one record keeps the index's shape: numeric line keys and non-empty symbol lists |
| Tags.AddDefinitionLists | callTree.py:130-144 | one record adds exactly its symbol at its file and line |
| Tags.IndexRecordsLists | callTree.py:128-145 | the records of one symbol add that symbol exactly at the places they define |
| Tags.IndexRecordsShape | callTree.py:128-145 | the records of one symbol keep the index's shape |
| Tags.DefinitionIndexLists | callTree.py:125-146 | `s` is in `definitionMap[f][l]` exactly when `s` is a key with a record in file `f` whose third field is the numeral `l` |
| Tags.DefinitionIndexShape | callTree.py:125-146 | every file maps to a non-empty index of numeric lines with non-empty lists |
| Tags.TableIndexLists | callTree.py:79-146 | `s` is listed at `(f, l)` exactly when some GTAGS row for `s` defines it there; rows with fewer than three fields or a non-numeric line are skipped |
| Tags.TableIndexShape | callTree.py:125-146 | the index built from any rows has that shape |
| Tags.FunctionIndexWithinIndex | callTree.py:150-169 | whatever `functionDefinitionMap[f][l]` lists, `definitionMap[f][l]` lists too |
| Tags.GroupSnoc | callTree.py:68-112 | one more row appends its record under its key, appends a new key to the key order, overwrites its GPATH entry, and is kept as a function row only when it is one |
| Resolve.ScanDefs | callTree.py:239-243 | the only error the scan raises is IndexError |
| Resolve.ScanDefsFails | callTree.py:239-243 | the scan fails exactly when a record without a fourth field comes before every define record |
| Resolve.ScanDefsMeaning | callTree.py:239-243 | when it succeeds, the scan answers true exactly when some record is a define |
| Resolve.MacroCheck | callTree.py:225-247 | the only error is IndexError |
| Resolve.MacroCheckSound | callTree.py:225-247 | from a cache whose every entry is right, the cache stays right, and the answer is true exactly when a symbol with a define comes before the first symbol without definitions |
| Resolve.MacroCheckStopsAtUndefined | callTree.py:235-237 | after defined non-macro symbols, a symbol without definitions makes the answer false and caches false for it |
| Resolve.ContinuesToForward | callTree.py:211-220 | from a line at or before the target: true exactly when the target line exists and every line before it from the start ends in a backslash |
| Resolve.ContinuesToPastTarget | callTree.py:211-220 | a scan that starts after the target never answers true |
| Resolve.CalleeInMacroMeaning | callTree.py:201-220 | for a known, existing file, call line `m >= 2` and caller line `n >= 1`: true exactly when `n <= m`, line `m` exists and lines `n` to `m-1` all end in a backslash after stripping |
| Resolve.NearestLine | callTree.py:281-292 | the caller line of the first search is the nearest definition line of the file |
| Resolve.ResolveCallerNone | callTree.py:249-303 | None exactly when the file has no definitions (cache unchanged), or the macro half at the nearest line answers false and the file has no function definitions (the cache that test left); both directions |
| Resolve.ResolveCallerKeepsCache | callTree.py:225-320 | from a sound macro cache (every cached value true exactly when the symbol has a define), findCaller leaves a sound cache |
| Resolve.ResolveCallerSound | callTree.py:294-320 | from a sound macro cache, a macro-half answer is the nearest line's candidates, among which a symbol reached before the first undefined one has a define, and whose body holds the call; any other answer is the definition-map symbols at the nearest function line |
| Resolve.ResolveAtLineSound | callTree.py:296-320 | from a sound macro cache, a Some answer at line `v` is either the candidates of a real macro whose body holds the call, or the fallback's answer |
| Resolve.ResolveCallerSome | callTree.py:294-320 | an answer is either the candidates at the nearest definition line, when they form a macro (the cache after the test says so) whose continued body holds the call, or the definition-map symbols at the nearest function-definition line |
| Resolve.ResolveMacroHolds | callTree.py:296-297 | the macro half answers true only when the macro test and the body test both answer true |
| Resolve.ResolveFallbackMeaning | callTree.py:300-320 | the fallback answers the definition-map symbols at the nearest function-definition line |
| Resolve.NearestKeyPresent | callTree.py:294 | with canonical line keys, `str(int(key))` finds the nearest line's symbols |
| Resolve.FunctionLinesWithin | callTree.py:318 | every function-definition line of a file is a definition line of it |
| Resolve.KeyErrorFromPathOnly | callTree.py:205-318 | when both lookups find their keys, a KeyError can only come from the GPATH lookup of the macro-body test |
| Resolve.ResolveLookupsSucceed | callTree.py:294-318 | maps built from GTAGS rows with canonical line numerals are well shaped, and both lookups of findCaller find their keys |
| Expansion.MarkAll | callTree.py:355-356 | every caller of the answer gets the position; other entries are kept |
| Expansion.CollectLinesNext | callTree.py:350-357 | one line: an error ends the loop, None skips the line, and an answer appends the callers and records their position |
| Expansion.CollectLinesCovers | callTree.py:350-366 | every collected caller has a recorded position |
| Expansion.CollectRefsCovers | callTree.py:340-366 | after all reference rows, every collected caller has a recorded position |
| Expansion.SubsetSize | callTree.py:359 | a subset is no larger |
| Expansion.UntraversedShrinks | callTree.py:359 | marking an untraversed referenced symbol leaves fewer untraversed |
| Expansion.UntraversedMonotone | callTree.py:359 | traversing more never leaves more untraversed |
| Expansion.ExtendsTransitive | callTree.py:359 | growing `traversed` twice is growing it |
| Expansion.ExtendsKeys | callTree.py:359 | a grown `traversed` keeps every key and its value |
| Expansion.ExpandSymbol | callTree.py:325-380 | findAllCaller only adds to `traversed`; it never drops or changes an entry |
| Expansion.ExpandCollected | callTree.py:359-380 | the same, once the callers are collected |
| Expansion.MarkShrinks | callTree.py:359 | `traversed[symbol] = ...` grows `traversed` and leaves fewer referenced symbols untraversed, so the recursion terminates |
| Expansion.ExpandStep | callTree.py:361-378 | one caller grows `traversed`, and adds the caller as a key unless it is already one |
| Expansion.ExpandCallers | callTree.py:361-380 | the second loop only grows `traversed` |
| Expansion.ExpandSymbolFails | callTree.py:339-357 | an error while collecting callers is findAllCaller's error |
| Expansion.ExpandSymbolUnfolds | callTree.py:339-359 | once collecting succeeds, the rest is the expansion of the collected callers |
| Expansion.ExpandCollectedUnfolds | callTree.py:359-361 | that expansion is the second loop from the state with the symbol marked |
| Expansion.ExpandCallersNext | callTree.py:361-378 | one caller: its error ends the loop; otherwise the loop goes on from its state, which has every earlier key |
| Expansion.ExpandRoots | callTree.py:388-389 | the driver loop only grows `traversed` |
| Expansion.ExpandRootsNext | callTree.py:388-389 | one root: its error ends the run; otherwise its tree is stored under it and the loop goes on |
| Expansion.EarlyExits | callTree.py:326-333 | a blacklisted symbol gives `@Blacklisted` (even if traversed), then a traversed one gives `@Traversed`, then an unreferenced one gives `{}`; in all three cases the state is unchanged |
| Expansion.ExpandCallersKeys | callTree.py:361-380 | the returned dictionary's keys are the callers in order of first occurrence |
| Expansion.ExpandedKeys | callTree.py:359-380 | an expanded symbol is recorded in `traversed`, and the returned dictionary's keys are distinct and are exactly the callers recorded for it |
| Expansion.ExpandedOnce | callTree.py:329-359 | after a symbol is expanded, any later state gives `@Traversed` for it, so each symbol is expanded at most once per run |
| Expansion.ExpandRootsKeys | callTree.py:388-389 | `trees` has the roots as keys, in order of first occurrence |
| Expansion.CollectLinesSound | callTree.py:350-357 | the lookups for one row's lines keep the macro cache sound |
| Expansion.CollectRefsSound | callTree.py:339-357 | the first loop of findAllCaller keeps the macro cache sound |
| Expansion.ExpandSymbolSound | callTree.py:325-380 | findAllCaller keeps the macro cache sound: every cached value is true exactly when the symbol has a define among its definitions |
| Expansion.ExpandCollectedSound | callTree.py:359-380 | expanding the collected callers keeps the macro cache sound |
| Expansion.ExpandStepSound | callTree.py:361-378 | one caller's expansion keeps the macro cache sound |
| Expansion.ExpandCallersSound | callTree.py:361-380 | the second loop keeps the macro cache sound |
| Expansion.ExpandRootsSound | callTree.py:382-389 | the driver loop keeps the macro cache sound; since the cache starts empty, every value the whole run caches is right |
| Engine.IndexByLine | callTree.py:125-169 | one loop of buildDefinitionMap computes `DefinitionIndex` of the key order and the dictionary |
| Engine.AddDefinitionAt | callTree.py:130-144 | one record of the inner loop is `AddDefinition` |
| Engine.RecordPositions | callTree.py:355-356 | the loop computes `MarkAll` |
| Engine.AppendRecord | callTree.py:69-72 | one row extends the grouping to that row |
| Engine.ScanContinuation | callTree.py:211-220 | the `while True` loop computes `ContinuesTo`, including the IndexError of an out-of-range or empty line |
| Engine.ScanDefinitions | callTree.py:239-243 | the inner loop of checkIsCallerMacro computes `ScanDefs` |
| Engine.CallTree.constructor | callTree.py:44-55 | the traversed map, the cache and the trees start empty, and the dictionaries are the groupings of the three tables |
| Engine.CallTree.Load | callTree.py:53-55 | the three loads set the grouped tables, the key orders and the GPATH table |
| Engine.CallTree.LoadRtags | callTree.py:64-74 | `references` is the grouping of the GRTAGS rows |
| Engine.CallTree.LoadGtags | callTree.py:76-102 | `definitions` and `functionDefinitions` are the groupings of all rows and of the function rows, with their key orders |
| Engine.CallTree.LoadPath | callTree.py:104-114 | `pathMap` is the GPATH table, the last row winning |
| Engine.CallTree.BuildDefinitionMap | callTree.py:116-169 | both definition maps are `DefinitionIndex` of their dictionaries, in key order, and are well shaped |
| Engine.CallTree.CheckIsCalleeInCallerMacro | callTree.py:201-220 | computes `CalleeInMacro`: false for line < 2, KeyError for an unknown file id, AssertionError for a missing file, else the continuation scan |
| Engine.CallTree.CheckIsCallerMacro | callTree.py:225-247 | computes `MacroCheck`: its answer and the cache it leaves; nothing else changes |
| Engine.CallTree.NearestDefinition | callTree.py:281-292 | the sorted search picks the nearest definition line |
| Engine.CallTree.FindCaller | callTree.py:249-320 | computes `ResolveCaller`: its answer or error and the cache it leaves; the tables do not change |
| Engine.CallTree.CallerAtLine | callTree.py:296-320 | computes `ResolveAtLine` from the candidates at the nearest line |
| Engine.CallTree.MacroCaller | callTree.py:296-297 | computes `ResolveMacro`: the macro test, then the body test only when it holds |
| Engine.CallTree.FunctionCaller | callTree.py:300-320 | computes `ResolveFallback` |
| Engine.CallTree.CollectAtLines | callTree.py:350-357 | the loop over one row's lines computes `CollectLines` |
| Engine.CallTree.CollectCallers | callTree.py:339-357 | the first loop of findAllCaller computes `CollectRefs`: callerList, refPosition and the cache |
| Engine.CallTree.CollectAtRow | callTree.py:340-357 | one reference row computes `CollectRow`: skipped with fewer than three fields, else decoded and looked up |
| Engine.CallTree.FindAllCaller | callTree.py:325-380 | computes `ExpandSymbol`: the tree, and the `traversed` map and cache afterwards |
| Engine.CallTree.ExpandCollectedCallers | callTree.py:359-380 | marks the symbol, then computes `ExpandCollected` |
| Engine.CallTree.ExpandCallerList | callTree.py:361-380 | the second loop computes `ExpandCallers` |
| Engine.CallTree.ExpandCaller | callTree.py:362-378 | one iteration computes `ExpandStep` |
| Engine.CallTree.BuildTree | callTree.py:382-389 | builds both maps, then computes `ExpandRoots` into `trees` |
| Engine.CallTree.ExpandRootList | callTree.py:388-389 | the driver loop computes `ExpandRoots` |
| Engine.CallTree.ExpandRoot | callTree.py:389 | one root's tree is stored under it with `Put` |

## Left out

- Argument parsing and the module globals (callTree.py:10-24) are not modelled. The blacklist, the show-position flag and the root symbols are constructor parameters. The verbose prints are dropped.
- The existence checks for the three tables with `sys.exit`, `os.chdir` and the JSON output (callTree.py:28-42, 391-393) are I/O and are left out.
- `loadDB` (callTree.py:58-62) is SQLite access. Its result is given to the constructor as a sequence of rows `(key, dat, extra)`.
- `checkIsCalleeInCallerMacro` opens and reads the source file (callTree.py:205-209). The files are a map from path to lines. `os.path.exists` becomes membership in that map, and its failure is the AssertionError.
- The regular expression engine (callTree.py:223) is replaced by a matcher written out for the one pattern `#\s*@d\s+@n`. Whitespace is the set of characters `str.isspace()` accepts.
- `isnumeric`, `int` and `str` accept only ASCII digits. Unicode numerals, which `isnumeric` also accepts, are not modelled.
- `toFileLine` (callTree.py:322-323), modelled by `Expansion.ToFileLine`, gives a `Position(path, line)` value instead of its text, with the KeyError of an unknown file id.
- `list(set(callerList))` (callTree.py:359) is modelled as a set, because its order depends on string hashing. The program only reads which keys `traversed` has.
- The order of the line keys inside `definitionMap[file]` is not modelled. The program only uses those keys after sorting them.
- The dead code after `searchEngine` is not modelled: the `middle == -1` tests (callTree.py:289-290, 313-314) and the repeated `callerLine = lineNumbers[middle]`. `Search.SearchEngine` proves the index is never -1.
- `__init__` calls `buildTree` itself (callTree.py:56). In the model the constructor loads the tables, and `BuildTree` is a separate method that returns the outcome, since a Dafny constructor cannot return the run's error.
- After an error the Python run ends. The methods do not specify the fields in that case, only the error they return.
- Python's recursion limit on deep caller chains is not modelled.
- Search.SortedLineNumbers: states that the list is sorted, has one number per key, and has the same set of values as the keys. It does not state the multiplicity of a value reached by two keys such as `01` and `1`. findCaller only uses the value found, and that value is determined by the set.
