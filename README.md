# big_brother: the decomposer and the structural checks, in Dafny

`big_brother` watches a Python code base for files that grow into
monoliths. It has two halves, and this project models both.

- **The checks.** Each one looks at one file and may report a violation:
  - the line-count law (`check_loc`);
  - the entry-router law for `main.py`, `__main__.py`, `setup.py` and the like (`check_entry_router`);
  - the one-public-function-per-file law (`check_multi_fn`);
  - the `__all__` law for modules that re-export (`check_missing_all`).
- **The decomposer `stub`.** It takes a module with several public functions and writes a package:
  - one file per public function;
  - `_helpers.py` for the private helpers that more than one of them needs;
  - `__init__.py`, which re-exports every public function and sets `__all__`;
  - `__main__.py` when one of the functions is `main`;
  - a report of the cross-imports, moved helpers, SCRIPT_DIR rewrites and subprocess self-references it found.

A module is given as a parsed value, not as text:

- its top-level statements (`PyAst.Stmt`: function, class, import, from-import, assignment, augmented assignment, other);
- its source lines;
- its docstring;
- its file name.

Inside a statement, expressions are reduced to what the analysis looks at: `Name`, `Attribute` chains, and any other node with its children.

The package that `stub` writes is a map from file name to content. The report is a class, `Stub.StubReport`, whose list fields the passes append to.

The model follows the source's own structure:

- The loops of `stub` are methods:
  - the two worklists (`Closure.TransitiveDeps`, `Closure.TransitiveConstants`);
  - pass 1 (`Dependencies.PassOne`) and pass 2 (`Stub.PassTwo`);
  - the blank-line collapse (`BlankRuns.CollapseBlankRuns`);
  - the `__init__.py` and subprocess loops.
- Each of these methods is proved against a function that specifies it.
- What `stub` promises is proved about those functions in `StubTheorems`.
- The four checks are pure functions of the file, each with lemmas characterising when it reports.

Modules, one per file:

| module | file | covers |
|---|---|---|
| `Wrappers` | wrappers.dfy | `Option` |
| `Text` | text.dfy | `join`, `in`, `replace` and `sorted` on strings |
| `PyAst` | python_ast.dfy | the statement model and `_find_*` / `_const_name` |
| `NameRefs` | name_refs.dfy | `_names_used` and the `name_refs` table |
| `ImportNames` | import_names.dfy | `_import_provided_names` and `_filter_imports` |
| `Closure` | closure.dfy | `_transitive_deps` and `_transitive_constants` |
| `ScriptDir` | script_dir.dfy | `_fix_script_dir_depth` |
| `BlankRuns` | blank_runs.dfy | the `'\n\n\n\n'` collapse |
| `Emit` | emit.dfy | `_node_source` and the lines written to each file |
| `Dependencies` | dependencies.dfy | pass 1 and `helper_usage` |
| `Stub` | stub.dfy | pass 2, `_write_helpers_file`, `__init__.py`, `__main__.py`, the subprocess scan and `stub` itself |
| `StubTheorems` | stub_theorems.dfy | what the written package contains |
| `Messages` | messages.dfy | the findings and how numbers are printed in them |
| `CheckLoc` | check_loc.dfy | `check_loc` |
| `CheckEntryRouter` | check_entry_router.dfy | `check_entry_router` |
| `CheckMultiFn` | check_multi_fn.dfy | `check_multi_fn` |
| `CheckMissingAll` | check_missing_all.dfy | `check_missing_all` |

## Model

| member | source | states |
|---|---|---|
| `PyAst.PublicFunctions` | src/big_brother/_stub.py:229-234 | A node is kept exactly when it is a top-level (async) function whose name does not start with `_`; the result is in source order. |
| `PyAst.PrivateFunctions` | src/big_brother/_stub.py:237-242 | A node is kept exactly when it is a top-level (async) function whose name starts with `_`; the result is in source order. |
| `PyAst.Imports` | src/big_brother/_stub.py:245-249 | A node is kept exactly when it is an `import` or a `from ... import`; the result is in source order. |
| `PyAst.Constants` | src/big_brother/_stub.py:252-264 | A top-level statement is kept exactly when it is an augmented assignment, or an assignment none of whose plain-name targets is a dunder name. The result is in source order. |
| `PyAst.ClassesInNoBucket` | src/big_brother/_stub.py:229-264 | A class is neither a public function, a private function, an import nor a constant. |
| `PyAst.ConstName` | src/big_brother/_stub.py:267-273 | An assignment whose first target is `Name(x)` has the name `x`; every other statement (an augmented assignment, an assignment with no targets or a first target that is not a plain name) has the name `""`. |
| `PyAst.AugAssignNeverSelected` | src/big_brother/_stub.py:267-273 | An augmented assignment is never selected by a set of real (non-empty) names. |
| `PyAst.WithKeyIn` | src/big_brother/_stub.py:94 | Selection by name keeps exactly the nodes whose key is in the set, in order. |
| `PyAst.KeyPartition` | src/big_brother/_stub.py:116-117 | Selecting by a name set and by its complement split the nodes: disjoint, and together every node as often as it occurs. |
| `PyAst.FilterKeepsKeysDistinct` | src/big_brother/_stub.py:94 | Selecting from nodes with distinct names keeps the names distinct. |
| `NameRefs.NamesUsed` | src/big_brother/_stub.py:276-289 | The walk collects exactly the identifiers of the `Name` nodes below the statement (an attribute chain's root is such a node). |
| `NameRefs.NameRefsOf` | src/big_brother/_stub.py:52-55 | The `name_refs` dict after assigning each node's names under its key in order; `NameRefs.NameRefsKeys` and `NameRefs.NameRefsLastWins` state its keys and values. |
| `NameRefs.NameRefsLastWins` | src/big_brother/_stub.py:52-55 | A node that no later node shares a key with has its own names in `name_refs`. |
| `NameRefs.NameRefsKeys` | src/big_brother/_stub.py:52-55 | The keys of `name_refs` are exactly the keys of the nodes. |
| `NameRefs.BuildNameRefs` | src/big_brother/_stub.py:52-55 | The loop builds the table of `NameRefsOf` over the nodes, and its keys are the nodes' keys. |
| `ImportNames.RootModule` | src/big_brother/_stub.py:299 | `name.split('.')[0]` is a prefix of the name with no dot, followed in the name by a dot or by nothing. |
| `ImportNames.Binding` | src/big_brother/_stub.py:298-302 | `alias.asname or alias.name.split('.')[0]` for `import`, `alias.asname or alias.name` for `from ... import`; characterised by the three `ImportNames.*Binds*` lemmas. |
| `ImportNames.ProvidedNames` | src/big_brother/_stub.py:292-305 | The names one import makes available: the bindings of its aliases, none for any other statement; `ImportNames.SingleAliasProvides` states the one-alias case. |
| `ImportNames.SingleAliasProvides` | src/big_brother/_stub.py:296-302 | An import with one alias provides exactly that alias's binding. |
| `ImportNames.ImportBindsRootPackage` | src/big_brother/_stub.py:297-299 | `import a.b.c` provides only the top-level package `a`. |
| `ImportNames.ImportAsBindsAliasOnly` | src/big_brother/_stub.py:299 | `import x as y` provides `y` and not `x`. |
| `ImportNames.FromImportBindsAliasOrName` | src/big_brother/_stub.py:300-302 | `from m import n as k` provides `k`; without an alias it provides the full name `n`. |
| `ImportNames.ImportProvidedNames` | src/big_brother/_stub.py:292-305 | The table has one entry per import, holding the names that import provides. |
| `ImportNames.ProvidedTable` | src/big_brother/_stub.py:292-305 | There is exactly one table that fits the imports. |
| `ImportNames.FilterImports` | src/big_brother/_stub.py:308-315 | The kept imports are exactly those that provide a needed name, in their original order. |
| `ImportNames.FilterImportsComplete` | src/big_brother/_stub.py:308-315 | If some import provides a needed name, some kept import provides it. |
| `ImportNames.StarImportDropped` | src/big_brother/_stub.py:300-302 | `from m import *` is never kept for real names. |
| `Closure.ReachesStep` | src/big_brother/_stub.py:342-348 | Reachability extends by one reference edge. |
| `Closure.ClosedHoldsReachable` | src/big_brother/_stub.py:342-348 | A set closed under references from `x` holds everything `x` reaches. |
| `Closure.QueueFunctionRefs` | src/big_brother/_stub.py:345-348 | The inner loop adds the private names `current` references to `needed` and queues each newly added one. Everything in `needed` stays reachable from the function. |
| `Closure.TransitiveDeps` | src/big_brother/_stub.py:337-350 | The result is exactly the private functions reachable from the function through references, in source order. |
| `Closure.TransitiveConstants` | src/big_brother/_stub.py:318-334 | The result is exactly the constants named by the needed names or reachable from them, in source order. Every needed constant is in it. Each name is expanded once. |
| `Closure.ExpandNextConstant` | src/big_brother/_stub.py:323-332 | One worklist round keeps the invariant. It either grows `found` or shortens the queue, so the loop ends. |
| `Closure.QueueConstantRefs` | src/big_brother/_stub.py:329-332 | Every constant `current` references ends up found or queued, and everything queued lies in the closure. |
| `Closure.SeededClosureStep` | src/big_brother/_stub.py:329-332 | The closure of the seeds is closed under references. |
| `Closure.SeededClosureComplete` | src/big_brother/_stub.py:323-334 | A found set that holds the seeds, is closed under references and stays inside the closure is the closure. |
| `ScriptDir.FixScriptDirDepth` | src/big_brother/_stub.py:366-371 | `_SCRIPT_DIR_RE.sub(...)` as a left-to-right scan that rewrites each `=\s*os.path.dirname(os.path.abspath(__file__))`; what it guarantees is stated by `ScriptDir.FixLeavesNoIdiom`, `ScriptDir.FixIdempotent`, `ScriptDir.FixLength` and `ScriptDir.FixChangesIffIdiom`. |
| `ScriptDir.SpaceRun` | src/big_brother/_stub.py:362 | Greedy `\s*` takes the longest run of whitespace. |
| `ScriptDir.NoIdiomUnchanged` | src/big_brother/_stub.py:366-371 | Text in which the pattern does not occur is returned unchanged. |
| `ScriptDir.RewrittenIsNoMatch` | src/big_brother/_stub.py:368-370 | The replacement text never starts a new match. |
| `ScriptDir.FixLeavesNoIdiom` | src/big_brother/_stub.py:361-371 | The rewritten text contains no match of the pattern. |
| `ScriptDir.FixIdempotent` | src/big_brother/_stub.py:361-371 | Rewriting twice is rewriting once. |
| `ScriptDir.FixLength` | src/big_brother/_stub.py:366-371 | The rewrite never shortens the text, and lengthens it when the pattern occurs. |
| `ScriptDir.FixChangesIffIdiom` | src/big_brother/_stub.py:156-161 | The rewrite changes the text exactly when the pattern occurs, which is the test `stub` uses to report a fix. |
| `ScriptDir.AfterEqKept` | src/big_brother/_stub.py:361-371 | After an `=` and whitespace, the rewritten text shows the idiom only where the input did. |
| `ScriptDir.EqFreePrefixKept` | src/big_brother/_stub.py:361-371 | An `=`-free prefix of the rewritten text was a prefix of the input. |
| `BlankRuns.StripNewlines` | src/big_brother/_stub.py:183-185 | Removing the newlines leaves no newline and never lengthens the text. |
| `Text.ReplaceAll` | src/big_brother/_stub.py:184 | `str.replace(pat, rep)`: left to right, non-overlapping; `BlankRuns.ReplaceShortens`, `BlankRuns.ReplaceKeepsText` and `BlankRuns.ReplaceCapped` state what one pass does. |
| `BlankRuns.ReplaceShortens` | src/big_brother/_stub.py:414-415 | Replacing four newlines by three shrinks text that contains four newlines, which is why the loop ends. |
| `BlankRuns.ReplaceKeepsText` | src/big_brother/_stub.py:183-185 | One replacement pass keeps every character other than a newline, in order. |
| `BlankRuns.Collapse` | src/big_brother/_stub.py:183-185 | The repeated replacement equals the one-pass reading `CapRuns`: every run of three or more blank lines becomes exactly two. The result has no run of four newlines and is no longer than the input. |
| `BlankRuns.CapRunsOfRun` | src/big_brother/_stub.py:183-185 | In the one-pass reading, a maximal run of `k` newlines becomes `min(k, 3)` newlines, and the text after it is read on its own. |
| `BlankRuns.ReplaceCapped` | src/big_brother/_stub.py:184 | One `content.replace('\n\n\n\n', '\n\n\n')` pass leaves the one-pass reading unchanged. |
| `BlankRuns.NoRunCapped` | src/big_brother/_stub.py:183 | Text the loop test finds no four newlines in is its own one-pass reading. |
| `BlankRuns.CollapseKeepsText` | src/big_brother/_stub.py:183-185 | The collapse changes only newlines. |
| `BlankRuns.CollapseIdempotent` | src/big_brother/_stub.py:183-185 | Text without four newlines is kept as it is, so collapsing twice is collapsing once. |
| `BlankRuns.CollapseBlankRuns` | src/big_brother/_stub.py:182-186 | The loop returns the collapse: no four newlines, and every other character kept. |
| `Emit.NodeSource` | src/big_brother/_stub.py:353-357 | `''.join(lines[lineno - 1:end_lineno])`; `Emit.NodeSourceVerbatim` proves it is the node's text cut verbatim out of the file. |
| `Emit.Slice` | src/big_brother/_stub.py:355-357 | `lines[start:end]` is the slice when the bounds are in range, and empty when they cross or start past the end. |
| `Emit.NodeSourceVerbatim` | src/big_brother/_stub.py:353-357 | A node's source is cut out of the file verbatim: the text before it, its source and the text after it make up the file. |
| `Emit.ConcatSplit` | src/big_brother/_stub.py:357 | Joining the lines is joining three consecutive slices of them. |
| `Emit.Sources` | src/big_brother/_stub.py:136-137 | One source per node, in order. |
| `Emit.FixedSources` | src/big_brother/_stub.py:157-163 | One rewritten source per constant, in order. |
| `Emit.FirstLine` | src/big_brother/_stub.py:131 | `module_doc.split('\n')[0]` is the prefix of the docstring up to its first newline, or the whole docstring when it has none. |
| `Emit.Header` | src/big_brother/_stub.py:130-133 | The header ends in a blank line and has a comment line exactly when there is a docstring. |
| `Emit.Block` | src/big_brother/_stub.py:139-140 | A group of lines is followed by one blank line, and an empty group writes nothing. |
| `Emit.Spaced` | src/big_brother/_stub.py:169-171 | Each helper's source is preceded by a blank line. |
| `Emit.ReexportLineInjective` | src/big_brother/_stub.py:146 | Different names give different `from .x import x` lines. |
| `Emit.FunctionFileLines` | src/big_brother/_stub.py:128-178 | The `out_lines` of a function file in section order: header, imports, sibling imports, `_helpers` import, constants, colocated helpers, the function; `Emit.FunctionFileContents` states what they hold. |
| `Emit.FunctionFileContents` | src/big_brother/_stub.py:128-178 | A function file's lines hold each kept import verbatim, an import line per sibling, and the `_helpers` import naming every imported helper. They hold each constant rewritten, each colocated helper verbatim, and the function's own source last. |
| `Emit.HelpersFileLines` | src/big_brother/_stub.py:389-409 | The `out_lines` of `_helpers.py`: header, imports, rewritten constants, then each shared helper after a blank line; `Emit.HelpersFileContents` states what they hold. |
| `Emit.HelpersFileContents` | src/big_brother/_stub.py:389-409 | `_helpers.py` holds every shared helper verbatim, with the imports and rewritten constants it needs. |
| `Emit.InitFileLines` | src/big_brother/_stub.py:189-195 | `__init__.py` has the docstring when there is one, then one re-export per public function in order, then `__all__` listing them. |
| `Emit.MainFile` | src/big_brother/_stub.py:201-210 | `__main__.py` imports `main` from the package and ends by calling it. |
| `Emit.LastDot` | src/big_brother/_stub.py:203 | The last dot of the name, or -1 when there is none. |
| `Emit.Stem` | src/big_brother/_stub.py:203 | `os.path.splitext(basename)[0]` is a prefix of the name. It is the whole name exactly when no dot follows a non-dot character. Otherwise it ends just before the last dot and holds a non-dot character. |
| `Emit.StemOfFileName` | src/big_brother/_stub.py:203 | Cutting the extension off `stem.ext` gives back `stem`. |
| `Dependencies.RefsOfAll` | src/big_brother/_stub.py:380-382 | A name is collected exactly when one of the keys references it. |
| `Dependencies.CollectRefs` | src/big_brother/_stub.py:67-74 | The `|=` loops add to the start set exactly the names the keys reference. |
| `Dependencies.DepsFor` | src/big_brother/_stub.py:65-87 | The `fn_deps` entry of one public function: its reachable private helpers, the constants of the seeded closure, and the public names it references other than itself; `StubTheorems.AnalysisDeps` and `Dependencies.NeedsHelperListed` state what it holds. |
| `Dependencies.FunctionDeps` | src/big_brother/_stub.py:65-87 | One iteration of pass 1 computes the `fn_deps` entry of its specification. |
| `Dependencies.RecordUsers` | src/big_brother/_stub.py:89-90 | `setdefault(...).append` records the function as a user of each of its helpers. |
| `Dependencies.PassOneStep` | src/big_brother/_stub.py:65-90 | One round of pass 1 records its function's entry and usage, and keeps the loop invariant. |
| `Dependencies.PassOne` | src/big_brother/_stub.py:61-90 | `fn_deps` has exactly the public function names as keys, each bound to its specified entry, and `helper_usage` is as specified. |
| `Dependencies.MatchingMembers` | src/big_brother/_stub.py:216-222 | A name is listed exactly when some node with that name satisfies the test. |
| `Dependencies.MatchingCount` | src/big_brother/_stub.py:93 | Some key is listed exactly when some node matches, and two are listed exactly when two nodes match. |
| `Dependencies.AddUserEffect` | src/big_brother/_stub.py:89-90 | Recording a user appends it to the list of each of its helpers and to no other list. |
| `Dependencies.NeedsHelperListed` | src/big_brother/_stub.py:66 | A helper is in a function's helper list exactly when the function reaches it. |
| `Dependencies.HelperUsageLists` | src/big_brother/_stub.py:89-90 | `helper_usage[h]` lists, in order and once each, exactly the public functions that need `h`. |
| `Dependencies.SharedIffTwoUsers` | src/big_brother/_stub.py:92-93 | A helper is shared exactly when two different public functions need it. |
| `Stub.StubReport.constructor` | src/big_brother/_stub.py:420-427 | A new report has four empty lists. |
| `Stub.ColocatedImportedPartition` | src/big_brother/_stub.py:115-117 | Colocated and imported helpers split a function's helpers: each helper is in exactly one of the two. |
| `Stub.FixEntriesNonEmpty` | src/big_brother/_stub.py:157-161 | A file's constants produce a SCRIPT_DIR report entry exactly when one of them holds the idiom. |
| `Stub.AppendSources` | src/big_brother/_stub.py:135-140 | The import loop appends each kept import's source, then a blank line when there was one. |
| `Text.SortStrings` | src/big_brother/_stub.py:143 | `sorted(...)` of strings: the result is sorted by code point and is a permutation of the input. |
| `Stub.AppendSiblingImports` | src/big_brother/_stub.py:142-148 | The sibling loop appends one import line per sibling in sorted order and records each `(fname, sib)` in the report. |
| `Stub.AppendConstants` | src/big_brother/_stub.py:156-166 | The constants loop appends each rewritten constant and reports the function once per constant the rewrite changed. |
| `Stub.AppendSpaced` | src/big_brother/_stub.py:168-174 | The helper loop appends a blank line and then the source of each colocated helper. |
| `Stub.FileRefs` | src/big_brother/_stub.py:118-126 | `all_ref_names`: the names the function, its colocated helpers and its constants reference, from which the file's imports are filtered. |
| `Stub.FunctionFileBody` | src/big_brother/_stub.py:128-178 | `out_lines` of a function file are the pieces the function file specification lists, in order. |
| `Stub.EmitFunctionFile` | src/big_brother/_stub.py:111-187 | The content is the collapsed function file. The report gains the file's cross-import pairs and its SCRIPT_DIR entries, and nothing else. |
| `Stub.AppendFixed` | src/big_brother/_stub.py:400-405 | The `_helpers.py` constants loop appends each rewritten constant and reports nothing. |
| `Stub.HelpersFileBody` | src/big_brother/_stub.py:389-409 | `out_lines` of `_helpers.py` are the pieces its specification lists, in order. |
| `Stub.EmitHelpersFile` | src/big_brother/_stub.py:374-416 | The content is the collapsed helpers file, built from the shared helpers and the constants and imports they need. |
| `Stub.PassTwoStep` | src/big_brother/_stub.py:111-187 | One iteration writes `<fname>.py` over the files so far and appends that function's report entries. |
| `Stub.PassTwo` | src/big_brother/_stub.py:108-187 | Pass 2 writes every function file in order, records exactly the cross-imports and SCRIPT_DIR entries of all functions, and leaves the other report lists alone. |
| `Stub.InitFile` | src/big_brother/_stub.py:189-195 | The `__init__.py` loop produces the specified init lines, joined. |
| `Stub.FindSubprocessRefs` | src/big_brother/_stub.py:215-222 | The report gains, in order, exactly the public functions whose source runs the original script. |
| `Stub.TableOfAgrees` | src/big_brother/_stub.py:79 | A map with the given keys and values is the table of those values. |
| `Stub.WriteInitAndMain` | src/big_brother/_stub.py:189-213 | `__init__.py` is added over the files, and `__main__.py` exactly when a public function is `main`. |
| `Stub.AnalysisOf` | src/big_brother/_stub.py:41-94 | The analysis of any module is consistent: its import table fits and every public function has an entry. |
| `Stub.PassOneTable` | src/big_brother/_stub.py:61-90 | A table that binds each public function name to its specified entry is `fn_deps` of the module. |
| `Stub.WriteHelpers` | src/big_brother/_stub.py:101-106 | `_helpers.py` is written exactly when some helper is shared. |
| `Stub.WritePackage` | src/big_brother/_stub.py:108-213 | After `_helpers.py` come the function files, `__init__.py` and `__main__.py`, and the report gets the pass-2 entries. |
| `Stub.StubValues` | src/big_brother/_stub.py:46-94 | The values computed by the loops (name references, import table, `fn_deps`, shared set) are those the module specifies. |
| `Stub.Analyse` | src/big_brother/_stub.py:41-94 | Everything computed before writing is the analysis of the module. |
| `Stub.WriteFiles` | src/big_brother/_stub.py:96-213 | The files written are the module's package, and the report holds its cross-imports, SCRIPT_DIR entries and shared helper names. |
| `Stub.WriteAnalysed` | src/big_brother/_stub.py:101-213 | Writing from any consistent analysis gives the package of that analysis and the matching report. |
| `Stub.Stub` | src/big_brother/_stub.py:19-226 | A module with at most one public function is left alone, with its count. Otherwise the outcome is the module's package, and the new report holds its cross-imports, SCRIPT_DIR entries, shared helpers and subprocess references. |
| `StubTheorems.CrossImportsMembers` | src/big_brother/_stub.py:143-148 | `(c, s)` is reported as a cross-import exactly when `c` is a public function and `s` is one of its sibling references. |
| `StubTheorems.CrossPairsMembers` | src/big_brother/_stub.py:145-147 | A function's cross-import pairs are exactly itself paired with each sibling. |
| `StubTheorems.ScriptDirFixesMembers` | src/big_brother/_stub.py:156-161 | A function is named in the SCRIPT_DIR report exactly when one of its constants holds the idiom. |
| `StubTheorems.SubprocessMembers` | src/big_brother/_stub.py:215-222 | A name is reported as a subprocess reference exactly when a public function of that name runs the original script. |
| `StubTheorems.SuffixInjective` | src/big_brother/_stub.py:180 | Two names get the same `.py` file name exactly when they are equal. |
| `StubTheorems.FunctionFilesWritten` | src/big_brother/_stub.py:111-187 | Pass 2 writes each function's text to `<fname>.py` in order, a later write replacing an earlier one. |
| `StubTheorems.FileTextsAt` | src/big_brother/_stub.py:111-187 | The i-th text pass 2 writes is the file generated for the i-th public function from its own entry. |
| `StubTheorems.FileTextsCollapsed` | src/big_brother/_stub.py:182-185 | No text pass 2 writes has a run of four newlines. |
| `StubTheorems.WrittenKeys` | src/big_brother/_stub.py:180-187 | After the writes, the files are those already there plus those written. |
| `StubTheorems.WrittenLastWins` | src/big_brother/_stub.py:180-187 | A file gets the text of the last write to its name. |
| `StubTheorems.WrittenKeep` | src/big_brother/_stub.py:180-187 | A file never written to keeps its text. |
| `StubTheorems.WrittenValues` | src/big_brother/_stub.py:180-187 | Every file holds its earlier text or one of the texts written. |
| `StubTheorems.PackageShape` | src/big_brother/_stub.py:101-213 | The package is `_helpers.py`, then the function files in order, then `__init__.py` and `__main__.py`. |
| `StubTheorems.HelpersDirKeys` | src/big_brother/_stub.py:101-106 | Before pass 2 the only file is `_helpers.py`. It is there exactly when some helper is shared, and it is the collapsed helpers file. |
| `StubTheorems.InitAndMainNames` | src/big_brother/_stub.py:189-213 | `__init__.py` is added, and `__main__.py` exactly when `main` is public. No other file is added. |
| `StubTheorems.InitAndMainValues` | src/big_brother/_stub.py:189-213 | `__init__.py` holds the init lines and `__main__.py` runs the package. Every other file is unchanged. |
| `StubTheorems.LaterNamesDiffer` | src/big_brother/_stub.py:180 | Distinct function names give distinct file names. |
| `StubTheorems.PublicFileName` | src/big_brother/_stub.py:180 | A public function's file is never `__init__.py`, `__main__.py` or `_helpers.py`. |
| `StubTheorems.PublicFileNames` | src/big_brother/_stub.py:180 | A file name is written by pass 2 exactly when it is `<name>.py` of a public function, and it is never a fixed file name. |
| `StubTheorems.PackageFileNames` | src/big_brother/_stub.py:101-213 | The package's files are `__init__.py`, `__main__.py` exactly when a function is `main`, `_helpers.py` exactly when a helper is shared, and `<name>.py` for each public function. Nothing else. |
| `StubTheorems.PackageInitAndMain` | src/big_brother/_stub.py:189-213 | `__init__.py` re-exports every public function, and `__main__.py`, when present, runs `main`. |
| `StubTheorems.PackageFunctionFile` | src/big_brother/_stub.py:111-187 | A public function's file is the one generated from its own dependencies, unless a later function has the same name. |
| `StubTheorems.PackageHelpersFile` | src/big_brother/_stub.py:101-106 | `_helpers.py` is in the package exactly when some helper is shared, and then it is the collapsed helpers file. |
| `StubTheorems.PackageNoBlankRuns` | src/big_brother/_stub.py:183-185 | Every file except `__init__.py` and `__main__.py` is free of four-newline runs. |
| `StubTheorems.FunctionFileHolds` | src/big_brother/_stub.py:115-178 | The function file's pieces, before the collapse, end with the function's source. Each non-shared helper is defined in it. Each shared helper is named in the `_helpers` import. Each constant is included rewritten, and each sibling has its import line. |
| `StubTheorems.HelperResolved` | src/big_brother/_stub.py:101-178 | Every helper a public function needs is either defined in its file, or imported from `_helpers.py`, which then exists and defines it. |
| `StubTheorems.AnalysisDeps` | src/big_brother/_stub.py:61-94 | A function's helpers are exactly the private functions it reaches. Its siblings are exactly the other public functions it names directly. The shared nodes are the shared helpers in order. |
| `Messages.NatToString` | src/big_brother/_check_loc.py:9 | `str(n)` is a non-empty string of digits without a leading zero (except for `0`). |
| `Messages.NatToStringRoundTrip` | src/big_brother/_check_loc.py:9 | Reading the printed digits back gives the number. |
| `Messages.IntToStringInjective` | src/big_brother/_check_loc.py:9 | Two integers print alike exactly when they are equal, so the printed limit and overage identify the numbers. |
| `Messages.IntToStringSign` | src/big_brother/_check_loc.py:9 | A printed integer starts with `-` exactly when it is negative. |
| `Messages.Take` | src/big_brother/_check_multi_fn.py:24 | `xs[:k]` has `min(k, len(xs))` items, the first ones of `xs`. |
| `CheckLoc.Lower` | src/big_brother/_check_loc.py:5 | `rel.lower()` has the same length, with each ASCII capital lowered and every other character kept. |
| `CheckLoc.LowerIdempotent` | src/big_brother/_check_loc.py:5 | Lowering twice is lowering once. |
| `CheckLoc.IsTestPathCaseBlind` | src/big_brother/_check_loc.py:5 | Whether a path is a test path does not depend on case. |
| `CheckLoc.CheckLoc` | src/big_brother/_check_loc.py:4-10 | `check_loc` with its message text; `CheckLoc.CheckLocReport` states when it reports and what the report says. |
| `CheckLoc.CheckLocReport` | src/big_brother/_check_loc.py:4-10 | The result is `None` exactly when `loc` is at most the applicable limit. That limit is the test limit exactly when "test" occurs in the lowered path. A report has rule `"loc"`, kind `"test"` exactly for the test limit, and a positive overage printed without sign. |
| `CheckLoc.CheckLocThreshold` | src/big_brother/_check_loc.py:7 | A file of exactly the limit passes; one line more is reported. |
| `CheckLoc.CheckLocMonotone` | src/big_brother/_check_loc.py:7 | A longer file is reported whenever a shorter one is. |
| `CheckLoc.CheckLocIgnoresOtherLimit` | src/big_brother/_check_loc.py:6 | Only the applicable limit matters; changing the other one changes nothing. |
| `CheckEntryRouter.GlobMatch` | src/big_brother/_check_entry_router.py:11 | `fnmatch.fnmatch(name, pat)` for a `<prefix>*` pattern and a pattern without wildcards; `CheckEntryRouter.StemGlob` and `CheckEntryRouter.ExactGlobs` state the two cases. |
| `CheckEntryRouter.AnyGlobMatchExists` | src/big_brother/_check_entry_router.py:11 | The `any(...)` scan is true exactly when some pattern matches. |
| `CheckEntryRouter.StemGlob` | src/big_brother/_laws.py:6-10 | `<stem>.*` matches exactly the names that begin with the stem and a dot. |
| `CheckEntryRouter.ExactGlobs` | src/big_brother/_laws.py:9 | A pattern without `*` matches only itself. |
| `CheckEntryRouter.StemPatterns` | src/big_brother/_laws.py:7-8 | One `<stem>.*` pattern per stem, in order. |
| `CheckEntryRouter.EntryPatternsSplit` | src/big_brother/_laws.py:6-10 | `ENTRY_PATTERNS` is the eight `<stem>.*` patterns followed by `__main__.py` and `setup.py`. |
| `CheckEntryRouter.StemPatternsMatch` | src/big_brother/_laws.py:7-8 | Some `<stem>.*` pattern matches exactly when the name begins with one of the stems and a dot. |
| `CheckEntryRouter.AnyGlobMatchNames` | src/big_brother/_check_entry_router.py:11 | Matching stem patterns followed by exact names is a stem-and-dot prefix or one of the exact names. |
| `CheckEntryRouter.IsEntryNames` | src/big_brother/_check_entry_router.py:11 | A file is an entry file exactly when its name is `main.`, `index.`, `app.`, `server.`, `run.`, `start.`, `entry.` or `bootstrap.` followed by anything, or `__main__.py`, or `setup.py`. |
| `CheckEntryRouter.NonMainDefs` | src/big_brother/_check_entry_router.py:14-18 | A node is counted exactly when it is a top-level function or class not named `main`; the nodes are in source order. `type` alias statements are not counted (see "## Left out"). |
| `CheckEntryRouter.EntryVerdict` | src/big_brother/_check_entry_router.py:19-22 | The verdict on an entry file's non-main defs; `CheckEntryRouter.CheckEntryRouterReport` states when it reports and what the message holds. |
| `CheckEntryRouter.CheckEntryRouter` | src/big_brother/_check_entry_router.py:11-13 | A file whose name matches no entry pattern is never reported, whatever its contents. |
| `CheckEntryRouter.CheckEntryRouterReport` | src/big_brother/_check_entry_router.py:10-22 | A report is made exactly when the file is an entry file with more than three named non-`main` definitions. Its rule is `"entry"`. The message gives the full count and the names of the first `min(5, count)` definitions, in order. |
| `CheckEntryRouter.MainNotCounted` | src/big_brother/_check_entry_router.py:18 | Adding a definition named `main` never changes the result. |
| `CheckEntryRouter.UnnamedNotCounted` | src/big_brother/_check_entry_router.py:14-17 | Adding a statement without a name never changes the result. |
| `CheckEntryRouter.DefCounted` | src/big_brother/_check_entry_router.py:18-19 | Each further non-`main` definition adds one to the count, so a reported file stays reported. |
| `CheckMultiFn.SpansOf` | src/big_brother/_check_multi_fn.py:26-29 | One `(name, lineno, end_lineno)` per function, in order. |
| `CheckMultiFn.CheckMultiFn` | src/big_brother/_check_multi_fn.py:9-31 | A `SyntaxError` or `OSError` while reading or parsing gives `(None, None)`. Otherwise the parsed tree is returned whether or not there is a violation. |
| `CheckMultiFn.SomeKept` | src/big_brother/_check_multi_fn.py:16-20 | The filtered list is non-empty exactly when some element passes the test. |
| `CheckMultiFn.TwoKeptCounted` | src/big_brother/_check_multi_fn.py:16-22 | Two elements at different positions that pass the test make the list longer than one. |
| `CheckMultiFn.TwoKeptFound` | src/big_brother/_check_multi_fn.py:16-22 | A filtered list longer than one comes from two elements at different positions. |
| `CheckMultiFn.TwoPublicFunctions` | src/big_brother/_check_multi_fn.py:16-22 | There is more than one public function exactly when two top-level statements are public functions. |
| `CheckMultiFn.CheckMultiFnReport` | src/big_brother/_check_multi_fn.py:16-30 | A parsed module is reported exactly when two of its top-level statements are public functions, with rule `"multi-fn"`. There is one span per public function, in order. The message gives the full count, the line count and the first `min(5, count)` names in order. |
| `CheckMultiFn.PublicFunctionsSnoc` | src/big_brother/_check_multi_fn.py:16-20 | Adding a statement adds it to the public functions exactly when it is one. |
| `CheckMultiFn.OnlyPublicFunctionsCounted` | src/big_brother/_check_multi_fn.py:16-20 | Adding a class, a private function or any other statement that is not a public function never changes the violation. |
| `CheckMultiFn.SinglePublicFunctionAccepted` | src/big_brother/_check_multi_fn.py:22 | A module with exactly one public function is never reported, whatever else it holds. |
| `CheckMissingAll.CheckMissingAll` | src/big_brother/_check_missing_all.py:7-25 | A `SyntaxError` or `OSError` while reading or parsing gives `None`, and every report has rule `"structure"`. |
| `CheckMissingAll.AnyStarExists` | src/big_brother/_check_missing_all.py:13 | The star scan is true exactly when some alias is `*`. |
| `CheckMissingAll.AnyAllTargetExists` | src/big_brother/_check_missing_all.py:18 | The target scan is true exactly when the plain name `__all__` is among the targets. |
| `CheckMissingAll.HasReexports` | src/big_brother/_check_missing_all.py:12-15 | The left-to-right `any(...)` of `has_reexports`; `CheckMissingAll.HasReexportsExists` states it as an existential. |
| `CheckMissingAll.HasAll` | src/big_brother/_check_missing_all.py:16-20 | The left-to-right `any(...)` of `has_all`; `CheckMissingAll.HasAllExists` states it as an existential. |
| `CheckMissingAll.HasReexportsExists` | src/big_brother/_check_missing_all.py:12-15 | `has_reexports` holds exactly when some top-level statement is a re-export. |
| `CheckMissingAll.HasAllExists` | src/big_brother/_check_missing_all.py:16-20 | `has_all` holds exactly when some top-level assignment targets `__all__`. |
| `CheckMissingAll.CheckMissingAllReport` | src/big_brother/_check_missing_all.py:12-22 | A parsed module is reported exactly when two things hold. Some top-level `from` import has names and none of them is `*`. No top-level assignment has `__all__` among its targets. The report is `("structure", "<rel>: re-exports without __all__")`. |
| `CheckMissingAll.StarImportsNotReported` | src/big_brother/_check_missing_all.py:13 | A module whose `from` imports all contain a star import is never reported. |
| `CheckMissingAll.AllAssignSuppresses` | src/big_brother/_check_missing_all.py:16-19 | One assignment to `__all__` anywhere at top level prevents the report. |

## Left out

- Reading and writing files, `os.makedirs`, `os.path` handling of the output directory, `print`, `sys.exit` and the error exits of `stub` are not modelled. The input is the parsed module; the output is a map from file name to content.
- Python's parser is not modelled: `ast.parse`, `ast.walk` (walked in pre-order here; the result is a set, so the order does not matter) and `ast.get_docstring`. A `SyntaxError` or `OSError` that the checks catch is the `None` input.
- The regular expression engine is not modelled. `_fix_script_dir_depth` is modelled as a left-to-right scan for the one fixed pattern; `\s` is the set of whitespace characters listed in `ScriptDir.IsSpace`.
- `_StubReport.print_report`, `src/big_brother/_report.py` (console output), `src/big_brother/__init__.py` (the command line) and `src/big_brother/_scanner.py` (walking the tree, counting lines, ignore patterns) are not part of this model.
- Pass 1's `needed_imports` and its `all_ref_names` extension by constants are computed but never read. They are not modelled; pass 2 recomputes the imports, and that is what is modelled.
- Iteration over a Python set (the shared-helper set, `needed`, `found`) has no fixed order. It is modelled as an arbitrary order, and every contract is stated so that it holds for any order.
- `_import_provided_names` keys its result by node identity. The model keeps a table in the same order as the imports, so two equal import statements are still two entries.
- Statements the model does not distinguish are `OtherStmt`. These include annotated assignments, so `__all__: list = [...]` is not an assignment to `__all__`: as in the source, such a module is reported by the `__all__` check.
- `CheckEntryRouter.NonMainDefs`: a Python 3.12 `type X = ...` statement (`ast.TypeAlias`) also has a `name` attribute, an `ast.Name` node. The source counts it among the defs, and when it is among the first five reported names `', '.join` raises `TypeError`. The model has no such statement (it is an `OtherStmt`), so it neither counts it nor models the exception.
- A `UnicodeDecodeError` from `f.read()` in `check_multi_fn` and `check_missing_all` is neither a `SyntaxError` nor an `OSError`: it escapes both `except` clauses and aborts the scan. Exceptions are not modelled; the `None` input stands only for the caught errors.
- `lines` is given as a value. The source computes it with `source.splitlines(keepends=True)`, which also splits at `\f`, `\v`, `\x1c`-`\x1e`, `\x85`, `\u2028` and `\u2029`, while the parser's line numbers count only `\n`, `\r\n` and `\r`. In a file with those characters `_node_source` can cut the wrong lines; the model assumes the two agree.
- `CheckLoc.Lower`: only ASCII capitals are lowered. Python's `str.lower` also lowers other letters, but no such lowercase form contains a letter of "test", so the result of `check_loc` does not change.
- `CheckEntryRouter.GlobMatch`: `fnmatch` is modelled only for the two pattern shapes in `ENTRY_PATTERNS`, a `<prefix>*` pattern and a pattern without wildcards. It is case-sensitive, as `fnmatch` is on POSIX; on Windows, `fnmatch` folds case.
- `CheckMultiFn.CheckMultiFn`: every statement has an end line, so the `getattr(n, "end_lineno", n.lineno)` fallback is never taken.
- A helper defined twice under the same name is recorded twice in `helper_usage`. `Dependencies.SharedIffTwoUsers` and `Dependencies.HelperUsageLists` assume distinct helper names, and the general case is left to the table the model computes.
- `fn_deps` is keyed by name, so two public functions of the same name share the later entry. Their file is the later one's: `StubTheorems.PackageFunctionFile` states the file's content only for a function that no later function shares a name with.
- Pass 2 does not record in the report the SCRIPT_DIR rewrites that `_write_helpers_file` makes in `_helpers.py`, and `_write_helpers_file` never uses the report it is handed. The model does the same (`Stub.AppendFixed`).
- `__init__.py` and `__main__.py` are written without the blank-line collapse, as in the source.
- The collapse also shortens blank runs inside function bodies and string literals, as in the source: `BlankRuns.Collapse` states exactly what it does to every run, and `StubTheorems.FunctionFileHolds` is stated for the pieces before the collapse, not for the written text.
- `repr` of the `__all__` list is modelled for identifiers (single quotes, no escaping), which is what public function names are.
