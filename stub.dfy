/**
 * `stub`: the decomposition of a module with several public functions into a
 * package with one file per public function, a `_helpers.py` for the private
 * helpers that more than one public function needs, an `__init__.py` that
 * re-exports every public function and, when there is a `main`, a
 * `__main__.py`.
 *
 * The module is given as its top-level statements and its lines; what would
 * be written is returned as a list of (file name, content) pairs, together
 * with the report of adjustments.
 */
module Stub {
  import opened Wrappers
  import opened Text
  import opened PyAst
  import opened NameRefs
  import opened ImportNames
  import opened Closure
  import opened ScriptDir
  import opened BlankRuns
  import opened Emit
  import opened Dependencies

  /** `_StubReport`: the adjustments made while the package was assembled. */
  class StubReport {
    /** (consumer, sibling) for every cross-import line written. */
    var crossImports: seq<(string, string)>
    /** The helpers moved to `_helpers.py`. */
    var sharedHelperNames: seq<string>
    /** One entry per constant whose SCRIPT_DIR idiom was deepened, naming the function file it went to. */
    var scriptDirFixes: seq<string>
    /** The public functions that start the original script as a subprocess. */
    var subprocessRefs: seq<string>

    constructor()
      ensures crossImports == [] && sharedHelperNames == [] && scriptDirFixes == [] && subprocessRefs == []
    {
      crossImports := [];
      sharedHelperNames := [];
      scriptDirFixes := [];
      subprocessRefs := [];
    }
  }

  /** What is known about the module: its statements, its lines (with their endings), its docstring and its file name. */
  datatype Source = Source(tree: seq<Stmt>, lines: seq<string>, doc: Option<string>, baseName: string)

  /** What `stub` does: nothing, for a module with at most one public function, or write a package, as a map from file name to content. */
  datatype StubOutcome =
    | NothingToStub(publicCount: nat)
    | Package(files: map<string, string>)

  // ---------------------------------------------------------------------
  // Pass 2: one function file
  // ---------------------------------------------------------------------

  /** `colocated_privates`: the helpers of the function that stay in its file. */
  function Colocated(deps: FnDeps, shared: set<string>): seq<Stmt>
  {
    WithKeyNotIn(deps.privates, shared)
  }

  /** `imported_helpers`: the names of the helpers the function imports from `_helpers`. */
  function ImportedHelpers(deps: FnDeps, shared: set<string>): seq<string>
  {
    KeyList(WithKeyIn(deps.privates, shared))
  }

  /**
   * The colocated helpers and the imported helpers split the function's
   * helpers: every helper is in exactly one of the two, and no name is both
   * colocated and imported.
   */
  lemma ColocatedImportedPartition(deps: FnDeps, shared: set<string>)
    ensures multiset(Colocated(deps, shared)) + multiset(WithKeyIn(deps.privates, shared)) == multiset(deps.privates)
    ensures |Colocated(deps, shared)| + |ImportedHelpers(deps, shared)| == |deps.privates|
    ensures forall p :: p in deps.privates ==> (p in Colocated(deps, shared) <==> Key(p) !in ImportedHelpers(deps, shared))
  {
    KeyPartition(deps.privates, shared);
    forall p | p in deps.privates
      ensures p in Colocated(deps, shared) <==> Key(p) !in ImportedHelpers(deps, shared)
    {
      KeyListMembers(WithKeyIn(deps.privates, shared), Key(p));
    }
  }

  /** The names pass 2 collects for the function: its own references, those of its colocated helpers and of its constants. */
  function FileRefs(fname: string, nameRefs: map<string, set<string>>, deps: FnDeps, shared: set<string>): set<string>
  {
    RefsOf(nameRefs, fname) + RefsOfAll(nameRefs, KeyList(Colocated(deps, shared)))
    + RefsOfAll(nameRefs, ConstNameList(deps.constants))
  }

  /** The pieces of `<fname>.py` before the collapse. */
  ghost function FunctionFilePieces(src: Source, fn: Stmt, deps: FnDeps, shared: set<string>,
                                    nameRefs: map<string, set<string>>, imports: seq<Stmt>, table: seq<set<string>>): seq<string>
    requires IsProvidedTable(imports, table)
  {
    FunctionFileLines(fn, src.lines, src.doc, src.baseName,
      FilterImports(imports, table, FileRefs(Key(fn), nameRefs, deps, shared)),
      deps.siblingRefs, ImportedHelpers(deps, shared), deps.constants, Colocated(deps, shared))
  }

  /** `(fname, sib)` for each sibling, in the given order. */
  function CrossPairs(fname: string, sibs: seq<string>): (r: seq<(string, string)>)
    ensures |r| == |sibs| && forall i :: 0 <= i < |sibs| ==> r[i] == (fname, sibs[i])
  {
    if sibs == [] then [] else CrossPairs(fname, sibs[..|sibs| - 1]) + [(fname, sibs[|sibs| - 1])]
  }

  /** `fname` once for each constant whose source holds the SCRIPT_DIR idiom. */
  function FixEntries(fname: string, constants: seq<Stmt>, lines: seq<string>): (r: seq<string>)
    ensures forall x :: x in r ==> x == fname
    ensures |r| <= |constants|
  {
    if constants == [] then []
    else
      var init := constants[..|constants| - 1];
      var c := constants[|constants| - 1];
      assert constants == init + [c];
      FixEntries(fname, init, lines) + (if HasIdiom(NodeSource(c, lines)) then [fname] else [])
  }

  lemma SourcesSnoc(nodes: seq<Stmt>, i: nat, lines: seq<string>)
    requires i < |nodes|
    ensures Sources(nodes[..i + 1], lines) == Sources(nodes[..i], lines) + [NodeSource(nodes[i], lines)]
  {
    assert nodes[..i + 1][..i] == nodes[..i];
  }

  lemma SourcesStep(out: seq<string>, r: seq<string>, nodes: seq<Stmt>, i: nat, lines: seq<string>)
    requires i < |nodes| && r == out + Sources(nodes[..i], lines)
    ensures r + [NodeSource(nodes[i], lines)] == out + Sources(nodes[..i + 1], lines)
  {
    SourcesSnoc(nodes, i, lines);
  }

  lemma FixedSourcesSnoc(nodes: seq<Stmt>, i: nat, lines: seq<string>)
    requires i < |nodes|
    ensures FixedSources(nodes[..i + 1], lines) == FixedSources(nodes[..i], lines) + [FixScriptDirDepth(NodeSource(nodes[i], lines))]
  {
    assert nodes[..i + 1][..i] == nodes[..i];
  }

  lemma FixedSourcesStep(out: seq<string>, r: seq<string>, nodes: seq<Stmt>, i: nat, lines: seq<string>)
    requires i < |nodes| && r == out + FixedSources(nodes[..i], lines)
    ensures r + [FixScriptDirDepth(NodeSource(nodes[i], lines))] == out + FixedSources(nodes[..i + 1], lines)
  {
    FixedSourcesSnoc(nodes, i, lines);
  }

  lemma FixEntriesStep(base: seq<string>, cur: seq<string>, fname: string, constants: seq<Stmt>, i: nat, lines: seq<string>)
    requires i < |constants| && cur == base + FixEntries(fname, constants[..i], lines)
    ensures HasIdiom(NodeSource(constants[i], lines)) ==> cur + [fname] == base + FixEntries(fname, constants[..i + 1], lines)
    ensures !HasIdiom(NodeSource(constants[i], lines)) ==> cur == base + FixEntries(fname, constants[..i + 1], lines)
  {
    assert constants[..i + 1][..i] == constants[..i];
  }

  lemma SpacedSnoc(out: seq<string>, xs: seq<string>, x: string)
    ensures out + Spaced(xs) + ["\n", x] == out + Spaced(xs + [x])
  {
    assert (xs + [x])[..|xs|] == xs;
    assert Spaced(xs + [x]) == Spaced(xs) + ["\n", x];
  }

  /** A file's constants produce a report entry exactly when one of them holds the idiom. */
  lemma {:induction false} FixEntriesNonEmpty(fname: string, constants: seq<Stmt>, lines: seq<string>)
    ensures FixEntries(fname, constants, lines) != [] <==> exists c :: c in constants && HasIdiom(NodeSource(c, lines))
    decreases |constants|
  {
    if constants != [] {
      var init := constants[..|constants| - 1];
      assert constants == init + [constants[|constants| - 1]];
      FixEntriesNonEmpty(fname, init, lines);
    }
  }

  /** The import loop: each kept import's source, then a blank line when there was one. */
  method AppendSources(out: seq<string>, nodes: seq<Stmt>, lines: seq<string>) returns (r: seq<string>)
    ensures r == out + Block(Sources(nodes, lines))
  {
    r := out;
    for i := 0 to |nodes|
      invariant r == out + Sources(nodes[..i], lines)
    {
      SourcesStep(out, r, nodes, i, lines);
      r := r + [NodeSource(nodes[i], lines)];
    }
    assert nodes[..|nodes|] == nodes;
    CloseBlock(out, Sources(nodes, lines));
    if nodes != [] {
      r := r + ["\n"];
    }
  }

  /** The sibling loop: one `from .sib import sib` line per sibling, each recorded in the report, then a blank line. */
  method AppendSiblingImports(out: seq<string>, fname: string, sibs: seq<string>, report: StubReport)
    returns (r: seq<string>)
    modifies report
    ensures r == out + Block(ReexportLines(sibs))
    ensures report.crossImports == old(report.crossImports) + CrossPairs(fname, sibs)
    ensures report.sharedHelperNames == old(report.sharedHelperNames)
    ensures report.scriptDirFixes == old(report.scriptDirFixes)
    ensures report.subprocessRefs == old(report.subprocessRefs)
  {
    r := out;
    for i := 0 to |sibs|
      invariant r == out + ReexportLines(sibs[..i])
      invariant report.crossImports == old(report.crossImports) + CrossPairs(fname, sibs[..i])
      invariant report.sharedHelperNames == old(report.sharedHelperNames)
      invariant report.scriptDirFixes == old(report.scriptDirFixes)
      invariant report.subprocessRefs == old(report.subprocessRefs)
    {
      assert sibs[..i + 1][..i] == sibs[..i];
      r := r + [ReexportLine(sibs[i])];
      report.crossImports := report.crossImports + [(fname, sibs[i])];
    }
    assert sibs[..|sibs|] == sibs;
    CloseBlock(out, ReexportLines(sibs));
    if sibs != [] {
      r := r + ["\n"];
    }
  }

  /**
   * The constants loop: each constant's source with the SCRIPT_DIR rewrite,
   * and a report entry for each constant the rewrite changed; then a blank
   * line when there was a constant.
   */
  method AppendConstants(out: seq<string>, fname: string, constants: seq<Stmt>, lines: seq<string>, report: StubReport)
    returns (r: seq<string>)
    modifies report
    ensures r == out + Block(FixedSources(constants, lines))
    ensures report.scriptDirFixes == old(report.scriptDirFixes) + FixEntries(fname, constants, lines)
    ensures report.crossImports == old(report.crossImports)
    ensures report.sharedHelperNames == old(report.sharedHelperNames)
    ensures report.subprocessRefs == old(report.subprocessRefs)
  {
    r := out;
    for i := 0 to |constants|
      invariant r == out + FixedSources(constants[..i], lines)
      invariant report.scriptDirFixes == old(report.scriptDirFixes) + FixEntries(fname, constants[..i], lines)
      invariant report.crossImports == old(report.crossImports)
      invariant report.sharedHelperNames == old(report.sharedHelperNames)
      invariant report.subprocessRefs == old(report.subprocessRefs)
    {
      var constSrc := NodeSource(constants[i], lines);
      var fixed := FixScriptDirDepth(constSrc);
      FixedSourcesStep(out, r, constants, i, lines);
      FixEntriesStep(old(report.scriptDirFixes), report.scriptDirFixes, fname, constants, i, lines);
      FixChangesIffIdiom(constSrc);
      if fixed != constSrc {
        report.scriptDirFixes := report.scriptDirFixes + [fname];
      }
      r := r + [fixed];
    }
    assert constants[..|constants|] == constants;
    CloseBlock(out, FixedSources(constants, lines));
    if constants != [] {
      r := r + ["\n"];
    }
  }

  /** The helper loop: a blank line, then the helper's source, for each helper. */
  method AppendSpaced(out: seq<string>, nodes: seq<Stmt>, lines: seq<string>) returns (r: seq<string>)
    ensures r == out + Spaced(Sources(nodes, lines))
  {
    r := out;
    for i := 0 to |nodes|
      invariant r == out + Spaced(Sources(nodes[..i], lines))
    {
      SourcesSnoc(nodes, i, lines);
      SpacedSnoc(out, Sources(nodes[..i], lines), NodeSource(nodes[i], lines));
      r := r + ["\n", NodeSource(nodes[i], lines)];
    }
    assert nodes[..|nodes|] == nodes;
  }

  /** Closing a group with a blank line when it is not empty gives the group's block. */
  lemma CloseBlock(prefix: seq<string>, xs: seq<string>)
    ensures xs != [] ==> prefix + xs + ["\n"] == prefix + Block(xs)
    ensures xs == [] ==> prefix + xs == prefix + Block(xs)
  {
  }

  /**
   * The `out_lines` of a function file, from the imports, siblings, helpers
   * and constants already chosen for it.
   */
  method FunctionFileBody(fn: Stmt, src: Source, needed: seq<Stmt>, siblings: set<string>, sibs: seq<string>,
                          imported: seq<string>, constants: seq<Stmt>, colocated: seq<Stmt>, report: StubReport)
    returns (out: seq<string>)
    requires sibs == SortedSet(siblings)
    modifies report
    ensures out == FunctionFileLines(fn, src.lines, src.doc, src.baseName, needed, siblings, imported, constants, colocated)
    ensures report.crossImports == old(report.crossImports) + CrossPairs(Key(fn), sibs)
    ensures report.scriptDirFixes == old(report.scriptDirFixes) + FixEntries(Key(fn), constants, src.lines)
    ensures report.sharedHelperNames == old(report.sharedHelperNames)
    ensures report.subprocessRefs == old(report.subprocessRefs)
  {
    var fname := Key(fn);
    out := Header(FunctionHeader, src.baseName, src.doc);
    ghost var p0 := out;
    out := AppendSources(out, needed, src.lines);
    ghost var p1 := out;
    out := AppendSiblingImports(out, fname, sibs, report);
    ghost var p2 := out;
    var helperLine := if imported == [] then [] else [HelperImportLine(SortStrings(imported))];
    CloseBlock(out, helperLine);
    if imported != [] {
      out := out + helperLine + ["\n"];
    }
    ghost var p3 := out;
    out := AppendConstants(out, fname, constants, src.lines, report);
    ghost var p4 := out;
    out := AppendSpaced(out, colocated, src.lines);
    CloseBlock(p4, Spaced(Sources(colocated, src.lines)));
    if colocated != [] {
      out := out + ["\n"];
    }
    ghost var p5 := out;
    out := out + ["\n", NodeSource(fn, src.lines)];
    FunctionFileLinesSplit(fn, src, needed, siblings, sibs, imported, constants, colocated, p0, p1, p2, p3, p4, p5, out);
  }

  lemma FunctionFileLinesSplit(fn: Stmt, src: Source, needed: seq<Stmt>, siblings: set<string>, sibs: seq<string>,
                               imported: seq<string>, constants: seq<Stmt>, colocated: seq<Stmt>,
                               p0: seq<string>, p1: seq<string>, p2: seq<string>, p3: seq<string>, p4: seq<string>,
                               p5: seq<string>, out: seq<string>)
    requires sibs == SortedSet(siblings)
    requires p0 == Header(FunctionHeader, src.baseName, src.doc)
    requires p1 == p0 + Block(Sources(needed, src.lines))
    requires p2 == p1 + Block(ReexportLines(sibs))
    requires p3 == p2 + Block(if imported == [] then [] else [HelperImportLine(SortStrings(imported))])
    requires p4 == p3 + Block(FixedSources(constants, src.lines))
    requires p5 == p4 + Block(Spaced(Sources(colocated, src.lines)))
    requires out == p5 + ["\n", NodeSource(fn, src.lines)]
    ensures out == FunctionFileLines(fn, src.lines, src.doc, src.baseName, needed, siblings, imported, constants, colocated)
  {
  }

  /**
   * Pass 2 for one public function: the content of `<fname>.py`, with the
   * cross-imports and the SCRIPT_DIR rewrites recorded in the report.
   * External imports are filtered against the names of the function, its
   * colocated helpers and its constants: the shared helpers bring their own
   * imports in `_helpers.py`.
   */
  method EmitFunctionFile(src: Source, fn: Stmt, deps: FnDeps, shared: set<string>,
                          nameRefs: map<string, set<string>>, imports: seq<Stmt>, table: seq<set<string>>,
                          report: StubReport)
    returns (content: string)
    requires IsProvidedTable(imports, table)
    modifies report
    ensures content == Collapse(Concat(FunctionFilePieces(src, fn, deps, shared, nameRefs, imports, table)))
    ensures report.crossImports == old(report.crossImports) + CrossPairs(Key(fn), SortedSet(deps.siblingRefs))
    ensures report.scriptDirFixes == old(report.scriptDirFixes) + FixEntries(Key(fn), deps.constants, src.lines)
    ensures report.sharedHelperNames == old(report.sharedHelperNames)
    ensures report.subprocessRefs == old(report.subprocessRefs)
  {
    var colocated := Colocated(deps, shared);
    var refs := CollectRefs(nameRefs, RefsOf(nameRefs, Key(fn)), KeyList(colocated));
    refs := CollectRefs(nameRefs, refs, ConstNameList(deps.constants));
    var needed := FilterImports(imports, table, refs);
    var sibs := SortedNames(deps.siblingRefs);
    var out := FunctionFileBody(fn, src, needed, deps.siblingRefs, sibs, ImportedHelpers(deps, shared), deps.constants, colocated, report);
    content := CollapseBlankRuns(Concat(out));
  }

  // ---------------------------------------------------------------------
  // _helpers.py
  // ---------------------------------------------------------------------

  /** The constants `_helpers.py` needs: those the shared helpers name, and those these name in turn. */
  ghost function HelperConstants(constants: seq<Stmt>, nameRefs: map<string, set<string>>, shared: seq<Stmt>): seq<Stmt>
  {
    ConstantsSpec(constants, nameRefs, RefsOfAll(nameRefs, KeyList(shared)))
  }

  /** The names `_helpers.py` needs imports for: those of the shared helpers and of their constants. */
  ghost function HelperRefs(constants: seq<Stmt>, nameRefs: map<string, set<string>>, shared: seq<Stmt>): set<string>
  {
    RefsOfAll(nameRefs, KeyList(shared)) + RefsOfAll(nameRefs, ConstNameList(HelperConstants(constants, nameRefs, shared)))
  }

  /** The pieces of `_helpers.py` before the collapse. */
  ghost function HelpersFilePieces(src: Source, shared: seq<Stmt>, nameRefs: map<string, set<string>>,
                                   constants: seq<Stmt>, imports: seq<Stmt>, table: seq<set<string>>): seq<string>
    requires IsProvidedTable(imports, table)
  {
    HelpersFileLines(src.lines, src.doc, src.baseName,
      FilterImports(imports, table, HelperRefs(constants, nameRefs, shared)),
      HelperConstants(constants, nameRefs, shared), shared)
  }

  /** The constants loop of `_helpers.py`: the same SCRIPT_DIR rewrite, but nothing is reported. */
  method AppendFixed(out: seq<string>, constants: seq<Stmt>, lines: seq<string>) returns (r: seq<string>)
    ensures r == out + Block(FixedSources(constants, lines))
  {
    r := out;
    for i := 0 to |constants|
      invariant r == out + FixedSources(constants[..i], lines)
    {
      FixedSourcesStep(out, r, constants, i, lines);
      var constSrc := NodeSource(constants[i], lines);
      r := r + [FixScriptDirDepth(constSrc)];
    }
    assert constants[..|constants|] == constants;
    CloseBlock(out, FixedSources(constants, lines));
    if constants != [] {
      r := r + ["\n"];
    }
  }

  lemma HelpersFileLinesSplit(src: Source, needed: seq<Stmt>, constants: seq<Stmt>, shared: seq<Stmt>,
                              p0: seq<string>, p1: seq<string>, p2: seq<string>, out: seq<string>)
    requires p0 == Header(HelpersHeader, src.baseName, src.doc)
    requires p1 == p0 + Block(Sources(needed, src.lines))
    requires p2 == p1 + Block(FixedSources(constants, src.lines))
    requires out == p2 + Spaced(Sources(shared, src.lines))
    ensures out == HelpersFileLines(src.lines, src.doc, src.baseName, needed, constants, shared)
  {
  }

  /** The `out_lines` of `_helpers.py`, from the imports and constants already chosen for it. */
  method HelpersFileBody(src: Source, neededImports: seq<Stmt>, constants: seq<Stmt>, shared: seq<Stmt>)
    returns (out: seq<string>)
    ensures out == HelpersFileLines(src.lines, src.doc, src.baseName, neededImports, constants, shared)
  {
    out := Header(HelpersHeader, src.baseName, src.doc);
    ghost var p0 := out;
    out := AppendSources(out, neededImports, src.lines);
    ghost var p1 := out;
    out := AppendFixed(out, constants, src.lines);
    ghost var p2 := out;
    out := AppendSpaced(out, shared, src.lines);
    HelpersFileLinesSplit(src, neededImports, constants, shared, p0, p1, p2, out);
  }

  lemma HelpersPiecesChosen(src: Source, shared: seq<Stmt>, nameRefs: map<string, set<string>>,
                            constants: seq<Stmt>, imports: seq<Stmt>, table: seq<set<string>>,
                            refs0: set<string>, needed: seq<Stmt>, refs: set<string>, neededImports: seq<Stmt>,
                            out: seq<string>)
    requires IsProvidedTable(imports, table)
    requires refs0 == {} + RefsOfAll(nameRefs, KeyList(shared))
    requires needed == ConstantsSpec(constants, nameRefs, refs0)
    requires refs == refs0 + RefsOfAll(nameRefs, ConstNameList(needed))
    requires neededImports == FilterImports(imports, table, refs)
    requires out == HelpersFileLines(src.lines, src.doc, src.baseName, neededImports, needed, shared)
    ensures out == HelpersFilePieces(src, shared, nameRefs, constants, imports, table)
  {
    assert refs0 == RefsOfAll(nameRefs, KeyList(shared));
  }

  /**
   * `_write_helpers_file`: the content of `_helpers.py`, holding every shared
   * helper with the constants and imports they need. The report it is
   * handed is left untouched.
   */
  method EmitHelpersFile(src: Source, shared: seq<Stmt>, nameRefs: map<string, set<string>>,
                         constants: seq<Stmt>, imports: seq<Stmt>, table: seq<set<string>>)
    returns (content: string)
    requires IsProvidedTable(imports, table)
    ensures content == Collapse(Concat(HelpersFilePieces(src, shared, nameRefs, constants, imports, table)))
  {
    var refs0 := CollectRefs(nameRefs, {}, KeyList(shared));
    var needed, _ := TransitiveConstants(constants, nameRefs, refs0);
    var refs := CollectRefs(nameRefs, refs0, ConstNameList(needed));
    var neededImports := FilterImports(imports, table, refs);
    var out := HelpersFileBody(src, neededImports, needed, shared);
    HelpersPiecesChosen(src, shared, nameRefs, constants, imports, table, refs0, needed, refs, neededImports, out);
    content := CollapseBlankRuns(Concat(out));
  }

  // ---------------------------------------------------------------------
  // Pass 2 over all public functions
  // ---------------------------------------------------------------------

  /** The content of `<fname>.py` for public function `fn`. */
  ghost function FunctionFileText(src: Source, fn: Stmt, deps: FnDeps, shared: set<string>,
                                  nameRefs: map<string, set<string>>, imports: seq<Stmt>, table: seq<set<string>>): string
    requires IsProvidedTable(imports, table)
  {
    Collapse(Concat(FunctionFilePieces(src, fn, deps, shared, nameRefs, imports, table)))
  }

  /** The output directory after the files of `fns` are written in order over `files`; a later file of the same name replaces an earlier one. */
  ghost function FunctionFiles(src: Source, fns: seq<Stmt>, fnDeps: map<string, FnDeps>, shared: set<string>,
                               nameRefs: map<string, set<string>>, imports: seq<Stmt>, table: seq<set<string>>,
                               files: map<string, string>): map<string, string>
    requires IsProvidedTable(imports, table)
    requires Keys(fns) <= fnDeps.Keys
  {
    if fns == [] then files
    else
      var f := fns[|fns| - 1];
      assert Key(f) in Keys(fns);
      assert Keys(fns[..|fns| - 1]) <= Keys(fns);
      FunctionFiles(src, fns[..|fns| - 1], fnDeps, shared, nameRefs, imports, table, files)
        [Key(f) + ".py" := FunctionFileText(src, f, fnDeps[Key(f)], shared, nameRefs, imports, table)]
  }

  /** The cross-import pairs pass 2 records for `fns`, in order. */
  ghost function CrossImportsOf(fns: seq<Stmt>, fnDeps: map<string, FnDeps>): seq<(string, string)>
    requires Keys(fns) <= fnDeps.Keys
  {
    if fns == [] then []
    else
      var f := fns[|fns| - 1];
      assert Key(f) in Keys(fns);
      assert Keys(fns[..|fns| - 1]) <= Keys(fns);
      CrossImportsOf(fns[..|fns| - 1], fnDeps) + CrossPairs(Key(f), SortedSet(fnDeps[Key(f)].siblingRefs))
  }

  /** The SCRIPT_DIR report entries pass 2 records for `fns`, in order. */
  ghost function ScriptDirFixesOf(fns: seq<Stmt>, fnDeps: map<string, FnDeps>, lines: seq<string>): seq<string>
    requires Keys(fns) <= fnDeps.Keys
  {
    if fns == [] then []
    else
      var f := fns[|fns| - 1];
      assert Key(f) in Keys(fns);
      assert Keys(fns[..|fns| - 1]) <= Keys(fns);
      ScriptDirFixesOf(fns[..|fns| - 1], fnDeps, lines) + FixEntries(Key(f), fnDeps[Key(f)].constants, lines)
  }

  lemma KeysPrefix(fns: seq<Stmt>, i: nat)
    requires i < |fns|
    ensures Keys(fns[..i]) <= Keys(fns[..i + 1]) <= Keys(fns) && Key(fns[i]) in Keys(fns)
  {
    assert fns[..i + 1][..i] == fns[..i];
    assert fns[i] in fns;
    assert forall n :: n in fns[..i + 1] ==> n in fns;
    assert forall n :: n in fns[..i] ==> n in fns[..i + 1];
  }

  lemma FunctionFilesStep(src: Source, fns: seq<Stmt>, i: nat, fnDeps: map<string, FnDeps>, shared: set<string>,
                          nameRefs: map<string, set<string>>, imports: seq<Stmt>, table: seq<set<string>>,
                          files0: map<string, string>)
    requires IsProvidedTable(imports, table)
    requires i < |fns| && Keys(fns[..i + 1]) <= fnDeps.Keys && Keys(fns[..i]) <= fnDeps.Keys && Key(fns[i]) in fnDeps
    ensures FunctionFiles(src, fns[..i + 1], fnDeps, shared, nameRefs, imports, table, files0) ==
      FunctionFiles(src, fns[..i], fnDeps, shared, nameRefs, imports, table, files0)
        [Key(fns[i]) + ".py" := FunctionFileText(src, fns[i], fnDeps[Key(fns[i])], shared, nameRefs, imports, table)]
  {
    assert fns[..i + 1][..i] == fns[..i];
  }

  lemma CrossImportsStep(fns: seq<Stmt>, i: nat, fnDeps: map<string, FnDeps>)
    requires i < |fns| && Keys(fns[..i + 1]) <= fnDeps.Keys && Keys(fns[..i]) <= fnDeps.Keys && Key(fns[i]) in fnDeps
    ensures CrossImportsOf(fns[..i + 1], fnDeps) ==
      CrossImportsOf(fns[..i], fnDeps) + CrossPairs(Key(fns[i]), SortedSet(fnDeps[Key(fns[i])].siblingRefs))
  {
    assert fns[..i + 1][..i] == fns[..i];
  }

  lemma ScriptDirFixesStep(fns: seq<Stmt>, i: nat, fnDeps: map<string, FnDeps>, lines: seq<string>)
    requires i < |fns| && Keys(fns[..i + 1]) <= fnDeps.Keys && Keys(fns[..i]) <= fnDeps.Keys && Key(fns[i]) in fnDeps
    ensures ScriptDirFixesOf(fns[..i + 1], fnDeps, lines) ==
      ScriptDirFixesOf(fns[..i], fnDeps, lines) + FixEntries(Key(fns[i]), fnDeps[Key(fns[i])].constants, lines)
  {
    assert fns[..i + 1][..i] == fns[..i];
  }

  /** One iteration of pass 2: write `<fname>.py` and record its report entries. */
  method PassTwoStep(src: Source, fns: seq<Stmt>, i: nat, fnDeps: map<string, FnDeps>, shared: set<string>,
                     nameRefs: map<string, set<string>>, imports: seq<Stmt>, table: seq<set<string>>,
                     report: StubReport, files0: map<string, string>, files: map<string, string>)
    returns (files': map<string, string>)
    requires IsProvidedTable(imports, table)
    requires Keys(fns) <= fnDeps.Keys && i < |fns|
    requires files == FunctionFiles(src, fns[..i], fnDeps, shared, nameRefs, imports, table, files0)
    requires report.crossImports == CrossImportsOf(fns[..i], fnDeps)
    requires report.scriptDirFixes == ScriptDirFixesOf(fns[..i], fnDeps, src.lines)
    modifies report
    ensures files' == FunctionFiles(src, fns[..i + 1], fnDeps, shared, nameRefs, imports, table, files0)
    ensures report.crossImports == CrossImportsOf(fns[..i + 1], fnDeps)
    ensures report.scriptDirFixes == ScriptDirFixesOf(fns[..i + 1], fnDeps, src.lines)
    ensures report.sharedHelperNames == old(report.sharedHelperNames)
    ensures report.subprocessRefs == old(report.subprocessRefs)
  {
    KeysPrefix(fns, i);
    FunctionFilesStep(src, fns, i, fnDeps, shared, nameRefs, imports, table, files0);
    CrossImportsStep(fns, i, fnDeps);
    ScriptDirFixesStep(fns, i, fnDeps, src.lines);
    var fn := fns[i];
    var content := EmitFunctionFile(src, fn, fnDeps[Key(fn)], shared, nameRefs, imports, table, report);
    files' := files[Key(fn) + ".py" := content];
  }

  /** Pass 2: one file per public function, in order, over the files already written. */
  method PassTwo(src: Source, fns: seq<Stmt>, fnDeps: map<string, FnDeps>, shared: set<string>,
                 nameRefs: map<string, set<string>>, imports: seq<Stmt>, table: seq<set<string>>,
                 report: StubReport, files0: map<string, string>)
    returns (files: map<string, string>)
    requires IsProvidedTable(imports, table)
    requires Keys(fns) <= fnDeps.Keys
    requires report.crossImports == [] && report.scriptDirFixes == []
    modifies report
    ensures files == FunctionFiles(src, fns, fnDeps, shared, nameRefs, imports, table, files0)
    ensures report.crossImports == CrossImportsOf(fns, fnDeps)
    ensures report.scriptDirFixes == ScriptDirFixesOf(fns, fnDeps, src.lines)
    ensures report.sharedHelperNames == old(report.sharedHelperNames)
    ensures report.subprocessRefs == old(report.subprocessRefs)
  {
    files := files0;
    for i := 0 to |fns|
      invariant files == FunctionFiles(src, fns[..i], fnDeps, shared, nameRefs, imports, table, files0)
      invariant report.crossImports == CrossImportsOf(fns[..i], fnDeps)
      invariant report.scriptDirFixes == ScriptDirFixesOf(fns[..i], fnDeps, src.lines)
      invariant report.sharedHelperNames == old(report.sharedHelperNames)
      invariant report.subprocessRefs == old(report.subprocessRefs)
    {
      files := PassTwoStep(src, fns, i, fnDeps, shared, nameRefs, imports, table, report, files0, files);
    }
    assert fns[..|fns|] == fns;
  }

  // ---------------------------------------------------------------------
  // __init__.py, __main__.py and the subprocess scan
  // ---------------------------------------------------------------------

  /** The `__init__.py` loop: the docstring, a re-export per public function, then `__all__`. */
  method InitFile(doc: Option<string>, pubNames: seq<string>) returns (content: string)
    ensures content == Concat(InitFileLines(doc, pubNames))
  {
    var initLines: seq<string> := if HasDoc(doc) then ["\"\"\"" + doc.value + "\"\"\"\n\n"] else [];
    ghost var head := initLines;
    for i := 0 to |pubNames|
      invariant initLines == head + ReexportLines(pubNames[..i])
    {
      assert pubNames[..i + 1][..i] == pubNames[..i];
      initLines := initLines + [ReexportLine(pubNames[i])];
    }
    assert pubNames[..|pubNames|] == pubNames;
    initLines := initLines + ["\n__all__ = " + NameListRepr(pubNames) + "\n"];
    content := Concat(initLines);
  }

  /** A public function whose source starts the original script as a subprocess. */
  ghost predicate RunsOriginalScript(lines: seq<string>, stem: string, f: Stmt)
  {
    RunsOriginal(NodeSource(f, lines), stem)
  }

  /** The subprocess scan: the public functions, in order, whose source refers to the original script. */
  method FindSubprocessRefs(pubFns: seq<Stmt>, lines: seq<string>, stem: string, report: StubReport)
    modifies report
    ensures report.subprocessRefs == old(report.subprocessRefs) + Matching(pubFns, f => RunsOriginalScript(lines, stem, f))
    ensures report.crossImports == old(report.crossImports)
    ensures report.sharedHelperNames == old(report.sharedHelperNames)
    ensures report.scriptDirFixes == old(report.scriptDirFixes)
  {
    for i := 0 to |pubFns|
      invariant report.subprocessRefs == old(report.subprocessRefs) + Matching(pubFns[..i], f => RunsOriginalScript(lines, stem, f))
      invariant report.crossImports == old(report.crossImports)
      invariant report.sharedHelperNames == old(report.sharedHelperNames)
      invariant report.scriptDirFixes == old(report.scriptDirFixes)
    {
      var fn := pubFns[i];
      var fnSrc := NodeSource(fn, lines);
      assert pubFns[..i + 1][..i] == pubFns[..i];
      if Contains(fnSrc, "sys.executable") && Contains(fnSrc, stem) {
        report.subprocessRefs := report.subprocessRefs + [Key(fn)];
      } else if Contains(fnSrc, "python3 " + stem) || Contains(fnSrc, "python " + stem) {
        report.subprocessRefs := report.subprocessRefs + [Key(fn)];
      }
    }
    assert pubFns[..|pubFns|] == pubFns;
  }

  // ---------------------------------------------------------------------
  // The whole decomposition
  // ---------------------------------------------------------------------

  /** `name_refs` for the module: public functions, then private functions, then constants. */
  ghost function SourceRefs(src: Source): map<string, set<string>>
  {
    NameRefsOf(PublicFunctions(src.tree) + PrivateFunctions(src.tree) + Constants(src.tree))
  }

  /** `fn_deps`: the pass-1 entry of every public function name. */
  ghost function DepsTable(src: Source): (t: map<string, FnDeps>)
    ensures t.Keys == Keys(PublicFunctions(src.tree))
  {
    var pub := PublicFunctions(src.tree);
    TableOf(Keys(pub), DepsOf(src))
  }

  /** The dependencies pass 1 records for the public function named `k`. */
  ghost function DepsOf(src: Source): string -> FnDeps
  {
    var pub := PublicFunctions(src.tree);
    k => DepsFor(k, SourceRefs(src), PrivateFunctions(src.tree), Constants(src.tree), Keys(pub))
  }

  /** The map that sends each key in `keys` to `g` of it. */
  ghost function TableOf<V>(keys: set<string>, g: string -> V): (t: map<string, V>)
    ensures t.Keys == keys
  {
    map k | k in keys :: g(k)
  }

  /** A map is determined by its keys and its value at each key. */
  lemma TableOfAgrees<V>(m: map<string, V>, keys: set<string>, g: string -> V)
    requires m.Keys == keys
    requires forall k :: k in keys ==> m[k] == g(k)
    ensures m == TableOf(keys, g)
  {
  }

  /** `shared_helpers`: the helpers recorded for more than one public function. */
  ghost function SharedOf(src: Source): set<string>
  {
    SharedSet(HelperUsage(PublicFunctions(src.tree), SourceRefs(src), PrivateFunctions(src.tree)))
  }

  /** `shared_helper_nodes`: the shared helpers' definitions, in source order. */
  ghost function SharedNodesOf(src: Source): seq<Stmt>
  {
    WithKeyIn(PrivateFunctions(src.tree), SharedOf(src))
  }

  /** `_helpers.py`, written only when some helper is shared. */
  ghost function HelpersDirFrom(src: Source, sharedNodes: seq<Stmt>, nameRefs: map<string, set<string>>,
                                constants: seq<Stmt>, imports: seq<Stmt>, table: seq<set<string>>): map<string, string>
    requires IsProvidedTable(imports, table)
  {
    if sharedNodes == [] then map[]
    else map["_helpers.py" := Collapse(Concat(HelpersFilePieces(src, sharedNodes, nameRefs, constants, imports, table)))]
  }

  /** The package: over the helpers file, the function files, then `__init__.py` and, with a `main`, `__main__.py`. */
  ghost function PackageFrom(src: Source, pub: seq<Stmt>, fnDeps: map<string, FnDeps>, shared: set<string>,
                             nameRefs: map<string, set<string>>, imports: seq<Stmt>, table: seq<set<string>>,
                             helpersDir: map<string, string>): map<string, string>
    requires IsProvidedTable(imports, table) && Keys(pub) <= fnDeps.Keys
  {
    WithInitAndMain(src, KeyList(pub), FunctionFiles(src, pub, fnDeps, shared, nameRefs, imports, table, helpersDir))
  }

  /** `__init__.py` over `files`, then `__main__.py` when a public function is called `main`. */
  function WithInitAndMain(src: Source, pubNames: seq<string>, files: map<string, string>): map<string, string>
  {
    var withInit := files["__init__.py" := Concat(InitFileLines(src.doc, pubNames))];
    if "main" in pubNames then withInit["__main__.py" := MainFile(Stem(src.baseName))] else withInit
  }

  /** The `__init__.py` and `__main__.py` steps of `stub`. */
  method WriteInitAndMain(src: Source, pubNames: seq<string>, files: map<string, string>) returns (r: map<string, string>)
    ensures r == WithInitAndMain(src, pubNames, files)
  {
    var init := InitFile(src.doc, pubNames);
    r := files["__init__.py" := init];
    if "main" in pubNames {
      r := r["__main__.py" := MainFile(Stem(src.baseName))];
    }
  }

  /** What `stub` computes before it writes: the imports and their provided names, `name_refs`, `fn_deps` and the shared helpers. */
  datatype Analysis = Analysis(imports: seq<Stmt>, nameRefs: map<string, set<string>>, table: seq<set<string>>,
                               fnDeps: map<string, FnDeps>, shared: set<string>, sharedNodes: seq<Stmt>)

  /** The analysis of a module. */
  ghost function AnalysisOf(src: Source): (a: Analysis)
    ensures Consistent(src, a)
  {
    var imports := Imports(src.tree);
    Analysis(imports, SourceRefs(src), ProvidedTable(imports), DepsTable(src), SharedOf(src), SharedNodesOf(src))
  }

  /** What writing needs of an analysis: a provided-names table for its imports, and deps for every public function. */
  ghost predicate Consistent(src: Source, a: Analysis)
  {
    IsProvidedTable(a.imports, a.table) && Keys(PublicFunctions(src.tree)) <= a.fnDeps.Keys
  }

  /** The package written from an analysis. */
  ghost function PackageOf(src: Source, a: Analysis): map<string, string>
    requires Consistent(src, a)
  {
    PackageFrom(src, PublicFunctions(src.tree), a.fnDeps, a.shared, a.nameRefs, a.imports, a.table,
                HelpersDirFrom(src, a.sharedNodes, a.nameRefs, Constants(src.tree), a.imports, a.table))
  }

  /** The package `stub` writes for a module with more than one public function. */
  ghost function PackageSpec(src: Source): map<string, string>
  {
    PackageOf(src, AnalysisOf(src))
  }

  /** The table pass 1 computes is `fn_deps` of the module. */
  lemma PassOneTable(src: Source, fnDeps: map<string, FnDeps>)
    requires fnDeps.Keys == Keys(PublicFunctions(src.tree))
    requires forall f :: f in PublicFunctions(src.tree) ==>
      fnDeps[Key(f)] == DepsFor(Key(f), SourceRefs(src), PrivateFunctions(src.tree), Constants(src.tree), Keys(PublicFunctions(src.tree)))
    ensures fnDeps == DepsTable(src)
  {
    var pub := PublicFunctions(src.tree);
    forall k | k in Keys(pub) ensures fnDeps[k] == DepsOf(src)(k) {
      var f :| f in pub && Key(f) == k;
    }
    TableOfAgrees(fnDeps, Keys(pub), DepsOf(src));
  }

  /** `_write_helpers_file`, called only when some helper is shared. */
  method WriteHelpers(src: Source, sharedNodes: seq<Stmt>, nameRefs: map<string, set<string>>,
                      constants: seq<Stmt>, imports: seq<Stmt>, table: seq<set<string>>)
    returns (files: map<string, string>)
    requires IsProvidedTable(imports, table)
    ensures files == HelpersDirFrom(src, sharedNodes, nameRefs, constants, imports, table)
  {
    files := map[];
    if sharedNodes != [] {
      var helpers := EmitHelpersFile(src, sharedNodes, nameRefs, constants, imports, table);
      files := files["_helpers.py" := helpers];
    }
  }

  /** The files of the package after `_helpers.py`: the function files, `__init__.py` and `__main__.py`. */
  method WritePackage(src: Source, pub: seq<Stmt>, fnDeps: map<string, FnDeps>, shared: set<string>,
                      nameRefs: map<string, set<string>>, imports: seq<Stmt>, table: seq<set<string>>,
                      report: StubReport, helpersDir: map<string, string>)
    returns (files: map<string, string>)
    requires IsProvidedTable(imports, table) && Keys(pub) <= fnDeps.Keys
    requires report.crossImports == [] && report.scriptDirFixes == []
    modifies report
    ensures files == PackageFrom(src, pub, fnDeps, shared, nameRefs, imports, table, helpersDir)
    ensures report.crossImports == CrossImportsOf(pub, fnDeps)
    ensures report.scriptDirFixes == ScriptDirFixesOf(pub, fnDeps, src.lines)
    ensures report.sharedHelperNames == old(report.sharedHelperNames)
    ensures report.subprocessRefs == old(report.subprocessRefs)
  {
    files := PassTwo(src, pub, fnDeps, shared, nameRefs, imports, table, report, helpersDir);
    files := WriteInitAndMain(src, KeyList(pub), files);
  }

  /** The values `stub` computes are those of the module. */
  lemma StubValues(src: Source, nameRefs: map<string, set<string>>, table: seq<set<string>>,
                   fnDeps: map<string, FnDeps>, usage: map<string, seq<string>>)
    requires nameRefs == NameRefsOf(PublicFunctions(src.tree) + PrivateFunctions(src.tree) + Constants(src.tree))
    requires IsProvidedTable(Imports(src.tree), table)
    requires fnDeps.Keys == Keys(PublicFunctions(src.tree))
    requires forall f :: f in PublicFunctions(src.tree) ==>
      fnDeps[Key(f)] == DepsFor(Key(f), nameRefs, PrivateFunctions(src.tree), Constants(src.tree), Keys(PublicFunctions(src.tree)))
    requires usage == HelperUsage(PublicFunctions(src.tree), nameRefs, PrivateFunctions(src.tree))
    ensures nameRefs == SourceRefs(src) && table == ProvidedTable(Imports(src.tree))
    ensures fnDeps == DepsTable(src) && SharedSet(usage) == SharedOf(src)
    ensures WithKeyIn(PrivateFunctions(src.tree), SharedSet(usage)) == SharedNodesOf(src)
  {
    PassOneTable(src, fnDeps);
  }

  /** The public functions, in order, whose source refers to the original script. */
  ghost function SubprocessSpec(src: Source): seq<string>
  {
    Matching(PublicFunctions(src.tree), f => RunsOriginalScript(src.lines, Stem(src.baseName), f))
  }

  /** Everything `stub` computes before it writes: `name_refs`, the import table, pass 1 and the shared helpers. */
  method Analyse(src: Source) returns (a: Analysis)
    ensures a == AnalysisOf(src)
  {
    var pub := PublicFunctions(src.tree);
    var priv := PrivateFunctions(src.tree);
    var imports := Imports(src.tree);
    var constants := Constants(src.tree);
    var nameRefs := BuildNameRefs(pub + priv + constants);
    var table := ImportProvidedNames(imports);
    var fnDeps, usage := PassOne(pub, priv, constants, nameRefs);
    StubValues(src, nameRefs, table, fnDeps, usage);
    var shared := SharedSet(usage);
    a := Analysis(imports, nameRefs, table, fnDeps, shared, WithKeyIn(priv, shared));
  }

  /** Everything `stub` writes for a module with more than one public function, and the report entries of pass 2. */
  method WriteFiles(src: Source, report: StubReport) returns (files: map<string, string>)
    requires report.crossImports == [] && report.scriptDirFixes == []
    modifies report
    ensures files == PackageSpec(src)
    ensures report.crossImports == CrossImportsOf(PublicFunctions(src.tree), DepsTable(src))
    ensures report.scriptDirFixes == ScriptDirFixesOf(PublicFunctions(src.tree), DepsTable(src), src.lines)
    ensures report.sharedHelperNames == KeyList(SharedNodesOf(src))
    ensures report.subprocessRefs == old(report.subprocessRefs)
  {
    var a := Analyse(src);
    files := WriteAnalysed(src, a, report);
  }

  /** The writing half of `stub`: `_helpers.py`, pass 2, `__init__.py` and `__main__.py`. */
  method WriteAnalysed(src: Source, a: Analysis, report: StubReport) returns (files: map<string, string>)
    requires Consistent(src, a)
    requires report.crossImports == [] && report.scriptDirFixes == []
    modifies report
    ensures files == PackageOf(src, a)
    ensures report.crossImports == CrossImportsOf(PublicFunctions(src.tree), a.fnDeps)
    ensures report.scriptDirFixes == ScriptDirFixesOf(PublicFunctions(src.tree), a.fnDeps, src.lines)
    ensures report.sharedHelperNames == KeyList(a.sharedNodes)
    ensures report.subprocessRefs == old(report.subprocessRefs)
  {
    var helpersDir := WriteHelpers(src, a.sharedNodes, a.nameRefs, Constants(src.tree), a.imports, a.table);
    files := WritePackage(src, PublicFunctions(src.tree), a.fnDeps, a.shared, a.nameRefs, a.imports, a.table, report, helpersDir);
    report.sharedHelperNames := KeyList(a.sharedNodes);
  }

  /**
   * `stub`: a module with at most one public function is left alone;
   * otherwise the package is the helpers file, one file per public function,
   * `__init__.py` and, with a `main`, `__main__.py`, and the report lists the
   * cross-imports, the moved helpers, the SCRIPT_DIR rewrites and the
   * functions that run the original script.
   */
  method Stub(src: Source) returns (outcome: StubOutcome, report: StubReport?)
    ensures outcome.NothingToStub? <==> |PublicFunctions(src.tree)| <= 1
    ensures outcome.NothingToStub? ==> outcome.publicCount == |PublicFunctions(src.tree)| && report == null
    ensures outcome.Package? ==> report != null && fresh(report) && outcome.files == PackageSpec(src)
    ensures outcome.Package? ==> report != null && report.crossImports == CrossImportsOf(PublicFunctions(src.tree), DepsTable(src))
    ensures outcome.Package? ==> report != null && report.scriptDirFixes == ScriptDirFixesOf(PublicFunctions(src.tree), DepsTable(src), src.lines)
    ensures outcome.Package? ==> report != null && report.sharedHelperNames == KeyList(SharedNodesOf(src))
    ensures outcome.Package? ==> report != null && report.subprocessRefs == SubprocessSpec(src)
  {
    var pub := PublicFunctions(src.tree);
    if |pub| <= 1 {
      return NothingToStub(|pub|), null;
    }
    report := new StubReport();
    var files := WriteFiles(src, report);
    FindSubprocessRefs(pub, src.lines, Stem(src.baseName), report);
    outcome := Package(files);
  }
}
