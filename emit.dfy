/**
 * The text of the files the decomposer writes, as lists of pieces that are
 * joined with `''.join`: verbatim slices of the source for nodes, comment
 * headers, sibling and helper import lines, and the `__init__.py` and
 * `__main__.py` bodies.
 */
module Emit {
  import opened Wrappers
  import opened Text
  import opened PyAst
  import opened ScriptDir

  // ---------------------------------------------------------------------
  // Verbatim source of a node
  // ---------------------------------------------------------------------

  /** `lines[start:end]` for `start >= 0`: both bounds clamped to the list, empty when they cross. */
  function Slice(lines: seq<string>, start: nat, end: int): (r: seq<string>)
    ensures start <= end <= |lines| ==> r == lines[start..end]
    ensures end <= start || |lines| <= start ==> r == []
  {
    var lo := if start < |lines| then start else |lines|;
    var hi := if end < |lines| then end else |lines|;
    if hi <= lo then [] else lines[lo..hi]
  }

  /** `_node_source`: the lines `lineno` to `end_lineno` (1-based, inclusive) of the source, joined. */
  function NodeSource(node: Stmt, lines: seq<string>): string
  {
    Concat(Slice(lines, node.lineno - 1, node.endLineno))
  }

  /** A node inside the file is cut out of it verbatim: the text before it, its source and the text after it make up the whole file. */
  lemma NodeSourceVerbatim(node: Stmt, lines: seq<string>)
    requires node.lineno <= node.endLineno <= |lines|
    ensures Concat(lines) ==
      Concat(lines[..node.lineno - 1]) + NodeSource(node, lines) + Concat(lines[node.endLineno..])
  {
    ConcatSplit(lines, node.lineno - 1, node.endLineno);
  }

  /** Joining the lines is joining the lines before `lo`, those from `lo` to `hi` and those after. */
  lemma ConcatSplit(lines: seq<string>, lo: nat, hi: nat)
    requires lo <= hi <= |lines|
    ensures Concat(lines) == Concat(lines[..lo]) + Concat(lines[lo..hi]) + Concat(lines[hi..])
  {
    var front := lines[..hi];
    assert lines == front + lines[hi..];
    assert front == lines[..lo] + lines[lo..hi];
    ConcatAppend(front, lines[hi..]);
    ConcatAppend(lines[..lo], lines[lo..hi]);
  }

  /** `[_node_source(n, lines) for n in nodes]`. */
  function Sources(nodes: seq<Stmt>, lines: seq<string>): (r: seq<string>)
    ensures |r| == |nodes|
    ensures forall i :: 0 <= i < |nodes| ==> r[i] == NodeSource(nodes[i], lines)
  {
    if nodes == [] then [] else Sources(nodes[..|nodes| - 1], lines) + [NodeSource(nodes[|nodes| - 1], lines)]
  }

  /** `[_fix_script_dir_depth(_node_source(c, lines)) for c in constants]`. */
  function FixedSources(constants: seq<Stmt>, lines: seq<string>): (r: seq<string>)
    ensures |r| == |constants|
    ensures forall i :: 0 <= i < |constants| ==> r[i] == FixScriptDirDepth(NodeSource(constants[i], lines))
  {
    if constants == [] then []
    else FixedSources(constants[..|constants| - 1], lines) + [FixScriptDirDepth(NodeSource(constants[|constants| - 1], lines))]
  }

  // ---------------------------------------------------------------------
  // Pieces of an emitted file
  // ---------------------------------------------------------------------

  /** `if module_doc:` — a docstring that is present and not empty. */
  predicate HasDoc(doc: Option<string>)
  {
    doc.Some? && doc.value != ""
  }

  /** `module_doc.split('\n')[0]`. */
  function FirstLine(doc: string): (r: string)
    ensures StartsWith(doc, r) && '\n' !in r
    ensures r == doc || doc[|r|] == '\n'
  {
    PrefixBefore(doc, '\n')
  }

  const FunctionHeader: string := "# From: "
  const HelpersHeader: string := "# Shared helpers from: "

  /** The comment naming the original file and the first docstring line (if any), then a blank line. */
  function Header(prefix: string, baseName: string, doc: Option<string>): (r: seq<string>)
    ensures |r| >= 1 && r[|r| - 1] == "\n"
    ensures |r| == 2 <==> HasDoc(doc)
  {
    (if HasDoc(doc) then [prefix + baseName + " \U{2014} " + FirstLine(doc.value) + "\n"] else []) + ["\n"]
  }

  /** A group of pieces followed by a blank line, or nothing when the group is empty. */
  function Block(xs: seq<string>): (r: seq<string>)
    ensures xs == [] ==> r == []
    ensures xs != [] ==> |r| == |xs| + 1 && r[..|xs|] == xs && r[|xs|] == "\n"
  {
    if xs == [] then [] else xs + ["\n"]
  }

  /** Each source preceded by a blank line. */
  function Spaced(xs: seq<string>): (r: seq<string>)
    ensures |r| == 2 * |xs|
    ensures forall i :: 0 <= i < |xs| ==> r[2 * i] == "\n" && r[2 * i + 1] == xs[i]
  {
    if xs == [] then [] else Spaced(xs[..|xs| - 1]) + ["\n", xs[|xs| - 1]]
  }

  /** `from .{name} import {name}`: a cross-import of a sibling, and a re-export in `__init__.py`. */
  function ReexportLine(name: string): string
  {
    "from ." + name + " import " + name + "\n"
  }

  function ReexportLines(names: seq<string>): (r: seq<string>)
    ensures |r| == |names| && forall i :: 0 <= i < |names| ==> r[i] == ReexportLine(names[i])
  {
    if names == [] then [] else ReexportLines(names[..|names| - 1]) + [ReexportLine(names[|names| - 1])]
  }

  /** Different names give different re-export lines: each sibling is imported under its own name. */
  lemma ReexportLineInjective(a: string, b: string)
    ensures ReexportLine(a) == ReexportLine(b) ==> a == b
  {
    if ReexportLine(a) == ReexportLine(b) {
      var la, lb := ReexportLine(a), ReexportLine(b);
      assert |la| == 2 * |a| + 15 && |lb| == 2 * |b| + 15;
      assert a == la[6..6 + |a|] && b == lb[6..6 + |b|];
    }
  }

  /** `from ._helpers import a, b, c` for the already sorted names. */
  function HelperImportLine(names: seq<string>): string
  {
    "from ._helpers import " + Join(", ", names) + "\n"
  }

  // ---------------------------------------------------------------------
  // Whole files, before the blank-run collapse
  // ---------------------------------------------------------------------

  /**
   * The pieces of `<fname>.py` in the order `stub` appends them: header,
   * external imports, sibling cross-imports (sorted), the import from
   * `_helpers` (sorted), constants with the SCRIPT_DIR rewrite, colocated
   * helpers and finally the function itself.
   */
  ghost function FunctionFileLines(
    fn: Stmt, lines: seq<string>, doc: Option<string>, baseName: string,
    neededImports: seq<Stmt>, siblings: set<string>, importedHelpers: seq<string>,
    constants: seq<Stmt>, colocated: seq<Stmt>): seq<string>
  {
    Header(FunctionHeader, baseName, doc)
    + Block(Sources(neededImports, lines))
    + Block(ReexportLines(SortedSet(siblings)))
    + Block(if importedHelpers == [] then [] else [HelperImportLine(SortStrings(importedHelpers))])
    + Block(FixedSources(constants, lines))
    + Block(Spaced(Sources(colocated, lines)))
    + ["\n", NodeSource(fn, lines)]
  }

  /**
   * Everything a function file needs is in it: each kept import verbatim,
   * an import line per sibling, the `_helpers` import naming every imported
   * helper, each constant (SCRIPT_DIR-adjusted) and each colocated helper
   * verbatim, and the function's own source, verbatim, as the last piece.
   */
  lemma FunctionFileContents(
    fn: Stmt, lines: seq<string>, doc: Option<string>, baseName: string,
    neededImports: seq<Stmt>, siblings: set<string>, importedHelpers: seq<string>,
    constants: seq<Stmt>, colocated: seq<Stmt>)
    ensures var parts := FunctionFileLines(fn, lines, doc, baseName, neededImports, siblings, importedHelpers, constants, colocated);
      && parts[|parts| - 1] == NodeSource(fn, lines)
      && (forall imp :: imp in neededImports ==> NodeSource(imp, lines) in parts)
      && (forall s :: s in siblings ==> ReexportLine(s) in parts)
      && (importedHelpers != [] ==> HelperImportLine(SortStrings(importedHelpers)) in parts)
      && (forall h :: h in importedHelpers ==> h in SortStrings(importedHelpers))
      && (forall c :: c in constants ==> FixScriptDirDepth(NodeSource(c, lines)) in parts)
      && (forall p :: p in colocated ==> NodeSource(p, lines) in parts)
  {
    SourcesInBlock(neededImports, lines);
    ReexportsInBlock(SortedSet(siblings));
    FixedSourcesInBlock(constants, lines);
    SpacedSourcesInBlock(colocated, lines);
    forall h | h in importedHelpers ensures h in SortStrings(importedHelpers) {
      assert h in multiset(importedHelpers);
    }
    if importedHelpers != [] {
      assert HelperImportLine(SortStrings(importedHelpers)) in Block([HelperImportLine(SortStrings(importedHelpers))]);
    }
  }

  lemma SourcesInBlock(nodes: seq<Stmt>, lines: seq<string>)
    ensures forall n :: n in nodes ==> NodeSource(n, lines) in Block(Sources(nodes, lines))
  {
    forall n | n in nodes ensures NodeSource(n, lines) in Block(Sources(nodes, lines)) {
      var i :| 0 <= i < |nodes| && nodes[i] == n;
      assert Block(Sources(nodes, lines))[i] == NodeSource(n, lines);
    }
  }

  lemma FixedSourcesInBlock(nodes: seq<Stmt>, lines: seq<string>)
    ensures forall n :: n in nodes ==> FixScriptDirDepth(NodeSource(n, lines)) in Block(FixedSources(nodes, lines))
  {
    forall n | n in nodes ensures FixScriptDirDepth(NodeSource(n, lines)) in Block(FixedSources(nodes, lines)) {
      var i :| 0 <= i < |nodes| && nodes[i] == n;
      assert Block(FixedSources(nodes, lines))[i] == FixScriptDirDepth(NodeSource(n, lines));
    }
  }

  lemma ReexportsInBlock(names: seq<string>)
    ensures forall s :: s in names ==> ReexportLine(s) in Block(ReexportLines(names))
  {
    forall s | s in names ensures ReexportLine(s) in Block(ReexportLines(names)) {
      var i :| 0 <= i < |names| && names[i] == s;
      assert Block(ReexportLines(names))[i] == ReexportLine(s);
    }
  }

  lemma SpacedSourcesInBlock(nodes: seq<Stmt>, lines: seq<string>)
    ensures forall n :: n in nodes ==> NodeSource(n, lines) in Spaced(Sources(nodes, lines))
    ensures forall n :: n in nodes ==> NodeSource(n, lines) in Block(Spaced(Sources(nodes, lines)))
  {
    var xs := Sources(nodes, lines);
    forall n | n in nodes ensures NodeSource(n, lines) in xs {
      var i :| 0 <= i < |nodes| && nodes[i] == n;
      assert xs[i] == NodeSource(n, lines);
    }
    SpacedKeeps(xs);
    BlockKeeps(Spaced(xs));
  }

  /** Every piece survives `Spaced`. */
  lemma SpacedKeeps(xs: seq<string>)
    ensures forall x :: x in xs ==> x in Spaced(xs)
  {
    forall x | x in xs ensures x in Spaced(xs) {
      var i :| 0 <= i < |xs| && xs[i] == x;
      assert Spaced(xs)[2 * i + 1] == x;
    }
  }

  /** Every piece survives `Block`. */
  lemma BlockKeeps(xs: seq<string>)
    ensures forall x :: x in xs ==> x in Block(xs)
  {
    if xs != [] {
      assert Block(xs)[..|xs|] == xs;
    }
  }

  /**
   * The pieces of `_helpers.py`: header, the imports and constants the shared
   * helpers need, then each shared helper after a blank line.
   */
  ghost function HelpersFileLines(
    lines: seq<string>, doc: Option<string>, baseName: string,
    neededImports: seq<Stmt>, constants: seq<Stmt>, shared: seq<Stmt>): seq<string>
  {
    Header(HelpersHeader, baseName, doc)
    + Block(Sources(neededImports, lines))
    + Block(FixedSources(constants, lines))
    + Spaced(Sources(shared, lines))
  }

  /** Every shared helper is defined, verbatim, in `_helpers.py`, with the imports and constants it needs. */
  lemma HelpersFileContents(
    lines: seq<string>, doc: Option<string>, baseName: string,
    neededImports: seq<Stmt>, constants: seq<Stmt>, shared: seq<Stmt>)
    ensures var parts := HelpersFileLines(lines, doc, baseName, neededImports, constants, shared);
      && (forall h :: h in shared ==> NodeSource(h, lines) in parts)
      && (forall imp :: imp in neededImports ==> NodeSource(imp, lines) in parts)
      && (forall c :: c in constants ==> FixScriptDirDepth(NodeSource(c, lines)) in parts)
  {
    SourcesInBlock(neededImports, lines);
    FixedSourcesInBlock(constants, lines);
    SpacedSourcesInBlock(shared, lines);
  }

  // ---------------------------------------------------------------------
  // __init__.py and __main__.py
  // ---------------------------------------------------------------------

  /** `repr` of a list of identifiers: `['a', 'b']`. */
  function NameListRepr(names: seq<string>): string
  {
    "[" + Join(", ", Quoted(names)) + "]"
  }

  function Quoted(names: seq<string>): (r: seq<string>)
    ensures |r| == |names| && forall i :: 0 <= i < |names| ==> r[i] == "'" + names[i] + "'"
  {
    if names == [] then [] else Quoted(names[..|names| - 1]) + ["'" + names[|names| - 1] + "'"]
  }

  /** The pieces of `__init__.py`: the docstring, one re-export per public function, and `__all__`. */
  function InitFileLines(doc: Option<string>, pubNames: seq<string>): (r: seq<string>)
    ensures |r| == |pubNames| + 1 + (if HasDoc(doc) then 1 else 0)
    ensures forall i :: 0 <= i < |pubNames| ==> r[|r| - 1 - |pubNames| + i] == ReexportLine(pubNames[i])
    ensures r[|r| - 1] == "\n__all__ = " + NameListRepr(pubNames) + "\n"
    ensures HasDoc(doc) ==> r[0] == "\"\"\"" + doc.value + "\"\"\"\n\n"
  {
    (if HasDoc(doc) then ["\"\"\"" + doc.value + "\"\"\"\n\n"] else [])
    + ReexportLines(pubNames)
    + ["\n__all__ = " + NameListRepr(pubNames) + "\n"]
  }

  /** The text of `__main__.py`, which runs the package's `main`. */
  function MainFile(pkgName: string): (r: string)
    ensures Contains(r, "from " + pkgName + " import main\n")
    ensures EndsWith(r, "main()\n")
  {
    var header := "\"\"\"python3 -m " + pkgName + " \U{2014} run the module.\"\"\"\n";
    var imp := "from " + pkgName + " import main\n";
    var r := header + "\n" + imp + "\n" + "main()\n";
    assert OccursAt(r, imp, |header| + 1);
    r
  }

  // ---------------------------------------------------------------------
  // The original module's name
  // ---------------------------------------------------------------------

  /** The position of the last `.` in `s`, or -1. */
  function LastDot(s: string): (r: int)
    ensures -1 <= r < |s|
    ensures r >= 0 ==> s[r] == '.'
    ensures forall k :: r < k < |s| ==> s[k] != '.'
  {
    if s == [] then -1
    else if s[|s| - 1] == '.' then |s| - 1
    else LastDot(s[..|s| - 1])
  }

  /**
   * `os.path.splitext(basename)[0]`: the name without its extension. The
   * extension starts at the last dot, unless only dots precede it (a name
   * like `.bashrc` has no extension).
   */
  function Stem(baseName: string): (r: string)
    ensures StartsWith(baseName, r)
    ensures r == baseName <==> forall d, k :: 0 <= k < d < |baseName| && baseName[d] == '.' ==> baseName[k] == '.'
    ensures r != baseName ==>
              && baseName[|r|] == '.'
              && (forall k :: |r| < k < |baseName| ==> baseName[k] != '.')
              && (exists k :: 0 <= k < |r| && baseName[k] != '.')
  {
    var d := LastDot(baseName);
    if d > 0 && exists k | 0 <= k < d :: baseName[k] != '.' then baseName[..d] else baseName
  }

  /** Cutting the extension off a file name gives back the name it was made from. */
  lemma StemOfFileName(stem: string, ext: string, k: nat)
    requires '.' !in ext
    requires k < |stem| && stem[k] != '.'
    ensures Stem(stem + "." + ext) == stem
  {
    var name := stem + "." + ext;
    assert name[|stem|] == '.';
    assert LastDot(name) == |stem| by {
      assert forall j :: |stem| < j < |name| ==> name[j] == ext[j - |stem| - 1];
    }
    assert name[k] == stem[k];
    assert name[..|stem|] == stem;
  }

  /**
   * A public function's source refers to the original script by name: it
   * mentions `sys.executable` and the script's name, or runs
   * `python3 <name>` / `python <name>`.
   */
  predicate RunsOriginal(src: string, stem: string)
  {
    (Contains(src, "sys.executable") && Contains(src, stem))
    || Contains(src, "python3 " + stem) || Contains(src, "python " + stem)
  }
}
