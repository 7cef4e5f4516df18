/**
 * What the package `stub` writes guarantees about the module it came from:
 * which files exist, what each function file holds, where every helper a
 * public function needs ends up, and what each report list names.
 */
module StubTheorems {
  import opened Text
  import opened PyAst
  import opened NameRefs
  import opened ImportNames
  import opened Closure
  import opened ScriptDir
  import opened BlankRuns
  import opened Emit
  import opened Dependencies
  import opened Stub

  // ---------------------------------------------------------------------
  // The report lists
  // ---------------------------------------------------------------------

  /** A pair is a cross-import exactly when its consumer is one of `fns` and its sibling is recorded for it. */
  lemma {:induction false} CrossImportsMembers(fns: seq<Stmt>, fnDeps: map<string, FnDeps>, c: string, s: string)
    requires Keys(fns) <= fnDeps.Keys
    ensures (c, s) in CrossImportsOf(fns, fnDeps) <==>
      exists f :: f in fns && Key(f) == c && Key(f) in fnDeps && s in fnDeps[Key(f)].siblingRefs
    decreases |fns|
  {
    if fns != [] {
      var init := fns[..|fns| - 1];
      var f := fns[|fns| - 1];
      assert fns == init + [f];
      assert Key(f) in Keys(fns);
      assert Keys(init) <= Keys(fns);
      CrossImportsMembers(init, fnDeps, c, s);
      CrossPairsMembers(Key(f), SortedSet(fnDeps[Key(f)].siblingRefs), c, s);
      if exists g :: g in fns && Key(g) == c && Key(g) in fnDeps && s in fnDeps[Key(g)].siblingRefs {
        var g :| g in fns && Key(g) == c && Key(g) in fnDeps && s in fnDeps[Key(g)].siblingRefs;
        if g != f {
          assert g in init;
        }
      }
    }
  }

  lemma CrossPairsMembers(fname: string, sibs: seq<string>, c: string, s: string)
    ensures (c, s) in CrossPairs(fname, sibs) <==> c == fname && s in sibs
  {
    var pairs := CrossPairs(fname, sibs);
    if (c, s) in pairs {
      var i :| 0 <= i < |pairs| && pairs[i] == (c, s);
    }
    if c == fname && s in sibs {
      var i :| 0 <= i < |sibs| && sibs[i] == s;
      assert pairs[i] == (c, s);
    }
  }

  /**
   * A function is named in the SCRIPT_DIR report exactly when it is one of
   * `fns` and one of its constants holds the idiom.
   */
  lemma {:induction false} ScriptDirFixesMembers(fns: seq<Stmt>, fnDeps: map<string, FnDeps>, lines: seq<string>, name: string)
    requires Keys(fns) <= fnDeps.Keys
    ensures name in ScriptDirFixesOf(fns, fnDeps, lines) <==>
      exists f, c :: f in fns && Key(f) == name && Key(f) in fnDeps && c in fnDeps[Key(f)].constants && HasIdiom(NodeSource(c, lines))
    decreases |fns|
  {
    if fns != [] {
      var init := fns[..|fns| - 1];
      var f := fns[|fns| - 1];
      assert fns == init + [f];
      assert Key(f) in Keys(fns);
      assert Keys(init) <= Keys(fns);
      ScriptDirFixesMembers(init, fnDeps, lines, name);
      var entries := FixEntries(Key(f), fnDeps[Key(f)].constants, lines);
      FixEntriesNonEmpty(Key(f), fnDeps[Key(f)].constants, lines);
      assert name in entries ==> name == Key(f);
      assert entries != [] ==> entries[0] in entries;
      if exists g, c :: g in fns && Key(g) == name && Key(g) in fnDeps && c in fnDeps[Key(g)].constants && HasIdiom(NodeSource(c, lines)) {
        var g, c :| g in fns && Key(g) == name && Key(g) in fnDeps && c in fnDeps[Key(g)].constants && HasIdiom(NodeSource(c, lines));
        if g != f {
          assert g in init;
        }
      }
    }
  }

  /** A function is reported as running the original script exactly when one of that name refers to it. */
  lemma SubprocessMembers(src: Source, name: string)
    ensures name in SubprocessSpec(src) <==>
      exists f :: f in PublicFunctions(src.tree) && Key(f) == name && RunsOriginal(NodeSource(f, src.lines), Stem(src.baseName))
  {
    MatchingMembers(PublicFunctions(src.tree), f => RunsOriginalScript(src.lines, Stem(src.baseName), f), name);
  }

  // ---------------------------------------------------------------------
  // The function files
  // ---------------------------------------------------------------------

  /** Appending the same suffix to two different names gives two different file names. */
  lemma SuffixInjective(a: string, b: string, ext: string)
    ensures a + ext == b + ext <==> a == b
  {
    if a + ext == b + ext {
      assert |a| == |b|;
      assert forall i :: 0 <= i < |a| ==> a[i] == (a + ext)[i] == (b + ext)[i] == b[i];
    }
  }

  /** The output directory after writing `texts[i]` to `names[i]` for each `i` in order; a later write replaces an earlier one. */
  ghost function Written(files: map<string, string>, names: seq<string>, texts: seq<string>): map<string, string>
    requires |names| == |texts|
  {
    if names == [] then files
    else
      Written(files, names[..|names| - 1], texts[..|texts| - 1])[names[|names| - 1] := texts[|texts| - 1]]
  }

  /** The file names pass 2 writes for `fns`: `<name>.py`, in order. */
  function FileNames(fns: seq<Stmt>): (r: seq<string>)
    ensures |r| == |fns|
  {
    seq(|fns|, i requires 0 <= i < |fns| => Key(fns[i]) + ".py")
  }

  lemma FileNamesSnoc(fns: seq<Stmt>)
    requires fns != []
    ensures FileNames(fns) == FileNames(fns[..|fns| - 1]) + [Key(fns[|fns| - 1]) + ".py"]
  {
  }

  /** The texts pass 2 writes for `fns`, in order. */
  ghost function FileTexts(src: Source, fns: seq<Stmt>, fnDeps: map<string, FnDeps>, shared: set<string>,
                           nameRefs: map<string, set<string>>, imports: seq<Stmt>, table: seq<set<string>>): (r: seq<string>)
    requires IsProvidedTable(imports, table) && Keys(fns) <= fnDeps.Keys
    ensures |r| == |fns|
  {
    if fns == [] then []
    else
      var f := fns[|fns| - 1];
      assert Key(f) in Keys(fns);
      assert Keys(fns[..|fns| - 1]) <= Keys(fns);
      FileTexts(src, fns[..|fns| - 1], fnDeps, shared, nameRefs, imports, table)
        + [FunctionFileText(src, f, fnDeps[Key(f)], shared, nameRefs, imports, table)]
  }

  /** Pass 2 writes the file of each function of `fns` in order. */
  lemma {:induction false} FunctionFilesWritten(src: Source, fns: seq<Stmt>, fnDeps: map<string, FnDeps>, shared: set<string>,
                                                nameRefs: map<string, set<string>>, imports: seq<Stmt>, table: seq<set<string>>,
                                                files: map<string, string>)
    requires IsProvidedTable(imports, table) && Keys(fns) <= fnDeps.Keys
    ensures FunctionFiles(src, fns, fnDeps, shared, nameRefs, imports, table, files) ==
      Written(files, FileNames(fns), FileTexts(src, fns, fnDeps, shared, nameRefs, imports, table))
    decreases |fns|
  {
    if fns != [] {
      var init := fns[..|fns| - 1];
      assert Keys(init) <= Keys(fns) by {
        assert forall n :: n in init ==> n in fns;
      }
      FunctionFilesWritten(src, init, fnDeps, shared, nameRefs, imports, table, files);
      var f := fns[|fns| - 1];
      assert Key(f) in Keys(fns);
      var t := FunctionFileText(src, f, fnDeps[Key(f)], shared, nameRefs, imports, table);
      var ts0 := FileTexts(src, init, fnDeps, shared, nameRefs, imports, table);
      assert FileTexts(src, fns, fnDeps, shared, nameRefs, imports, table) == ts0 + [t];
      FileNamesSnoc(fns);
      WrittenSnoc(files, FileNames(init), ts0, Key(f) + ".py", t);
      assert FunctionFiles(src, fns, fnDeps, shared, nameRefs, imports, table, files) ==
        FunctionFiles(src, init, fnDeps, shared, nameRefs, imports, table, files)[Key(f) + ".py" := t];
    }
  }

  /** Text `i` of pass 2 is the file of `fns[i]`. */
  lemma {:induction false} FileTextsAt(src: Source, fns: seq<Stmt>, fnDeps: map<string, FnDeps>, shared: set<string>,
                                       nameRefs: map<string, set<string>>, imports: seq<Stmt>, table: seq<set<string>>, i: nat)
    requires IsProvidedTable(imports, table) && Keys(fns) <= fnDeps.Keys && i < |fns|
    ensures Key(fns[i]) in fnDeps
    ensures FileTexts(src, fns, fnDeps, shared, nameRefs, imports, table)[i] ==
      FunctionFileText(src, fns[i], fnDeps[Key(fns[i])], shared, nameRefs, imports, table)
    decreases |fns|
  {
    assert fns[i] in fns;
    var init := fns[..|fns| - 1];
    var f := fns[|fns| - 1];
    assert Key(f) in Keys(fns);
    assert Keys(init) <= Keys(fns) by {
      assert forall n :: n in init ==> n in fns;
    }
    var t := FunctionFileText(src, f, fnDeps[Key(f)], shared, nameRefs, imports, table);
    var ts0 := FileTexts(src, init, fnDeps, shared, nameRefs, imports, table);
    assert FileTexts(src, fns, fnDeps, shared, nameRefs, imports, table) == ts0 + [t];
    if i < |fns| - 1 {
      assert init[i] == fns[i];
      FileTextsAt(src, init, fnDeps, shared, nameRefs, imports, table, i);
      assert (ts0 + [t])[i] == ts0[i];
    }
  }

  /** Each text pass 2 writes went through the collapse. */
  lemma FileTextsCollapsed(src: Source, fns: seq<Stmt>, fnDeps: map<string, FnDeps>, shared: set<string>,
                           nameRefs: map<string, set<string>>, imports: seq<Stmt>, table: seq<set<string>>, t: string)
    requires IsProvidedTable(imports, table) && Keys(fns) <= fnDeps.Keys
    requires t in FileTexts(src, fns, fnDeps, shared, nameRefs, imports, table)
    ensures !Contains(t, FourNewlines)
  {
    var ts := FileTexts(src, fns, fnDeps, shared, nameRefs, imports, table);
    var i :| 0 <= i < |ts| && ts[i] == t;
    FileTextsAt(src, fns, fnDeps, shared, nameRefs, imports, table, i);
  }

  lemma WrittenSnoc(files: map<string, string>, names: seq<string>, texts: seq<string>, n: string, t: string)
    requires |names| == |texts|
    ensures Written(files, names + [n], texts + [t]) == Written(files, names, texts)[n := t]
  {
    assert (names + [n])[..|names|] == names;
    assert (texts + [t])[..|texts|] == texts;
  }

  /** After the writes, the files are those already there and those written. */
  lemma {:induction false} WrittenKeys(files: map<string, string>, names: seq<string>, texts: seq<string>, k: string)
    requires |names| == |texts|
    ensures k in Written(files, names, texts) <==> k in files || k in names
    decreases |names|
  {
    if names != [] {
      var init := names[..|names| - 1];
      WrittenKeys(files, init, texts[..|texts| - 1], k);
      assert names == init + [names[|names| - 1]];
    }
  }

  /** A file written last gets the text written to it. */
  lemma {:induction false} WrittenLastWins(files: map<string, string>, names: seq<string>, texts: seq<string>, i: nat)
    requires |names| == |texts|
    requires i < |names| && forall j :: i < j < |names| ==> names[j] != names[i]
    ensures names[i] in Written(files, names, texts) && Written(files, names, texts)[names[i]] == texts[i]
    decreases |names|
  {
    var init := names[..|names| - 1];
    if i < |init| {
      assert init[i] == names[i];
      WrittenLastWins(files, init, texts[..|texts| - 1], i);
    }
  }

  /** A file never written to keeps its text. */
  lemma {:induction false} WrittenKeep(files: map<string, string>, names: seq<string>, texts: seq<string>, k: string)
    requires |names| == |texts|
    requires k in files && k !in names
    ensures k in Written(files, names, texts) && Written(files, names, texts)[k] == files[k]
    decreases |names|
  {
    if names != [] {
      var init := names[..|names| - 1];
      assert forall x :: x in init ==> x in names;
      WrittenKeep(files, init, texts[..|texts| - 1], k);
    }
  }

  /** Every file after the writes holds the text it had before or one of the texts written. */
  lemma {:induction false} WrittenValues(files: map<string, string>, names: seq<string>, texts: seq<string>, k: string)
    requires |names| == |texts|
    requires k in Written(files, names, texts)
    ensures (k in files && Written(files, names, texts)[k] == files[k]) || Written(files, names, texts)[k] in texts
    decreases |names|
  {
    if names != [] {
      var init := names[..|names| - 1];
      var ts := texts[..|texts| - 1];
      if k != names[|names| - 1] {
        WrittenValues(files, init, ts, k);
        assert forall x :: x in ts ==> x in texts;
      }
    }
  }

  // ---------------------------------------------------------------------
  // The package
  // ---------------------------------------------------------------------

  /** The texts pass 2 writes for the module. */
  ghost function PassTwoTexts(src: Source, a: Analysis): seq<string>
    requires Consistent(src, a)
  {
    FileTexts(src, PublicFunctions(src.tree), a.fnDeps, a.shared, a.nameRefs, a.imports, a.table)
  }

  /** The output directory before pass 2: `_helpers.py` when some helper is shared, else nothing. */
  ghost function HelpersDir(src: Source, a: Analysis): map<string, string>
    requires Consistent(src, a)
  {
    HelpersDirFrom(src, a.sharedNodes, a.nameRefs, Constants(src.tree), a.imports, a.table)
  }

  /** The package is `_helpers.py`, then the function files written in order, then `__init__.py` and `__main__.py`. */
  lemma PackageShape(src: Source, a: Analysis)
    requires Consistent(src, a)
    ensures |FileNames(PublicFunctions(src.tree))| == |PassTwoTexts(src, a)|
    ensures PackageOf(src, a) ==
      WithInitAndMain(src, KeyList(PublicFunctions(src.tree)),
                      Written(HelpersDir(src, a), FileNames(PublicFunctions(src.tree)), PassTwoTexts(src, a)))
  {
    FunctionFilesWritten(src, PublicFunctions(src.tree), a.fnDeps, a.shared, a.nameRefs, a.imports, a.table, HelpersDir(src, a));
  }

  /** `_helpers.py` is the only file that can be there before pass 2, and it is there exactly when some helper is shared. */
  lemma HelpersDirKeys(src: Source, a: Analysis, k: string)
    requires Consistent(src, a)
    ensures k in HelpersDir(src, a) <==> k == "_helpers.py" && a.sharedNodes != []
    ensures k in HelpersDir(src, a) ==> !Contains(HelpersDir(src, a)[k], FourNewlines)
    ensures k in HelpersDir(src, a) ==>
      HelpersDir(src, a)[k] == Collapse(Concat(HelpersFilePieces(src, a.sharedNodes, a.nameRefs, Constants(src.tree), a.imports, a.table)))
  {
  }

  /** `__init__.py` and, with a `main`, `__main__.py` are added to the files already there. */
  lemma InitAndMainNames(src: Source, pubNames: seq<string>, files: map<string, string>, k: string)
    ensures k in WithInitAndMain(src, pubNames, files) <==>
      k == "__init__.py" || (k == "__main__.py" && "main" in pubNames) || k in files
  {
  }

  /** `__init__.py` re-exports the public functions; `__main__.py` runs `main`; every other file is left as it was. */
  lemma InitAndMainValues(src: Source, pubNames: seq<string>, files: map<string, string>, k: string)
    ensures var out := WithInitAndMain(src, pubNames, files);
      && "__init__.py" in out && out["__init__.py"] == Concat(InitFileLines(src.doc, pubNames))
      && ("main" in pubNames ==> "__main__.py" in out && out["__main__.py"] == MainFile(Stem(src.baseName)))
      && (k in files && k != "__init__.py" && k != "__main__.py" ==> k in out && out[k] == files[k])
  {
    var withInit := files["__init__.py" := Concat(InitFileLines(src.doc, pubNames))];
    assert "__init__.py"[2] != "__main__.py"[2];
    if "main" in pubNames {
      assert WithInitAndMain(src, pubNames, files) == withInit["__main__.py" := MainFile(Stem(src.baseName))];
    } else {
      assert WithInitAndMain(src, pubNames, files) == withInit;
    }
  }

  /** Distinct function names give distinct file names. */
  lemma LaterNamesDiffer(pub: seq<Stmt>, i: nat)
    requires i < |pub| && forall j :: i < j < |pub| ==> Key(pub[j]) != Key(pub[i])
    ensures forall j :: i < j < |FileNames(pub)| ==> FileNames(pub)[j] != FileNames(pub)[i]
  {
    forall j | i < j < |pub| ensures FileNames(pub)[j] != FileNames(pub)[i] {
      SuffixInjective(Key(pub[j]), Key(pub[i]), ".py");
    }
  }

  /** A public function's file name is none of the package's fixed file names, which all start with an underscore. */
  lemma PublicFileName(f: Stmt)
    requires IsPublicFunction(f)
    ensures Key(f) + ".py" != "__init__.py" && Key(f) + ".py" != "__main__.py" && Key(f) + ".py" != "_helpers.py"
  {
    var n := Key(f);
    assert n == f.name;
    assert |n| == 0 || n[0] != '_';
    assert (n + ".py")[0] != '_';
  }

  /** The file names of public functions: `<name>.py` for each, and never a fixed file name. */
  lemma PublicFileNames(pub: seq<Stmt>, k: string)
    requires forall f :: f in pub ==> IsPublicFunction(f)
    ensures k in FileNames(pub) <==> exists f :: f in pub && k == Key(f) + ".py"
    ensures "__init__.py" !in FileNames(pub) && "__main__.py" !in FileNames(pub) && "_helpers.py" !in FileNames(pub)
  {
    var names := FileNames(pub);
    forall i | 0 <= i < |names| ensures names[i] != "__init__.py" && names[i] != "__main__.py" && names[i] != "_helpers.py" {
      assert pub[i] in pub;
      PublicFileName(pub[i]);
    }
    if k in names {
      var i :| 0 <= i < |names| && names[i] == k;
      assert pub[i] in pub;
    }
    if exists f :: f in pub && k == Key(f) + ".py" {
      var f :| f in pub && k == Key(f) + ".py";
      var i :| 0 <= i < |pub| && pub[i] == f;
      assert names[i] == k;
    }
  }

  /**
   * The files of the package: `__init__.py`, `__main__.py` exactly when a
   * public function is called `main`, `_helpers.py` exactly when some helper
   * is shared, and `<name>.py` for each public function.
   */
  lemma PackageFileNames(src: Source, a: Analysis, k: string)
    requires Consistent(src, a)
    ensures k in PackageOf(src, a) <==>
      || k == "__init__.py"
      || (k == "__main__.py" && "main" in KeyList(PublicFunctions(src.tree)))
      || (k == "_helpers.py" && a.sharedNodes != [])
      || exists f :: f in PublicFunctions(src.tree) && k == Key(f) + ".py"
  {
    var pub := PublicFunctions(src.tree);
    PackageShape(src, a);
    var w := Written(HelpersDir(src, a), FileNames(pub), PassTwoTexts(src, a));
    InitAndMainNames(src, KeyList(pub), w, k);
    WrittenKeys(HelpersDir(src, a), FileNames(pub), PassTwoTexts(src, a), k);
    HelpersDirKeys(src, a, k);
    PublicFileNames(pub, k);
  }

  /** `__init__.py` re-exports every public function; `__main__.py`, when written, runs the package's `main`. */
  lemma PackageInitAndMain(src: Source, a: Analysis)
    requires Consistent(src, a)
    ensures var pkg := PackageOf(src, a);
      && "__init__.py" in pkg
      && pkg["__init__.py"] == Concat(InitFileLines(src.doc, KeyList(PublicFunctions(src.tree))))
      && ("main" in KeyList(PublicFunctions(src.tree)) ==> "__main__.py" in pkg && pkg["__main__.py"] == MainFile(Stem(src.baseName)))
  {
    var pub := PublicFunctions(src.tree);
    PackageShape(src, a);
    InitAndMainValues(src, KeyList(pub), Written(HelpersDir(src, a), FileNames(pub), PassTwoTexts(src, a)), "");
  }

  /**
   * The file of a public function is the one generated from its own
   * dependencies, unless a later public function of the same name replaced it.
   */
  lemma PackageFunctionFile(src: Source, a: Analysis, i: nat)
    requires Consistent(src, a)
    requires i < |PublicFunctions(src.tree)|
    requires forall j :: i < j < |PublicFunctions(src.tree)| ==> Key(PublicFunctions(src.tree)[j]) != Key(PublicFunctions(src.tree)[i])
    ensures var f := PublicFunctions(src.tree)[i];
      && Key(f) in a.fnDeps
      && Key(f) + ".py" in PackageOf(src, a)
      && PackageOf(src, a)[Key(f) + ".py"] == FunctionFileText(src, f, a.fnDeps[Key(f)], a.shared, a.nameRefs, a.imports, a.table)
  {
    var pub := PublicFunctions(src.tree);
    var names := FileNames(pub);
    var texts := PassTwoTexts(src, a);
    PackageShape(src, a);
    LaterNamesDiffer(pub, i);
    WrittenLastWins(HelpersDir(src, a), names, texts, i);
    FileTextsAt(src, pub, a.fnDeps, a.shared, a.nameRefs, a.imports, a.table, i);
    assert pub[i] in pub;
    PublicFileName(pub[i]);
    InitAndMainValues(src, KeyList(pub), Written(HelpersDir(src, a), names, texts), names[i]);
  }

  /**
   * `_helpers.py` is written exactly when some helper is shared, and then it
   * is the collapsed helpers file of the shared helpers.
   */
  lemma PackageHelpersFile(src: Source, a: Analysis)
    requires Consistent(src, a)
    ensures "_helpers.py" in PackageOf(src, a) <==> a.sharedNodes != []
    ensures a.sharedNodes != [] ==>
      PackageOf(src, a)["_helpers.py"] ==
        Collapse(Concat(HelpersFilePieces(src, a.sharedNodes, a.nameRefs, Constants(src.tree), a.imports, a.table)))
  {
    var pub := PublicFunctions(src.tree);
    var names := FileNames(pub);
    var texts := PassTwoTexts(src, a);
    var w := Written(HelpersDir(src, a), names, texts);
    PackageShape(src, a);
    PublicFileNames(pub, "_helpers.py");
    HelpersDirKeys(src, a, "_helpers.py");
    WrittenKeys(HelpersDir(src, a), names, texts, "_helpers.py");
    InitAndMainNames(src, KeyList(pub), w, "_helpers.py");
    if a.sharedNodes != [] {
      WrittenKeep(HelpersDir(src, a), names, texts, "_helpers.py");
      InitAndMainValues(src, KeyList(pub), w, "_helpers.py");
    }
  }

  /** Every file but `__init__.py` and `__main__.py` went through the collapse: no run of four newlines is left. */
  lemma PackageNoBlankRuns(src: Source, a: Analysis, k: string)
    requires Consistent(src, a)
    requires k in PackageOf(src, a) && k != "__init__.py" && k != "__main__.py"
    ensures !Contains(PackageOf(src, a)[k], FourNewlines)
  {
    var pub := PublicFunctions(src.tree);
    var names := FileNames(pub);
    var texts := PassTwoTexts(src, a);
    var w := Written(HelpersDir(src, a), names, texts);
    PackageShape(src, a);
    InitAndMainNames(src, KeyList(pub), w, k);
    InitAndMainValues(src, KeyList(pub), w, k);
    WrittenValues(HelpersDir(src, a), names, texts, k);
    HelpersDirKeys(src, a, k);
    if w[k] in texts {
      FileTextsCollapsed(src, pub, a.fnDeps, a.shared, a.nameRefs, a.imports, a.table, w[k]);
    }
  }

  // ---------------------------------------------------------------------
  // What a function file holds
  // ---------------------------------------------------------------------

  /**
   * A function file ends with the function's own source, verbatim; each of
   * its helpers is either defined in it (not shared) or named in its import
   * from `_helpers` (shared); each of its constants is there with the
   * SCRIPT_DIR rewrite; and each sibling it calls is imported.
   */
  lemma FunctionFileHolds(src: Source, fn: Stmt, deps: FnDeps, shared: set<string>,
                          nameRefs: map<string, set<string>>, imports: seq<Stmt>, table: seq<set<string>>)
    requires IsProvidedTable(imports, table)
    ensures var parts := FunctionFilePieces(src, fn, deps, shared, nameRefs, imports, table);
      var line := HelperImportLine(SortStrings(ImportedHelpers(deps, shared)));
      && parts[|parts| - 1] == NodeSource(fn, src.lines)
      && (forall h :: h in deps.privates && Key(h) !in shared ==> NodeSource(h, src.lines) in parts)
      && (forall h :: h in deps.privates && Key(h) in shared ==> Key(h) in SortStrings(ImportedHelpers(deps, shared)) && line in parts)
      && (forall c :: c in deps.constants ==> FixScriptDirDepth(NodeSource(c, src.lines)) in parts)
      && (forall s :: s in deps.siblingRefs ==> ReexportLine(s) in parts)
  {
    var imported := ImportedHelpers(deps, shared);
    FunctionFileContents(fn, src.lines, src.doc, src.baseName,
      FilterImports(imports, table, FileRefs(Key(fn), nameRefs, deps, shared)),
      deps.siblingRefs, imported, deps.constants, Colocated(deps, shared));
    forall h | h in deps.privates && Key(h) in shared ensures Key(h) in imported {
      KeyListMembers(WithKeyIn(deps.privates, shared), Key(h));
    }
  }

  /**
   * Every helper a public function needs can be reached from its file: it is
   * defined in the file, or the file imports it from `_helpers.py`, which is
   * written and defines it.
   */
  lemma HelperResolved(src: Source, a: Analysis, f: Stmt, h: Stmt)
    requires Consistent(src, a) && a.sharedNodes == WithKeyIn(PrivateFunctions(src.tree), a.shared)
    requires f in PublicFunctions(src.tree) && Key(f) in a.fnDeps
    requires h in a.fnDeps[Key(f)].privates && h in PrivateFunctions(src.tree)
    ensures var deps := a.fnDeps[Key(f)];
      var parts := FunctionFilePieces(src, f, deps, a.shared, a.nameRefs, a.imports, a.table);
      || NodeSource(h, src.lines) in parts
      || (&& Key(h) in SortStrings(ImportedHelpers(deps, a.shared))
          && HelperImportLine(SortStrings(ImportedHelpers(deps, a.shared))) in parts
          && "_helpers.py" in PackageOf(src, a)
          && NodeSource(h, src.lines) in HelpersFilePieces(src, a.sharedNodes, a.nameRefs, Constants(src.tree), a.imports, a.table))
  {
    FunctionFileHolds(src, f, a.fnDeps[Key(f)], a.shared, a.nameRefs, a.imports, a.table);
    if Key(h) in a.shared {
      assert h in a.sharedNodes;
      PackageHelpersFile(src, a);
      HelpersFileContents(src.lines, src.doc, src.baseName,
        FilterImports(a.imports, a.table, HelperRefs(Constants(src.tree), a.nameRefs, a.sharedNodes)),
        HelperConstants(Constants(src.tree), a.nameRefs, a.sharedNodes), a.sharedNodes);
    }
  }

  /**
   * What the analysis of a module records for a public function: exactly the
   * private functions it reaches as helpers, and as siblings the other public
   * functions it names directly; the shared helpers' definitions are the
   * private functions with a shared name.
   */
  lemma AnalysisDeps(src: Source, f: Stmt)
    requires f in PublicFunctions(src.tree)
    ensures var a := AnalysisOf(src);
      && a.sharedNodes == WithKeyIn(PrivateFunctions(src.tree), a.shared)
      && Key(f) in a.fnDeps
      && (forall h :: h in a.fnDeps[Key(f)].privates <==>
            h in PrivateFunctions(src.tree) && NeedsHelper(a.nameRefs, PrivateFunctions(src.tree), f, Key(h)))
      && a.fnDeps[Key(f)].siblingRefs == RefsOf(a.nameRefs, Key(f)) * Keys(PublicFunctions(src.tree)) - {Key(f)}
  {
    var priv := PrivateFunctions(src.tree);
    var a := AnalysisOf(src);
    assert Key(f) in Keys(PublicFunctions(src.tree));
    var d := a.fnDeps[Key(f)];
    assert d == DepsFor(Key(f), a.nameRefs, priv, Constants(src.tree), Keys(PublicFunctions(src.tree)));
    forall h ensures h in d.privates <==> h in priv && NeedsHelper(a.nameRefs, priv, f, Key(h)) {
      if h in priv {
        assert Key(h) in Keys(priv);
      }
    }
  }
}
