/**
 * The entry-router law: a file named like an entry point (`main.*`,
 * `__main__.py`, `setup.py`, ...) should only route, so more than three
 * top-level definitions besides `main` are reported.
 */
module CheckEntryRouter {
  import opened Wrappers
  import opened Text
  import opened PyAst
  import opened Messages

  /** `ENTRY_PATTERNS`: the glob patterns that mark a file name as an entry point. */
  const EntryPatterns: seq<string> :=
    ["main.*", "index.*", "app.*", "server.*", "run.*", "start.*", "entry.*", "bootstrap.*",
     "__main__.py", "setup.py"]

  /** The patterns without a wildcard. */
  const EntryExactNames: seq<string> := ["__main__.py", "setup.py"]

  /** The stems of the `<stem>.*` patterns. */
  const EntryStems: seq<string> :=
    ["main", "index", "app", "server", "run", "start", "entry", "bootstrap"]

  /**
   * `fnmatch.fnmatch(name, pat)` for the two shapes the entry patterns take:
   * `<prefix>*` matches any name beginning with the prefix, a pattern without
   * wildcards matches only itself (case-sensitive, as on POSIX).
   */
  predicate GlobMatch(name: string, pat: string)
  {
    if |pat| > 0 && pat[|pat| - 1] == '*' then StartsWith(name, pat[..|pat| - 1]) else name == pat
  }

  /** `any(fnmatch.fnmatch(name, pat) for pat in pats)`, scanning left to right. */
  predicate AnyGlobMatch(name: string, pats: seq<string>)
  {
    pats != [] && (GlobMatch(name, pats[0]) || AnyGlobMatch(name, pats[1..]))
  }

  lemma {:induction false} AnyGlobMatchExists(name: string, pats: seq<string>)
    ensures AnyGlobMatch(name, pats) <==> exists p :: p in pats && GlobMatch(name, p)
    decreases |pats|
  {
    if pats != [] {
      AnyGlobMatchExists(name, pats[1..]);
      assert pats == [pats[0]] + pats[1..];
    }
  }

  /** The entry-point test of `check_entry_router`. */
  predicate IsEntry(basename: string)
  {
    AnyGlobMatch(basename, EntryPatterns)
  }

  /** A `<stem>.*` pattern matches exactly the names that begin with the stem and a dot. */
  lemma StemGlob(name: string, stem: string)
    ensures GlobMatch(name, stem + ".*") <==> StartsWith(name, stem + ".")
  {
    var pat := stem + ".*";
    assert pat[..|pat| - 1] == stem + ".";
  }

  /** A pattern that does not end in `*` matches only itself. */
  lemma {:induction false} ExactGlobs(name: string, exact: seq<string>)
    requires forall e :: e in exact ==> |e| > 0 && e[|e| - 1] != '*'
    ensures (exists p :: p in exact && GlobMatch(name, p)) <==> name in exact
  {
    if name in exact {
      assert GlobMatch(name, name);
    }
    if exists p :: p in exact && GlobMatch(name, p) {
      var p :| p in exact && GlobMatch(name, p);
      assert |p| > 0 && p[|p| - 1] != '*';
    }
  }

  /** The `<stem>.*` patterns for a list of stems. */
  function StemPatterns(stems: seq<string>): (r: seq<string>)
    ensures |r| == |stems| && forall i :: 0 <= i < |stems| ==> r[i] == stems[i] + ".*"
  {
    seq(|stems|, i requires 0 <= i < |stems| => stems[i] + ".*")
  }

  lemma EntryPatternsSplit()
    ensures EntryPatterns == StemPatterns(EntryStems) + EntryExactNames
  {
    var pats := StemPatterns(EntryStems) + EntryExactNames;
    assert "main" + ".*" == "main.*";
    assert "index" + ".*" == "index.*";
    assert "app" + ".*" == "app.*";
    assert "server" + ".*" == "server.*";
    assert "run" + ".*" == "run.*";
    assert "start" + ".*" == "start.*";
    assert "entry" + ".*" == "entry.*";
    assert "bootstrap" + ".*" == "bootstrap.*";
    assert forall i :: 0 <= i < |pats| ==> pats[i] == EntryPatterns[i];
  }

  /** Matching some `<stem>.*` pattern is beginning with one of the stems and a dot. */
  lemma StemPatternsMatch(name: string, stems: seq<string>)
    ensures (exists p :: p in StemPatterns(stems) && GlobMatch(name, p)) <==>
            exists stem :: stem in stems && StartsWith(name, stem + ".")
  {
    var pats := StemPatterns(stems);
    if exists p :: p in pats && GlobMatch(name, p) {
      var p :| p in pats && GlobMatch(name, p);
      var i :| 0 <= i < |pats| && pats[i] == p;
      StemGlob(name, stems[i]);
      assert stems[i] in stems;
    }
    if exists stem :: stem in stems && StartsWith(name, stem + ".") {
      var stem :| stem in stems && StartsWith(name, stem + ".");
      var i :| 0 <= i < |stems| && stems[i] == stem;
      StemGlob(name, stem);
      assert pats[i] in pats;
    }
  }

  /** Matching a list of `<stem>.*` patterns followed by exact names. */
  lemma AnyGlobMatchNames(name: string, stems: seq<string>, exact: seq<string>)
    requires forall e :: e in exact ==> |e| > 0 && e[|e| - 1] != '*'
    ensures AnyGlobMatch(name, StemPatterns(stems) + exact) <==>
      (exists stem :: stem in stems && StartsWith(name, stem + ".")) || name in exact
  {
    var stemPats := StemPatterns(stems);
    AnyGlobMatchExists(name, stemPats + exact);
    StemPatternsMatch(name, stems);
    ExactGlobs(name, exact);
    assert forall p :: p in stemPats + exact <==> p in stemPats || p in exact;
  }

  /**
   * A file name is an entry point exactly when it is one of the stems followed
   * by a dot and anything, or is `__main__.py` or `setup.py`.
   */
  lemma IsEntryNames(basename: string)
    ensures IsEntry(basename) <==>
      (exists stem :: stem in EntryStems && StartsWith(basename, stem + ".")) || basename in EntryExactNames
  {
    EntryPatternsSplit();
    AnyGlobMatchNames(basename, EntryStems, EntryExactNames);
  }

  predicate IsNonMainDef(n: Stmt)
  {
    HasName(n) && n.name != "main"
  }

  /** `non_main`: the named top-level nodes (functions and classes) other than `main`, in order. */
  function NonMainDefs(tree: seq<Stmt>): (r: seq<Stmt>)
    ensures forall n :: n in r <==> n in tree && HasName(n) && n.name != "main"
    ensures IsSubsequence(r, tree)
  {
    Filter(tree, IsNonMainDef)
  }

  /** The verdict on an entry file from its non-`main` definitions. */
  function EntryVerdict(rel: string, nonMain: seq<Stmt>): Option<Finding>
  {
    if |nonMain| > 3 then
      Some(Finding("entry", rel + ": " + NatToString(|nonMain|) + " defs in entry file ("
                            + Join(", ", KeyList(Take(nonMain, 5))) + ")"))
    else None
  }

  /** `check_entry_router(rel, basename, tree)` on the body of the parsed module. */
  function CheckEntryRouter(rel: string, basename: string, tree: seq<Stmt>): (r: Option<Finding>)
    ensures !IsEntry(basename) ==> r.None?
  {
    if !IsEntry(basename) then None else EntryVerdict(rel, NonMainDefs(tree))
  }

  /**
   * An entry file is reported exactly when it has more than three named
   * top-level definitions other than `main`; the message gives their full
   * count and the names of the first five, in source order.
   */
  lemma CheckEntryRouterReport(rel: string, basename: string, tree: seq<Stmt>)
    ensures var r := CheckEntryRouter(rel, basename, tree);
      var defs := NonMainDefs(tree);
      && (r.Some? <==> IsEntry(basename) && |defs| > 3)
      && (r.Some? ==>
            && r.value.rule == "entry"
            && exists shown: seq<string> ::
                 && |shown| == (if |defs| < 5 then |defs| else 5)
                 && (forall i :: 0 <= i < |shown| ==> shown[i] == defs[i].name)
                 && r.value.message
                    == rel + ": " + NatToString(|defs|) + " defs in entry file (" + Join(", ", shown) + ")")
  {
    var r := CheckEntryRouter(rel, basename, tree);
    var defs := NonMainDefs(tree);
    if r.Some? {
      var shown := KeyList(Take(defs, 5));
      forall i | 0 <= i < |shown| ensures shown[i] == defs[i].name {
        assert defs[i] in defs;
      }
    }
  }

  lemma {:induction false} NonMainDefsSnoc(tree: seq<Stmt>, n: Stmt)
    ensures NonMainDefs(tree + [n]) == if IsNonMainDef(n) then NonMainDefs(tree) + [n] else NonMainDefs(tree)
  {
    FilterAppend(tree, [n], IsNonMainDef);
    assert [n][1..] == [];
  }

  /** A `main` definition is never counted: adding one changes nothing. */
  lemma MainNotCounted(rel: string, basename: string, tree: seq<Stmt>, main: Stmt)
    requires HasName(main) && main.name == "main"
    ensures CheckEntryRouter(rel, basename, tree + [main]) == CheckEntryRouter(rel, basename, tree)
  {
    NonMainDefsSnoc(tree, main);
  }

  /** Statements without a name (imports, assignments, expressions) are never counted either. */
  lemma UnnamedNotCounted(rel: string, basename: string, tree: seq<Stmt>, n: Stmt)
    requires !HasName(n)
    ensures CheckEntryRouter(rel, basename, tree + [n]) == CheckEntryRouter(rel, basename, tree)
  {
    NonMainDefsSnoc(tree, n);
  }

  /** Another non-`main` definition raises the count by one, so a reported entry file stays reported. */
  lemma DefCounted(basename: string, tree: seq<Stmt>, d: Stmt)
    requires HasName(d) && d.name != "main"
    ensures |NonMainDefs(tree + [d])| == |NonMainDefs(tree)| + 1
    ensures forall rel :: CheckEntryRouter(rel, basename, tree).Some? ==>
                          CheckEntryRouter(rel, basename, tree + [d]).Some?
  {
    NonMainDefsSnoc(tree, d);
  }
}
