/** The names each import binds (`_import_provided_names`) and the import filter (`_filter_imports`). */
module ImportNames {
  import opened Wrappers
  import opened Text
  import opened PyAst

  /** `name.split('.')[0]`: the top-level package of a dotted module path. */
  function RootModule(name: string): (r: string)
    ensures StartsWith(name, r) && '.' !in r
    ensures r == name || name[|r|] == '.'
  {
    PrefixBefore(name, '.')
  }

  /**
   * The name one alias binds: `alias.asname or alias.name.split('.')[0]` for
   * `import`, `alias.asname or alias.name` for `from ... import`. An empty
   * `asname` is falsy in Python and falls through like a missing one.
   */
  function Binding(a: Alias, fromImport: bool): string
  {
    if a.asname.Some? && a.asname.value != "" then a.asname.value
    else if fromImport then a.name
    else RootModule(a.name)
  }

  /** The set one iteration of `_import_provided_names` stores for `imp`. */
  function ProvidedNames(imp: Stmt): set<string>
  {
    if imp.Import? then (set a | a in imp.names :: Binding(a, false))
    else if imp.ImportFrom? then (set a | a in imp.names :: Binding(a, true))
    else {}
  }

  lemma SingleAliasProvides(imp: Stmt, a: Alias)
    requires (imp.Import? || imp.ImportFrom?) && imp.names == [a]
    ensures ProvidedNames(imp) == {Binding(a, imp.ImportFrom?)}
  {
    assert a in imp.names;
    assert forall b :: b in imp.names ==> b == a;
  }

  /** `import a.b.c` binds only the top-level package `a`. */
  lemma ImportBindsRootPackage(name: string, lo: LineNo, hi: LineNo)
    ensures ProvidedNames(Import([Alias(name, None)], lo, hi)) == {RootModule(name)}
    ensures '.' !in RootModule(name) && StartsWith(name, RootModule(name))
  {
    SingleAliasProvides(Import([Alias(name, None)], lo, hi), Alias(name, None));
  }

  /** `import x as y` binds `y` and not `x`. */
  lemma ImportAsBindsAliasOnly(name: string, asname: string, lo: LineNo, hi: LineNo)
    requires asname != ""
    ensures ProvidedNames(Import([Alias(name, Some(asname))], lo, hi)) == {asname}
  {
    SingleAliasProvides(Import([Alias(name, Some(asname))], lo, hi), Alias(name, Some(asname)));
  }

  /** `from m import n as k` binds `k` when given, else `n`, the full imported name. */
  lemma FromImportBindsAliasOrName(name: string, asname: Option<string>, lo: LineNo, hi: LineNo)
    ensures asname.Some? && asname.value != "" ==>
      ProvidedNames(ImportFrom([Alias(name, asname)], lo, hi)) == {asname.value}
    ensures asname.None? ==> ProvidedNames(ImportFrom([Alias(name, asname)], lo, hi)) == {name}
  {
    SingleAliasProvides(ImportFrom([Alias(name, asname)], lo, hi), Alias(name, asname));
  }

  /**
   * `_import_provided_names`: the names each import binds. The source keys its
   * dictionary by the identity of the import node; here the table is aligned
   * with `imports` by position.
   */
  method ImportProvidedNames(imports: seq<Stmt>) returns (table: seq<set<string>>)
    ensures |table| == |imports|
    ensures forall i :: 0 <= i < |imports| ==> table[i] == ProvidedNames(imports[i])
  {
    table := [];
    for i := 0 to |imports|
      invariant |table| == i
      invariant forall k :: 0 <= k < i ==> table[k] == ProvidedNames(imports[k])
    {
      var imp := imports[i];
      var names: set<string> := {};
      if imp.Import? || imp.ImportFrom? {
        var fromImport := imp.ImportFrom?;
        for j := 0 to |imp.names|
          invariant names == set a | a in imp.names[..j] :: Binding(a, fromImport)
        {
          assert imp.names[..j + 1] == imp.names[..j] + [imp.names[j]];
          names := names + {Binding(imp.names[j], fromImport)};
        }
        assert imp.names[..|imp.names|] == imp.names;
      }
      table := table + [names];
    }
  }

  /** The provided-names table holds, for each import, the names it binds. */
  ghost predicate IsProvidedTable(imports: seq<Stmt>, table: seq<set<string>>)
  {
    |table| == |imports| && forall i :: 0 <= i < |imports| ==> table[i] == ProvidedNames(imports[i])
  }

  /** The table `_import_provided_names` builds, as a value: a table that fits the imports is this one. */
  ghost function ProvidedTable(imports: seq<Stmt>): (t: seq<set<string>>)
    ensures IsProvidedTable(imports, t)
    ensures forall u :: IsProvidedTable(imports, u) ==> u == t
  {
    seq(|imports|, i requires 0 <= i < |imports| => ProvidedNames(imports[i]))
  }

  /**
   * `_filter_imports`: the imports that bind at least one needed name, in
   * their original order, none repeated and none merged or split.
   */
  function FilterImports(imports: seq<Stmt>, table: seq<set<string>>, needed: set<string>): (r: seq<Stmt>)
    requires IsProvidedTable(imports, table)
    ensures IsSubsequence(r, imports)
    ensures forall imp :: imp in r <==> imp in imports && ProvidedNames(imp) * needed != {}
    decreases |imports|
  {
    if imports == [] then []
    else
      var rest := FilterImports(imports[1..], table[1..], needed);
      if table[0] * needed != {} then
        assert ([imports[0]] + rest)[1..] == rest;
        [imports[0]] + rest
      else rest
  }

  /**
   * Every needed name that some import binds is bound by a kept import: the
   * filter never drops an import a file needs.
   */
  lemma FilterImportsComplete(imports: seq<Stmt>, table: seq<set<string>>, needed: set<string>, x: string)
    requires IsProvidedTable(imports, table)
    requires x in needed
    requires exists imp :: imp in imports && x in ProvidedNames(imp)
    ensures exists imp :: imp in FilterImports(imports, table, needed) && x in ProvidedNames(imp)
  {
    var imp :| imp in imports && x in ProvidedNames(imp);
    assert x in ProvidedNames(imp) * needed;
  }

  /** A star import binds only `*`, which no identifier equals, so it is never kept for real names. */
  lemma StarImportDropped(imports: seq<Stmt>, table: seq<set<string>>, needed: set<string>, lo: LineNo, hi: LineNo)
    requires IsProvidedTable(imports, table)
    requires "*" !in needed
    ensures ImportFrom([Alias("*", None)], lo, hi) !in FilterImports(imports, table, needed)
  {
    var star := Alias("*", None);
    SingleAliasProvides(ImportFrom([star], lo, hi), star);
  }
}
