/**
 * The `__all__` law: a module that re-exports names with `from ... import`
 * must declare its public API in `__all__`.
 */
module CheckMissingAll {
  import opened Wrappers
  import opened PyAst
  import opened Messages

  /** A `from ... import a, b` with at least one name and no `*`. */
  predicate IsReexport(n: Stmt)
  {
    n.ImportFrom? && |n.names| > 0 && !AnyStar(n.names)
  }

  /** `any(a.name == "*" for a in names)`. */
  predicate AnyStar(names: seq<Alias>)
  {
    names != [] && (names[0].name == "*" || AnyStar(names[1..]))
  }

  /** `any(isinstance(t, ast.Name) and t.id == "__all__" for t in targets)`. */
  predicate AnyAllTarget(targets: seq<Expr>)
  {
    targets != [] && (targets[0] == Name("__all__") || AnyAllTarget(targets[1..]))
  }

  /** An assignment with `__all__` among its targets. */
  predicate IsAllAssign(n: Stmt)
  {
    n.Assign? && AnyAllTarget(n.targets)
  }

  /** `has_reexports`, scanning the top-level statements left to right. */
  predicate HasReexports(tree: seq<Stmt>)
  {
    tree != [] && (IsReexport(tree[0]) || HasReexports(tree[1..]))
  }

  /** `has_all`, scanning the top-level statements left to right. */
  predicate HasAll(tree: seq<Stmt>)
  {
    tree != [] && (IsAllAssign(tree[0]) || HasAll(tree[1..]))
  }

  /**
   * `check_missing_all(rel, full)`. `parsed` is the module body, or `None`
   * when reading or parsing the file failed.
   */
  function CheckMissingAll(rel: string, parsed: Option<seq<Stmt>>): (r: Option<Finding>)
    ensures parsed.None? ==> r.None?
    ensures r.Some? ==> r.value.rule == "structure"
  {
    match parsed
    case None => None
    case Some(tree) =>
      if HasReexports(tree) && !HasAll(tree) then Some(Finding("structure", rel + ": re-exports without __all__"))
      else None
  }

  lemma {:induction false} AnyStarExists(names: seq<Alias>)
    ensures AnyStar(names) <==> exists a :: a in names && a.name == "*"
    decreases |names|
  {
    if names != [] {
      AnyStarExists(names[1..]);
      assert names == [names[0]] + names[1..];
    }
  }

  lemma {:induction false} AnyAllTargetExists(targets: seq<Expr>)
    ensures AnyAllTarget(targets) <==> Name("__all__") in targets
    decreases |targets|
  {
    if targets != [] {
      AnyAllTargetExists(targets[1..]);
      assert targets == [targets[0]] + targets[1..];
    }
  }

  lemma {:induction false} HasReexportsExists(tree: seq<Stmt>)
    ensures HasReexports(tree) <==> exists n :: n in tree && IsReexport(n)
    decreases |tree|
  {
    if tree != [] {
      HasReexportsExists(tree[1..]);
      assert tree == [tree[0]] + tree[1..];
    }
  }

  lemma {:induction false} HasAllExists(tree: seq<Stmt>)
    ensures HasAll(tree) <==> exists n :: n in tree && IsAllAssign(n)
    decreases |tree|
  {
    if tree != [] {
      HasAllExists(tree[1..]);
      assert tree == [tree[0]] + tree[1..];
    }
  }

  /**
   * A parsed module is reported exactly when some top-level `from` import
   * names at least one name and no `*`, and no top-level assignment has the
   * plain name `__all__` among its targets.
   */
  lemma CheckMissingAllReport(rel: string, tree: seq<Stmt>)
    ensures CheckMissingAll(rel, Some(tree)).Some? <==>
      && (exists n :: n in tree && n.ImportFrom? && |n.names| > 0 && forall a :: a in n.names ==> a.name != "*")
      && !(exists n :: n in tree && n.Assign? && Name("__all__") in n.targets)
    ensures CheckMissingAll(rel, Some(tree)).Some? ==>
      CheckMissingAll(rel, Some(tree)) == Some(Finding("structure", rel + ": re-exports without __all__"))
  {
    HasReexportsExists(tree);
    HasAllExists(tree);
    forall n | n in tree && n.ImportFrom?
      ensures IsReexport(n) <==> |n.names| > 0 && forall a :: a in n.names ==> a.name != "*"
    {
      AnyStarExists(n.names);
    }
    forall n | n in tree && n.Assign?
      ensures IsAllAssign(n) <==> Name("__all__") in n.targets
    {
      AnyAllTargetExists(n.targets);
    }
  }

  /** A module whose `from` imports are all star imports is never reported. */
  lemma StarImportsNotReported(rel: string, tree: seq<Stmt>)
    requires forall n :: n in tree && n.ImportFrom? ==> exists a :: a in n.names && a.name == "*"
    ensures CheckMissingAll(rel, Some(tree)).None?
  {
    HasReexportsExists(tree);
    forall n | n in tree && n.ImportFrom?
      ensures !IsReexport(n)
    {
      AnyStarExists(n.names);
    }
  }

  /** One assignment listing `__all__` among its targets, anywhere at top level, silences the check. */
  lemma AllAssignSuppresses(rel: string, tree: seq<Stmt>, n: Stmt)
    requires n in tree && n.Assign? && Name("__all__") in n.targets
    ensures CheckMissingAll(rel, Some(tree)).None?
  {
    HasAllExists(tree);
    AnyAllTargetExists(n.targets);
  }
}
