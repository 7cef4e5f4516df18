/**
 * The part of Python's syntax tree the decomposer and the structural checks
 * look at: the top-level statements of a module, each with its line span, and
 * below them only what `_names_used` distinguishes.
 */
module PyAst {
  import opened Wrappers
  import opened Text

  /**
   * A node below a top-level statement. Expressions and nested statements alike
   * are reduced to the three shapes `_names_used` tells apart: a `Name`, an
   * `Attribute` access `value.attr`, and any other node with its children.
   */
  datatype Expr =
    | Name(id: string)
    | Attribute(value: Expr, attr: string)
    | Node(children: seq<Expr>)

  /** `import name as asname` / `from m import name as asname`. */
  datatype Alias = Alias(name: string, asname: Option<string>)

  /** Line numbers reported by the parser start at 1. */
  type LineNo = n: int | 1 <= n witness 1

  /** A top-level statement (`tree.body`); `parts` are its direct sub-nodes. */
  datatype Stmt =
    | FunctionDef(name: string, isAsync: bool, lineno: LineNo, endLineno: LineNo, parts: seq<Expr>)
    | ClassDef(name: string, lineno: LineNo, endLineno: LineNo, parts: seq<Expr>)
    | Import(names: seq<Alias>, lineno: LineNo, endLineno: LineNo)
    | ImportFrom(names: seq<Alias>, lineno: LineNo, endLineno: LineNo)
    | Assign(targets: seq<Expr>, value: Expr, lineno: LineNo, endLineno: LineNo)
    | AugAssign(target: Expr, value: Expr, lineno: LineNo, endLineno: LineNo)
    | OtherStmt(lineno: LineNo, endLineno: LineNo, parts: seq<Expr>)

  /** Statements that have a `name` attribute. */
  predicate HasName(n: Stmt)
  {
    n.FunctionDef? || n.ClassDef?
  }

  // ---------------------------------------------------------------------
  // ast.walk
  // ---------------------------------------------------------------------

  /** `e` and every node below it, `e` first. */
  function Subnodes(e: Expr): seq<Expr>
    decreases e
  {
    match e
    case Name(_) => [e]
    case Attribute(v, _) => [e] + Subnodes(v)
    case Node(cs) => [e] + SubnodesOfAll(cs)
  }

  function SubnodesOfAll(es: seq<Expr>): seq<Expr>
    decreases es
  {
    if es == [] then [] else Subnodes(es[0]) + SubnodesOfAll(es[1..])
  }

  /** The direct sub-nodes of a statement (aliases of imports hold no names). */
  function Children(s: Stmt): seq<Expr>
  {
    match s
    case FunctionDef(_, _, _, _, parts) => parts
    case ClassDef(_, _, _, parts) => parts
    case Import(_, _, _) => []
    case ImportFrom(_, _, _) => []
    case Assign(targets, value, _, _) => targets + [value]
    case AugAssign(target, value, _, _) => [target, value]
    case OtherStmt(_, _, parts) => parts
  }

  /** `ast.walk(s)` without `s` itself, which is never a `Name` or an `Attribute`. */
  function Walk(s: Stmt): seq<Expr>
  {
    SubnodesOfAll(Children(s))
  }

  /** The identifiers of the `Name` nodes among `es`. */
  function NameIdsIn(es: seq<Expr>): set<string>
  {
    set e | e in es && e.Name? :: e.id
  }

  /** The identifiers of every `Name` node anywhere below `s`. */
  function NameIds(s: Stmt): set<string>
  {
    NameIdsIn(Walk(s))
  }

  lemma {:induction false} SubnodesClosed(e: Expr, x: Expr, y: Expr)
    requires x in Subnodes(e) && y in Subnodes(x)
    ensures y in Subnodes(e)
    decreases e
  {
    if x != e {
      match e
      case Name(_) =>
      case Attribute(v, _) =>
        SubnodesClosed(v, x, y);
      case Node(cs) =>
        SubnodesOfAllClosed(cs, x, y);
    }
  }

  lemma {:induction false} SubnodesOfAllClosed(es: seq<Expr>, x: Expr, y: Expr)
    requires x in SubnodesOfAll(es) && y in Subnodes(x)
    ensures y in SubnodesOfAll(es)
    decreases es
  {
    if es != [] {
      if x in Subnodes(es[0]) {
        SubnodesClosed(es[0], x, y);
      } else {
        SubnodesOfAllClosed(es[1..], x, y);
      }
    }
  }

  // ---------------------------------------------------------------------
  // Classification of top-level statements
  // ---------------------------------------------------------------------

  /** The leading-underscore convention for private names. */
  predicate IsPrivateName(name: string)
  {
    StartsWith(name, "_")
  }

  predicate IsPublicFunction(n: Stmt)
  {
    n.FunctionDef? && !IsPrivateName(n.name)
  }

  predicate IsPrivateFunction(n: Stmt)
  {
    n.FunctionDef? && IsPrivateName(n.name)
  }

  predicate IsImport(n: Stmt)
  {
    n.Import? || n.ImportFrom?
  }

  /** `name.startswith("__") and name.endswith("__")`. */
  predicate IsDunder(name: string)
  {
    StartsWith(name, "__") && EndsWith(name, "__")
  }

  /** An `Assign` none of whose `Name` targets is a dunder, or any `AugAssign`. */
  predicate IsConstant(n: Stmt)
  {
    (n.Assign? && !(exists t :: t in n.targets && t.Name? && IsDunder(t.id))) || n.AugAssign?
  }

  /** The elements of `xs` that satisfy `p`, in their order. */
  function Filter<T(!new)>(xs: seq<T>, p: T -> bool): (r: seq<T>)
    ensures forall x :: x in r <==> x in xs && p(x)
    ensures IsSubsequence(r, xs)
    ensures |r| <= |xs|
  {
    if xs == [] then []
    else
      var rest := Filter(xs[1..], p);
      if p(xs[0]) then
        assert ([xs[0]] + rest)[1..] == rest;
        [xs[0]] + rest
      else rest
  }

  lemma {:induction false} FilterAppend<T(!new)>(a: seq<T>, b: seq<T>, p: T -> bool)
    ensures Filter(a + b, p) == Filter(a, p) + Filter(b, p)
    decreases |a|
  {
    if a != [] {
      var ab := a + b;
      assert ab[0] == a[0] && ab[1..] == a[1..] + b;
      FilterAppend(a[1..], b, p);
      if p(a[0]) {
        assert Filter(ab, p) == [a[0]] + Filter(a[1..] + b, p);
        assert Filter(a, p) == [a[0]] + Filter(a[1..], p);
      } else {
        assert Filter(ab, p) == Filter(a[1..] + b, p);
        assert Filter(a, p) == Filter(a[1..], p);
      }
    } else {
      assert a + b == b;
    }
  }

  /** `_find_public_functions`: top-level (async) functions whose name has no leading underscore. */
  function PublicFunctions(tree: seq<Stmt>): (r: seq<Stmt>)
    ensures forall n :: n in r <==> n in tree && n.FunctionDef? && !IsPrivateName(n.name)
    ensures IsSubsequence(r, tree)
  {
    Filter(tree, IsPublicFunction)
  }

  /** `_find_private_functions`: top-level (async) functions whose name has a leading underscore. */
  function PrivateFunctions(tree: seq<Stmt>): (r: seq<Stmt>)
    ensures forall n :: n in r <==> n in tree && n.FunctionDef? && IsPrivateName(n.name)
    ensures IsSubsequence(r, tree)
  {
    Filter(tree, IsPrivateFunction)
  }

  /** `_find_imports`: top-level `import` and `from ... import` statements. */
  function Imports(tree: seq<Stmt>): (r: seq<Stmt>)
    ensures forall n :: n in r <==> n in tree && (n.Import? || n.ImportFrom?)
    ensures IsSubsequence(r, tree)
  {
    Filter(tree, IsImport)
  }

  /** `_find_constants`: assignments not binding a dunder name, and augmented assignments. */
  function Constants(tree: seq<Stmt>): (r: seq<Stmt>)
    ensures forall n :: n in r <==>
      (n in tree && ((n.Assign? && forall t :: t in n.targets && t.Name? ==> !IsDunder(t.id)) || n.AugAssign?))
    ensures IsSubsequence(r, tree)
  {
    Filter(tree, IsConstant)
  }

  /** Classes are neither public nor private functions. */
  lemma ClassesInNoBucket(tree: seq<Stmt>, n: Stmt)
    requires n in tree && n.ClassDef?
    ensures n !in PublicFunctions(tree) && n !in PrivateFunctions(tree)
    ensures n !in Imports(tree) && n !in Constants(tree)
  {
  }

  /** `_const_name`: the first target of an assignment when it is a plain name, else "". */
  function ConstName(n: Stmt): (r: string)
    ensures n.Assign? && |n.targets| > 0 && n.targets[0].Name? ==> r == n.targets[0].id
    ensures !(n.Assign? && |n.targets| > 0 && n.targets[0].Name?) ==> r == ""
    ensures r != "" ==> n.Assign? && |n.targets| > 0 && n.targets[0] == Name(r)
  {
    if n.Assign? && |n.targets| > 0 && n.targets[0].Name? then n.targets[0].id else ""
  }

  /** The key of a node in `name_refs`: `node.name` when it has one, else `_const_name(node)`. */
  function Key(n: Stmt): string
  {
    if HasName(n) then n.name else ConstName(n)
  }

  function KeyIn(s: set<string>): Stmt -> bool
  {
    n => Key(n) in s
  }

  /** The nodes of `nodes` whose key is in `s`, in source order (`[n for n in nodes if name(n) in s]`). */
  function WithKeyIn(nodes: seq<Stmt>, s: set<string>): (r: seq<Stmt>)
    ensures forall n :: n in r <==> n in nodes && Key(n) in s
    ensures IsSubsequence(r, nodes)
  {
    Filter(nodes, KeyIn(s))
  }

  function KeyNotIn(s: set<string>): Stmt -> bool
  {
    n => Key(n) !in s
  }

  /** `[n for n in nodes if name(n) not in s]`. */
  function WithKeyNotIn(nodes: seq<Stmt>, s: set<string>): (r: seq<Stmt>)
    ensures forall n :: n in r <==> n in nodes && Key(n) !in s
    ensures IsSubsequence(r, nodes)
  {
    Filter(nodes, KeyNotIn(s))
  }

  /** A filter and its complement split a list: together they hold each element exactly as often as the list does. */
  lemma {:induction false} FilterComplement<T(!new)>(xs: seq<T>, p: T -> bool, q: T -> bool)
    requires forall x :: q(x) == !p(x)
    ensures multiset(Filter(xs, p)) + multiset(Filter(xs, q)) == multiset(xs)
    decreases |xs|
  {
    if xs != [] {
      FilterComplement(xs[1..], p, q);
      var a, b := Filter(xs[1..], p), Filter(xs[1..], q);
      assert xs == [xs[0]] + xs[1..];
      assert multiset(xs) == multiset{xs[0]} + multiset(xs[1..]);
      if p(xs[0]) {
        assert Filter(xs, p) == [xs[0]] + a && Filter(xs, q) == b;
      } else {
        assert Filter(xs, p) == a && Filter(xs, q) == [xs[0]] + b;
      }
    }
  }

  /** Selecting by key in `s` and by key not in `s` partitions the nodes. */
  lemma KeyPartition(nodes: seq<Stmt>, s: set<string>)
    ensures multiset(WithKeyIn(nodes, s)) + multiset(WithKeyNotIn(nodes, s)) == multiset(nodes)
    ensures |WithKeyIn(nodes, s)| + |WithKeyNotIn(nodes, s)| == |nodes|
    ensures forall n :: !(n in WithKeyIn(nodes, s) && n in WithKeyNotIn(nodes, s))
  {
    FilterComplement(nodes, KeyIn(s), KeyNotIn(s));
    assert |multiset(WithKeyIn(nodes, s)) + multiset(WithKeyNotIn(nodes, s))| == |multiset(nodes)|;
  }

  /** Nodes with pairwise different keys. */
  predicate DistinctKeys(nodes: seq<Stmt>)
  {
    forall i, j :: 0 <= i < j < |nodes| ==> Key(nodes[i]) != Key(nodes[j])
  }

  /** Selecting from nodes with distinct keys keeps the keys distinct. */
  lemma {:induction false} FilterKeepsKeysDistinct(nodes: seq<Stmt>, p: Stmt -> bool)
    requires DistinctKeys(nodes)
    ensures DistinctKeys(Filter(nodes, p))
    decreases |nodes|
  {
    if nodes != [] {
      assert DistinctKeys(nodes[1..]) by {
        forall i, j | 0 <= i < j < |nodes[1..]| ensures Key(nodes[1..][i]) != Key(nodes[1..][j]) {
          assert nodes[1..][i] == nodes[i + 1] && nodes[1..][j] == nodes[j + 1];
        }
      }
      FilterKeepsKeysDistinct(nodes[1..], p);
      var rest := Filter(nodes[1..], p);
      if p(nodes[0]) {
        var r := [nodes[0]] + rest;
        forall i, j | 0 <= i < j < |r| ensures Key(r[i]) != Key(r[j]) {
          if i == 0 {
            assert r[j] in nodes[1..];
            var k :| 0 <= k < |nodes[1..]| && nodes[1..][k] == r[j];
            assert nodes[k + 1] == r[j];
          } else {
            assert r[i] == rest[i - 1] && r[j] == rest[j - 1];
          }
        }
      }
    }
  }

  function ConstNameIn(s: set<string>): Stmt -> bool
  {
    n => ConstName(n) in s
  }

  /** `[c for c in constants if _const_name(c) in s]`. */
  function ConstantsNamedIn(constants: seq<Stmt>, s: set<string>): (r: seq<Stmt>)
    ensures forall n :: n in r <==> n in constants && ConstName(n) in s
    ensures IsSubsequence(r, constants)
  {
    Filter(constants, ConstNameIn(s))
  }

  function ConstNames(constants: seq<Stmt>): set<string>
  {
    set c | c in constants :: ConstName(c)
  }

  function Keys(nodes: seq<Stmt>): set<string>
  {
    set n | n in nodes :: Key(n)
  }

  function KeyList(nodes: seq<Stmt>): (r: seq<string>)
    ensures |r| == |nodes| && forall i :: 0 <= i < |nodes| ==> r[i] == Key(nodes[i])
  {
    if nodes == [] then [] else [Key(nodes[0])] + KeyList(nodes[1..])
  }

  /**
   * An augmented assignment has the empty name, so no set of real identifiers
   * selects it.
   */
  lemma AugAssignNeverSelected(constants: seq<Stmt>, s: set<string>, n: Stmt)
    requires "" !in s && n.AugAssign?
    ensures n !in ConstantsNamedIn(constants, s)
  {
  }
}
