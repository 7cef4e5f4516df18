/**
 * The core law: one public function per file. A module with more than one
 * top-level public (async) function is reported with the function count,
 * the file's line count and the line span of each public function.
 */
module CheckMultiFn {
  import opened Wrappers
  import opened Text
  import opened PyAst
  import opened Messages

  /** `(name, lineno, end_lineno)` of one public function. */
  datatype FnLines = FnLines(name: string, lineno: LineNo, endLineno: LineNo)

  /** `("multi-fn", message, fn_lines)`. */
  datatype MultiFnViolation = MultiFnViolation(rule: string, message: string, fnLines: seq<FnLines>)

  /** `(violation, tree)`; the tree is absent when the file could not be read or parsed. */
  datatype MultiFnResult = MultiFnResult(violation: Option<MultiFnViolation>, tree: Option<seq<Stmt>>)

  /** The line span of each function, in order. */
  function SpansOf(fns: seq<Stmt>): (r: seq<FnLines>)
    requires forall n :: n in fns ==> n.FunctionDef?
    ensures |r| == |fns|
    ensures forall i :: 0 <= i < |fns| ==> r[i] == FnLines(fns[i].name, fns[i].lineno, fns[i].endLineno)
  {
    if fns == [] then [] else [FnLines(fns[0].name, fns[0].lineno, fns[0].endLineno)] + SpansOf(fns[1..])
  }

  /**
   * `check_multi_fn(rel, full, loc)`. `parsed` is the module body, or `None`
   * when reading or parsing the file failed.
   */
  function CheckMultiFn(rel: string, parsed: Option<seq<Stmt>>, loc: nat): (r: MultiFnResult)
    ensures parsed.None? ==> r == MultiFnResult(None, None)
    ensures r.tree == parsed
  {
    match parsed
    case None => MultiFnResult(None, None)
    case Some(tree) =>
      var pubFns := PublicFunctions(tree);
      var violation :=
        if |pubFns| > 1 then
          var joined := Join(", ", KeyList(Take(pubFns, 5)));
          Some(MultiFnViolation("multi-fn",
                                rel + ": " + NatToString(|pubFns|) + " fns, " + NatToString(loc) + " LOC (" + joined + ")",
                                SpansOf(pubFns)))
        else None;
      MultiFnResult(violation, parsed)
  }

  /** Two public functions at different positions of the module body. */
  ghost predicate HasTwoPublicFunctions(tree: seq<Stmt>)
  {
    exists i, j :: 0 <= i < j < |tree| && IsPublicFunction(tree[i]) && IsPublicFunction(tree[j])
  }

  /** Some element is kept exactly when the filtered list is non-empty. */
  lemma SomeKept<T(!new)>(xs: seq<T>, p: T -> bool)
    ensures |Filter(xs, p)| > 0 <==> exists k :: 0 <= k < |xs| && p(xs[k])
  {
    var r := Filter(xs, p);
    if |r| > 0 {
      assert r[0] in r;
    }
  }

  lemma TwoKeptCounted<T(!new)>(xs: seq<T>, p: T -> bool, i: int, j: int)
    requires 0 <= i < j < |xs| && p(xs[i]) && p(xs[j])
    ensures |Filter(xs, p)| > 1
  {
    var front, back := xs[..j], xs[j..];
    assert xs == front + back;
    FilterAppend(front, back, p);
    assert p(front[i]);
    SomeKept(front, p);
    assert p(back[0]);
    SomeKept(back, p);
  }

  lemma {:induction false} TwoKeptFound<T(!new)>(xs: seq<T>, p: T -> bool)
    requires |Filter(xs, p)| > 1
    ensures exists i, j :: 0 <= i < j < |xs| && p(xs[i]) && p(xs[j])
    decreases |xs|
  {
    var rest := xs[1..];
    if p(xs[0]) {
      SomeKept(rest, p);
      var k :| 0 <= k < |rest| && p(rest[k]);
      assert xs[k + 1] == rest[k];
    } else {
      TwoKeptFound(rest, p);
      var i, j :| 0 <= i < j < |rest| && p(rest[i]) && p(rest[j]);
      assert xs[i + 1] == rest[i] && xs[j + 1] == rest[j];
    }
  }

  lemma TwoPublicFunctions(tree: seq<Stmt>)
    ensures |PublicFunctions(tree)| > 1 <==> HasTwoPublicFunctions(tree)
  {
    if HasTwoPublicFunctions(tree) {
      var i, j :| 0 <= i < j < |tree| && IsPublicFunction(tree[i]) && IsPublicFunction(tree[j]);
      TwoKeptCounted(tree, IsPublicFunction, i, j);
    }
    if |PublicFunctions(tree)| > 1 {
      TwoKeptFound(tree, IsPublicFunction);
    }
  }

  /**
   * A parsed module is reported exactly when two of its top-level statements
   * are public functions; the message gives the full count, the line count
   * and the first five names in order, and `fn_lines` holds one span per
   * public function, in order.
   */
  lemma CheckMultiFnReport(rel: string, tree: seq<Stmt>, loc: nat)
    ensures var v := CheckMultiFn(rel, Some(tree), loc).violation;
      var pubFns := PublicFunctions(tree);
      && (v.Some? <==> HasTwoPublicFunctions(tree))
      && (v.Some? ==>
            && v.value.rule == "multi-fn"
            && |v.value.fnLines| == |pubFns|
            && (forall i :: 0 <= i < |pubFns| ==>
                  v.value.fnLines[i] == FnLines(pubFns[i].name, pubFns[i].lineno, pubFns[i].endLineno))
            && exists shown: seq<string> ::
                 && |shown| == (if |pubFns| < 5 then |pubFns| else 5)
                 && (forall i :: 0 <= i < |shown| ==> shown[i] == pubFns[i].name)
                 && v.value.message
                    == rel + ": " + NatToString(|pubFns|) + " fns, " + NatToString(loc) + " LOC (" + Join(", ", shown) + ")")
  {
    TwoPublicFunctions(tree);
    var v := CheckMultiFn(rel, Some(tree), loc).violation;
    var pubFns := PublicFunctions(tree);
    if v.Some? {
      var shown := KeyList(Take(pubFns, 5));
      forall i | 0 <= i < |shown| ensures shown[i] == pubFns[i].name {
        assert pubFns[i] in pubFns;
      }
    }
  }

  lemma {:induction false} PublicFunctionsSnoc(tree: seq<Stmt>, n: Stmt)
    ensures PublicFunctions(tree + [n]) ==
            if IsPublicFunction(n) then PublicFunctions(tree) + [n] else PublicFunctions(tree)
  {
    FilterAppend(tree, [n], IsPublicFunction);
    assert [n][1..] == [];
  }

  /** Classes, private functions and every other statement are never counted: adding one changes nothing. */
  lemma OnlyPublicFunctionsCounted(rel: string, tree: seq<Stmt>, loc: nat, n: Stmt)
    requires !IsPublicFunction(n)
    ensures CheckMultiFn(rel, Some(tree + [n]), loc).violation == CheckMultiFn(rel, Some(tree), loc).violation
  {
    PublicFunctionsSnoc(tree, n);
  }

  /** A module with a single public function and anything else beside it is never reported. */
  lemma SinglePublicFunctionAccepted(rel: string, tree: seq<Stmt>, loc: nat, f: Stmt)
    requires IsPublicFunction(f)
    requires forall n :: n in tree ==> !IsPublicFunction(n)
    ensures CheckMultiFn(rel, Some(tree + [f]), loc).violation.None?
  {
    PublicFunctionsSnoc(tree, f);
    SomeKept(tree, IsPublicFunction);
  }
}
