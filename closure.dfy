/**
 * The two worklist closures of the decomposer: the private helpers a public
 * function needs (`_transitive_deps`) and the module constants a set of names
 * needs (`_transitive_constants`), each proved equal to reachability in the
 * reference graph given by `name_refs`.
 */
module Closure {
  import opened Text
  import opened PyAst
  import opened NameRefs

  /** One edge of the reference graph restricted to `domain`: `a` references `b`, a name of `domain`. */
  ghost predicate Step(nameRefs: map<string, set<string>>, domain: set<string>, a: string, b: string)
  {
    b in domain && b in RefsOf(nameRefs, a)
  }

  /** A path of at least one edge, every node after the first in `domain`. */
  ghost predicate IsChain(nameRefs: map<string, set<string>>, domain: set<string>, p: seq<string>)
  {
    |p| >= 2 && forall i :: 0 <= i < |p| - 1 ==> Step(nameRefs, domain, p[i], p[i + 1])
  }

  ghost predicate Reaches(nameRefs: map<string, set<string>>, domain: set<string>, x: string, y: string)
  {
    exists p :: IsChain(nameRefs, domain, p) && p[0] == x && p[|p| - 1] == y
  }

  /** The names of `domain` reachable from `x` by one or more references. */
  ghost function ReachableFrom(nameRefs: map<string, set<string>>, domain: set<string>, x: string): set<string>
  {
    set y | y in domain && Reaches(nameRefs, domain, x, y)
  }

  /** The names of `domain` that are in `seeds` or reachable from a seed of `domain`. */
  ghost function SeededClosure(nameRefs: map<string, set<string>>, domain: set<string>, seeds: set<string>): set<string>
  {
    set y | y in domain && (y in seeds || exists s :: s in seeds && s in domain && Reaches(nameRefs, domain, s, y))
  }

  lemma ReachesStep(nameRefs: map<string, set<string>>, domain: set<string>, x: string, y: string, z: string)
    requires x == y || Reaches(nameRefs, domain, x, y)
    requires Step(nameRefs, domain, y, z)
    ensures Reaches(nameRefs, domain, x, z)
  {
    if x == y {
      assert IsChain(nameRefs, domain, [x, z]);
    } else {
      var p :| IsChain(nameRefs, domain, p) && p[0] == x && p[|p| - 1] == y;
      var q := p + [z];
      forall i | 0 <= i < |q| - 1 ensures Step(nameRefs, domain, q[i], q[i + 1]) {
        if i < |p| - 1 {
          assert q[i] == p[i] && q[i + 1] == p[i + 1];
        }
      }
      assert IsChain(nameRefs, domain, q) && q[0] == x && q[|q| - 1] == z;
    }
  }

  /** A set that holds the successors of `x` and of each of its members holds everything `x` reaches. */
  lemma ClosedHoldsReachable(nameRefs: map<string, set<string>>, domain: set<string>, x: string, s: set<string>)
    requires RefsOf(nameRefs, x) * domain <= s
    requires forall y :: y in s ==> RefsOf(nameRefs, y) * domain <= s
    ensures forall y :: Reaches(nameRefs, domain, x, y) ==> y in s
  {
    forall y | Reaches(nameRefs, domain, x, y) ensures y in s {
      var p :| IsChain(nameRefs, domain, p) && p[0] == x && p[|p| - 1] == y;
      ChainInside(nameRefs, domain, p, s, |p| - 1);
    }
  }

  lemma {:induction false} ChainInside(nameRefs: map<string, set<string>>, domain: set<string>, p: seq<string>, s: set<string>, k: int)
    requires IsChain(nameRefs, domain, p) && 1 <= k < |p|
    requires RefsOf(nameRefs, p[0]) * domain <= s
    requires forall y :: y in s ==> RefsOf(nameRefs, y) * domain <= s
    ensures p[k] in s
    decreases k
  {
    assert Step(nameRefs, domain, p[k - 1], p[k]);
    if k > 1 {
      ChainInside(nameRefs, domain, p, s, k - 1);
    }
  }

  /** The private helpers `_transitive_deps` returns: those reachable from `fnName`, in source order. */
  ghost function DepsSpec(fnName: string, nameRefs: map<string, set<string>>, privFns: seq<Stmt>): seq<Stmt>
  {
    WithKeyIn(privFns, ReachableFrom(nameRefs, Keys(privFns), fnName))
  }

  /** The constants `_transitive_constants` returns: those named by `needed` or reachable from them, in source order. */
  ghost function ConstantsSpec(constants: seq<Stmt>, nameRefs: map<string, set<string>>, needed: set<string>): seq<Stmt>
  {
    ConstantsNamedIn(constants, SeededClosure(nameRefs, ConstNames(constants), needed))
  }

  /** The inner loop of `_transitive_deps`: queue each private function that `current` names and that is not yet needed. */
  method QueueFunctionRefs(nameRefs: map<string, set<string>>, privNames: set<string>, fnName: string, current: string,
                           needed0: set<string>, queue0: seq<string>)
    returns (needed: set<string>, queue: seq<string>)
    requires needed0 <= privNames
    requires current == fnName || current in needed0
    requires forall y :: y in needed0 ==> Reaches(nameRefs, privNames, fnName, y)
    requires forall q :: q in queue0 ==> q == fnName || q in needed0
    ensures needed0 <= needed <= privNames
    ensures RefsOf(nameRefs, current) * privNames <= needed
    ensures forall y :: y in needed ==> Reaches(nameRefs, privNames, fnName, y)
    ensures forall q :: q in queue ==> q == fnName || q in needed
    ensures forall q :: q in queue0 ==> q in queue
    ensures forall y :: y in needed && y !in needed0 ==> y in queue
    ensures needed == needed0 ==> queue == queue0
  {
    needed, queue := needed0, queue0;
    var pending := RefsOf(nameRefs, current);
    while pending != {}
      invariant pending <= RefsOf(nameRefs, current)
      invariant needed0 <= needed <= privNames
      invariant (RefsOf(nameRefs, current) - pending) * privNames <= needed
      invariant forall q :: q in queue ==> q == fnName || q in needed
      invariant forall y :: y in needed ==> Reaches(nameRefs, privNames, fnName, y)
      invariant forall q :: q in queue0 ==> q in queue
      invariant forall y :: y in needed && y !in needed0 ==> y in queue
      invariant needed == needed0 ==> queue == queue0
      decreases pending
    {
      var ref :| ref in pending;
      pending := pending - {ref};
      if ref in privNames && ref !in needed {
        ReachesStep(nameRefs, privNames, fnName, current, ref);
        needed := needed + {ref};
        queue := queue + [ref];
      }
    }
  }

  /**
   * `_transitive_deps`: a depth-first worklist (`queue.pop()` takes the most
   * recent entry) over private names. A name is queued only when it is first
   * added to `needed`, so each name is expanded at most once and the loop ends
   * even when helpers reference each other in a cycle. The result is exactly
   * the private helpers reachable from `fnName`, re-ordered into source order.
   */
  method TransitiveDeps(fnName: string, nameRefs: map<string, set<string>>, privFns: seq<Stmt>)
    returns (deps: seq<Stmt>)
    requires forall n :: n in privFns ==> HasName(n)
    ensures deps == DepsSpec(fnName, nameRefs, privFns)
    ensures forall n :: n in deps <==> n in privFns && Reaches(nameRefs, Keys(privFns), fnName, n.name)
    ensures IsSubsequence(deps, privFns)
  {
    var privNames := set n | n in privFns :: n.name;
    assert privNames == Keys(privFns);
    var needed: set<string> := {};
    var queue := [fnName];
    while queue != []
      invariant needed <= privNames
      invariant forall q :: q in queue ==> q == fnName || q in needed
      invariant forall y :: y in needed ==> Reaches(nameRefs, privNames, fnName, y)
      invariant forall x :: (x == fnName || x in needed) && x !in queue ==> RefsOf(nameRefs, x) * privNames <= needed
      decreases privNames - needed, |queue|
    {
      ghost var queueFull := queue;
      var current := queue[|queue| - 1];
      queue := queue[..|queue| - 1];
      assert forall q :: q in queueFull ==> q == current || q in queue;
      ghost var needed0 := needed;
      needed, queue := QueueFunctionRefs(nameRefs, privNames, fnName, current, needed, queue);
      forall x | (x == fnName || x in needed) && x !in queue
        ensures RefsOf(nameRefs, x) * privNames <= needed
      {
        if x != current {
          assert x in needed0 || x == fnName;
          assert x !in queueFull;
        }
      }
      if needed != needed0 {
        assert needed0 < needed;
        assert privNames - needed < privNames - needed0;
      }
    }
    ClosedHoldsReachable(nameRefs, privNames, fnName, needed);
    assert needed == ReachableFrom(nameRefs, privNames, fnName);
    deps := WithKeyIn(privFns, needed);
  }

  /**
   * `_transitive_constants`: a worklist seeded with the needed names that are
   * constant names; a popped name already in `found` is skipped, so each name
   * is expanded at most once (`expanded` records the expansions). The result
   * holds every constant named in `needed`, is closed under constant-to-constant
   * references, holds nothing else, and keeps source order.
   */
  method TransitiveConstants(constants: seq<Stmt>, nameRefs: map<string, set<string>>, needed: set<string>)
    returns (result: seq<Stmt>, ghost expanded: seq<string>)
    ensures result == ConstantsSpec(constants, nameRefs, needed)
    ensures forall c :: c in constants && ConstName(c) in needed ==> c in result
    ensures IsSubsequence(result, constants)
    ensures NoDuplicates(expanded)
    ensures forall x :: x in expanded <==> x in SeededClosure(nameRefs, ConstNames(constants), needed)
  {
    var constNames := set c | c in constants :: ConstName(c);
    assert constNames == ConstNames(constants);
    var found: set<string> := {};
    var queue := ListFromSet(needed * constNames);
    expanded := [];
    while queue != []
      invariant WorklistInvariant(nameRefs, constNames, needed, found, queue, expanded)
      decreases constNames - found, |queue|
    {
      ghost var found0, queue0 := found, queue;
      found, queue, expanded := ExpandNextConstant(nameRefs, constNames, needed, found, queue, expanded);
      if found != found0 {
        assert constNames - found < constNames - found0;
      }
    }
    SeededClosureComplete(nameRefs, constNames, needed, found);
    result := ConstantsNamedIn(constants, found);
  }

  /** The loop invariant of `_transitive_constants`'s worklist. */
  ghost predicate WorklistInvariant(nameRefs: map<string, set<string>>, constNames: set<string>, needed: set<string>,
                                    found: set<string>, queue: seq<string>, expanded: seq<string>)
  {
    && found <= constNames
    && (forall q :: q in queue ==> q in constNames && q in SeededClosure(nameRefs, constNames, needed))
    && (forall y :: y in found ==> y in SeededClosure(nameRefs, constNames, needed))
    && (forall s :: s in needed && s in constNames ==> s in found || s in queue)
    && (forall x, r :: x in found && r in RefsOf(nameRefs, x) && r in constNames ==> r in found || r in queue)
    && NoDuplicates(expanded) && (forall x :: x in expanded <==> x in found)
  }

  /**
   * One round of `_transitive_constants`'s worklist: pop a name; skip it when
   * already found, otherwise record it and queue the constants it references.
   */
  method ExpandNextConstant(nameRefs: map<string, set<string>>, constNames: set<string>, needed: set<string>,
                            found0: set<string>, queue0: seq<string>, ghost expanded0: seq<string>)
    returns (found: set<string>, queue: seq<string>, ghost expanded: seq<string>)
    requires queue0 != []
    requires WorklistInvariant(nameRefs, constNames, needed, found0, queue0, expanded0)
    ensures WorklistInvariant(nameRefs, constNames, needed, found, queue, expanded)
    ensures found == found0 ==> |queue| < |queue0|
    ensures found != found0 ==> found0 < found
  {
    var current := queue0[|queue0| - 1];
    queue := queue0[..|queue0| - 1];
    assert forall q :: q in queue0 ==> q == current || q in queue;
    if current in found0 {
      found, expanded := found0, expanded0;
      return;
    }
    found := found0 + {current};
    expanded := expanded0 + [current];
    queue := QueueConstantRefs(nameRefs, constNames, needed, current, found, queue);
    forall x, r | x in found && r in RefsOf(nameRefs, x) && r in constNames
      ensures r in found || r in queue
    {
      if x != current {
        assert x in found0;
        assert r in found0 || r in queue0;
      }
    }
  }

  /**
   * The inner loop of `_transitive_constants`: queue each constant that
   * `current` references and that is not yet found.
   */
  method QueueConstantRefs(nameRefs: map<string, set<string>>, constNames: set<string>, needed: set<string>,
                           current: string, found: set<string>, queue0: seq<string>)
    returns (queue: seq<string>)
    requires current in SeededClosure(nameRefs, constNames, needed) && current in found
    requires forall q :: q in queue0 ==> q in constNames && q in SeededClosure(nameRefs, constNames, needed)
    ensures forall q :: q in queue ==> q in constNames && q in SeededClosure(nameRefs, constNames, needed)
    ensures forall q :: q in queue0 ==> q in queue
    ensures forall r :: r in RefsOf(nameRefs, current) && r in constNames ==> r in found || r in queue
  {
    queue := queue0;
    var pending := RefsOf(nameRefs, current);
    while pending != {}
      invariant pending <= RefsOf(nameRefs, current)
      invariant forall q :: q in queue ==> q in constNames && q in SeededClosure(nameRefs, constNames, needed)
      invariant forall q :: q in queue0 ==> q in queue
      invariant forall r :: r in RefsOf(nameRefs, current) - pending && r in constNames ==> r in found || r in queue
      decreases pending
    {
      var ref :| ref in pending;
      pending := pending - {ref};
      if ref in constNames && ref !in found {
        SeededClosureStep(nameRefs, constNames, needed, current, ref);
        queue := queue + [ref];
      }
    }
  }

  lemma SeededClosureStep(nameRefs: map<string, set<string>>, domain: set<string>, seeds: set<string>, y: string, z: string)
    requires y in SeededClosure(nameRefs, domain, seeds)
    requires Step(nameRefs, domain, y, z)
    ensures z in SeededClosure(nameRefs, domain, seeds)
  {
    if y in seeds {
      ReachesStep(nameRefs, domain, y, y, z);
    } else {
      var s :| s in seeds && s in domain && Reaches(nameRefs, domain, s, y);
      ReachesStep(nameRefs, domain, s, y, z);
    }
  }

  lemma SeededClosureComplete(nameRefs: map<string, set<string>>, domain: set<string>, seeds: set<string>, found: set<string>)
    requires found <= SeededClosure(nameRefs, domain, seeds)
    requires seeds * domain <= found
    requires forall x :: x in found ==> RefsOf(nameRefs, x) * domain <= found
    ensures found == SeededClosure(nameRefs, domain, seeds)
  {
    forall y | y in SeededClosure(nameRefs, domain, seeds) ensures y in found {
      if y !in seeds {
        var s :| s in seeds && s in domain && Reaches(nameRefs, domain, s, y);
        ClosedHoldsReachable(nameRefs, domain, s, found);
      }
    }
  }
}
