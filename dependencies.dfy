/**
 * Pass 1 of `stub`: for every public function, the private helpers it needs,
 * the constants they need and the sibling public functions it calls; and for
 * every helper, the public functions that need it, which decides whether the
 * helper is shared.
 */
module Dependencies {
  import opened Text
  import opened PyAst
  import opened NameRefs
  import opened Closure

  /** The entry `fn_deps[fname]` that pass 2 reads. */
  datatype FnDeps = FnDeps(privates: seq<Stmt>, constants: seq<Stmt>, siblingRefs: set<string>)

  // ---------------------------------------------------------------------
  // Collected references
  // ---------------------------------------------------------------------

  /** The names referenced by any of `keys` according to `name_refs`. */
  function RefsOfAll(nameRefs: map<string, set<string>>, keys: seq<string>): (r: set<string>)
    ensures forall x :: x in r <==> exists k :: k in keys && x in RefsOf(nameRefs, k)
  {
    if keys == [] then {}
    else
      var init := keys[..|keys| - 1];
      var r := RefsOfAll(nameRefs, init) + RefsOf(nameRefs, keys[|keys| - 1]);
      assert forall k :: k in keys <==> k in init || k == keys[|keys| - 1] by {
        assert keys == init + [keys[|keys| - 1]];
      }
      r
  }

  /** The loops `for p in ...: all_ref_names |= name_refs.get(key(p), set())`. */
  method CollectRefs(nameRefs: map<string, set<string>>, start: set<string>, keys: seq<string>)
    returns (r: set<string>)
    ensures r == start + RefsOfAll(nameRefs, keys)
  {
    r := start;
    for i := 0 to |keys|
      invariant r == start + RefsOfAll(nameRefs, keys[..i])
    {
      assert keys[..i + 1][..i] == keys[..i];
      r := r + RefsOf(nameRefs, keys[i]);
    }
    assert keys[..|keys|] == keys;
  }

  /** `[_const_name(c) for c in constants]`. */
  function ConstNameList(constants: seq<Stmt>): (r: seq<string>)
    ensures |r| == |constants| && forall i :: 0 <= i < |constants| ==> r[i] == ConstName(constants[i])
  {
    if constants == [] then [] else ConstNameList(constants[..|constants| - 1]) + [ConstName(constants[|constants| - 1])]
  }

  // ---------------------------------------------------------------------
  // Pass 1
  // ---------------------------------------------------------------------

  /**
   * The entry pass 1 records for public function `fname`: the private helpers
   * it reaches, the constants those names need, and the other public
   * functions it references directly.
   */
  ghost function DepsFor(fname: string, nameRefs: map<string, set<string>>, privFns: seq<Stmt>,
                         constants: seq<Stmt>, pubNames: set<string>): FnDeps
  {
    var privates := DepsSpec(fname, nameRefs, privFns);
    var refs := RefsOf(nameRefs, fname) + RefsOfAll(nameRefs, KeyList(privates));
    FnDeps(privates, ConstantsSpec(constants, nameRefs, refs), RefsOf(nameRefs, fname) * pubNames - {fname})
  }

  /** `helper_usage.get(h, [])`. */
  function UsersOf(usage: map<string, seq<string>>, h: string): seq<string>
  {
    if h in usage then usage[h] else []
  }

  /** `for h in helpers: helper_usage.setdefault(h, []).append(user)`. */
  function AddUser(usage: map<string, seq<string>>, helpers: seq<string>, user: string): map<string, seq<string>>
  {
    if helpers == [] then usage
    else
      var u := AddUser(usage, helpers[..|helpers| - 1], user);
      var h := helpers[|helpers| - 1];
      u[h := UsersOf(u, h) + [user]]
  }

  /** `helper_usage` after pass 1 has run over `pubFns`. */
  ghost function HelperUsage(pubFns: seq<Stmt>, nameRefs: map<string, set<string>>, privFns: seq<Stmt>)
    : map<string, seq<string>>
  {
    if pubFns == [] then map[]
    else
      var f := Key(pubFns[|pubFns| - 1]);
      AddUser(HelperUsage(pubFns[..|pubFns| - 1], nameRefs, privFns), KeyList(DepsSpec(f, nameRefs, privFns)), f)
  }

  /** `{name for name, users in helper_usage.items() if len(users) > 1}`. */
  function SharedSet(usage: map<string, seq<string>>): set<string>
  {
    set h | h in usage && |usage[h]| > 1
  }

  /** The body of the pass-1 loop for one public function: its `fn_deps` entry. */
  method FunctionDeps(fname: string, privFns: seq<Stmt>, constants: seq<Stmt>, nameRefs: map<string, set<string>>,
                      pubNames: set<string>) returns (deps: FnDeps)
    requires forall n :: n in privFns ==> HasName(n)
    ensures deps == DepsFor(fname, nameRefs, privFns, constants, pubNames)
  {
    var privates := TransitiveDeps(fname, nameRefs, privFns);
    var refs := CollectRefs(nameRefs, RefsOf(nameRefs, fname), KeyList(privates));
    var consts;
    ghost var expanded;
    consts, expanded := TransitiveConstants(constants, nameRefs, refs);
    var siblingRefs := RefsOf(nameRefs, fname) * pubNames - {fname};
    deps := FnDeps(privates, consts, siblingRefs);
  }

  /** `for p in needed_privates: helper_usage.setdefault(p.name, []).append(fname)`. */
  method RecordUsers(usage0: map<string, seq<string>>, helperNames: seq<string>, fname: string)
    returns (usage: map<string, seq<string>>)
    ensures usage == AddUser(usage0, helperNames, fname)
  {
    usage := usage0;
    for j := 0 to |helperNames|
      invariant usage == AddUser(usage0, helperNames[..j], fname)
    {
      assert helperNames[..j + 1][..j] == helperNames[..j];
      usage := usage[helperNames[j] := UsersOf(usage, helperNames[j]) + [fname]];
    }
    assert helperNames[..|helperNames|] == helperNames;
  }

  /** Every entry of `fn_deps` is the one pass 1 computes for its name. */
  ghost predicate DepsRecorded(fnDeps: map<string, FnDeps>, nameRefs: map<string, set<string>>,
                               privFns: seq<Stmt>, constants: seq<Stmt>, pubNames: set<string>)
  {
    forall k :: k in fnDeps ==> fnDeps[k] == DepsFor(k, nameRefs, privFns, constants, pubNames)
  }

  lemma HelperUsageStep(nodes: seq<Stmt>, i: nat, nameRefs: map<string, set<string>>, privFns: seq<Stmt>)
    requires i < |nodes|
    ensures HelperUsage(nodes[..i + 1], nameRefs, privFns) ==
      AddUser(HelperUsage(nodes[..i], nameRefs, privFns), KeyList(DepsSpec(Key(nodes[i]), nameRefs, privFns)), Key(nodes[i]))
  {
    assert nodes[..i + 1][..i] == nodes[..i];
  }

  lemma KeysStep(nodes: seq<Stmt>, i: nat)
    requires i < |nodes|
    ensures Keys(nodes[..i + 1]) == Keys(nodes[..i]) + {Key(nodes[i])}
  {
    assert nodes[..i + 1] == nodes[..i] + [nodes[i]];
  }

  lemma RecordStep(fnDeps: map<string, FnDeps>, k: string, deps: FnDeps, nameRefs: map<string, set<string>>,
                   privFns: seq<Stmt>, constants: seq<Stmt>, pubNames: set<string>)
    requires DepsRecorded(fnDeps, nameRefs, privFns, constants, pubNames)
    requires deps == DepsFor(k, nameRefs, privFns, constants, pubNames)
    ensures DepsRecorded(fnDeps[k := deps], nameRefs, privFns, constants, pubNames)
  {
  }

  /** The body of the pass-1 loop: record the entry of `pubFns[i]` and note it as a user of its helpers. */
  method PassOneStep(pubFns: seq<Stmt>, i: nat, privFns: seq<Stmt>, constants: seq<Stmt>,
                     nameRefs: map<string, set<string>>, pubNames: set<string>,
                     fnDeps0: map<string, FnDeps>, usage0: map<string, seq<string>>)
    returns (fnDeps: map<string, FnDeps>, usage: map<string, seq<string>>)
    requires i < |pubFns|
    requires forall n :: n in privFns ==> HasName(n)
    requires fnDeps0.Keys == Keys(pubFns[..i])
    requires DepsRecorded(fnDeps0, nameRefs, privFns, constants, pubNames)
    requires usage0 == HelperUsage(pubFns[..i], nameRefs, privFns)
    ensures fnDeps.Keys == Keys(pubFns[..i + 1])
    ensures DepsRecorded(fnDeps, nameRefs, privFns, constants, pubNames)
    ensures usage == HelperUsage(pubFns[..i + 1], nameRefs, privFns)
  {
    var fname := Key(pubFns[i]);
    var deps := FunctionDeps(fname, privFns, constants, nameRefs, pubNames);
    KeysStep(pubFns, i);
    RecordStep(fnDeps0, fname, deps, nameRefs, privFns, constants, pubNames);
    fnDeps := fnDeps0[fname := deps];
    HelperUsageStep(pubFns, i, nameRefs, privFns);
    usage := RecordUsers(usage0, KeyList(deps.privates), fname);
  }

  /**
   * Pass 1 of `stub`: for each public function, its helpers, constants and
   * sibling references, and for each helper the public functions that need it.
   */
  method PassOne(pubFns: seq<Stmt>, privFns: seq<Stmt>, constants: seq<Stmt>, nameRefs: map<string, set<string>>)
    returns (fnDeps: map<string, FnDeps>, usage: map<string, seq<string>>)
    requires forall n :: n in privFns ==> HasName(n)
    ensures fnDeps.Keys == Keys(pubFns)
    ensures forall f :: f in pubFns ==> fnDeps[Key(f)] == DepsFor(Key(f), nameRefs, privFns, constants, Keys(pubFns))
    ensures usage == HelperUsage(pubFns, nameRefs, privFns)
  {
    var pubNames := set f | f in pubFns :: Key(f);
    assert pubNames == Keys(pubFns);
    fnDeps := map[];
    usage := map[];
    for i := 0 to |pubFns|
      invariant fnDeps.Keys == Keys(pubFns[..i])
      invariant DepsRecorded(fnDeps, nameRefs, privFns, constants, pubNames)
      invariant usage == HelperUsage(pubFns[..i], nameRefs, privFns)
    {
      fnDeps, usage := PassOneStep(pubFns, i, privFns, constants, nameRefs, pubNames, fnDeps, usage);
    }
    assert pubFns[..|pubFns|] == pubFns;
    forall f | f in pubFns ensures fnDeps[Key(f)] == DepsFor(Key(f), nameRefs, privFns, constants, Keys(pubFns)) {
      assert Key(f) in fnDeps;
    }
  }

  // ---------------------------------------------------------------------
  // Shared helpers
  // ---------------------------------------------------------------------

  /** Public function `f` needs helper `h`: `h` is a private function reachable from `f`. */
  ghost predicate NeedsHelper(nameRefs: map<string, set<string>>, privFns: seq<Stmt>, f: Stmt, h: string)
  {
    h in Keys(privFns) && Reaches(nameRefs, Keys(privFns), Key(f), h)
  }

  /** The keys of the nodes of `nodes` that satisfy `p`, in order. */
  ghost function Matching(nodes: seq<Stmt>, p: Stmt -> bool): seq<string>
  {
    if nodes == [] then []
    else
      var n := nodes[|nodes| - 1];
      Matching(nodes[..|nodes| - 1], p) + (if p(n) then [Key(n)] else [])
  }

  /** A name is listed exactly when some node with that key satisfies `p`. */
  lemma {:induction false} MatchingMembers(nodes: seq<Stmt>, p: Stmt -> bool, x: string)
    ensures x in Matching(nodes, p) <==> exists n :: n in nodes && p(n) && Key(n) == x
    decreases |nodes|
  {
    if nodes != [] {
      var init := nodes[..|nodes| - 1];
      var last := nodes[|nodes| - 1];
      MatchingMembers(init, p, x);
      assert nodes == init + [last];
      if exists n :: n in nodes && p(n) && Key(n) == x {
        var n :| n in nodes && p(n) && Key(n) == x;
        if n != last {
          assert n in init;
        }
      }
    }
  }

  /** Some node matches exactly when some key is listed, and two do exactly when two keys are. */
  lemma MatchingCount(nodes: seq<Stmt>, p: Stmt -> bool)
    ensures |Matching(nodes, p)| > 0 <==> exists i :: 0 <= i < |nodes| && p(nodes[i])
    ensures |Matching(nodes, p)| > 1 <==> exists i, j :: 0 <= i < j < |nodes| && p(nodes[i]) && p(nodes[j])
  {
    MatchingSome(nodes, p);
    MatchingTwo(nodes, p);
  }

  lemma {:induction false} MatchingSome(nodes: seq<Stmt>, p: Stmt -> bool)
    ensures |Matching(nodes, p)| > 0 <==> exists i :: 0 <= i < |nodes| && p(nodes[i])
    decreases |nodes|
  {
    if nodes != [] {
      var n := |nodes| - 1;
      var init := nodes[..n];
      MatchingSome(init, p);
      if exists i :: 0 <= i < |nodes| && p(nodes[i]) {
        var i :| 0 <= i < |nodes| && p(nodes[i]);
        if i < n {
          assert p(init[i]);
        }
      }
      if |Matching(init, p)| > 0 {
        var i :| 0 <= i < n && p(init[i]);
        assert nodes[i] == init[i];
      }
    }
  }

  lemma MatchingTwo(nodes: seq<Stmt>, p: Stmt -> bool)
    ensures |Matching(nodes, p)| > 1 <==> exists i, j :: 0 <= i < j < |nodes| && p(nodes[i]) && p(nodes[j])
  {
    if exists i, j :: 0 <= i < j < |nodes| && p(nodes[i]) && p(nodes[j]) {
      var i, j :| 0 <= i < j < |nodes| && p(nodes[i]) && p(nodes[j]);
      MatchingTwoIf(nodes, p, i, j);
    }
    MatchingTwoOnlyIf(nodes, p);
  }

  lemma {:induction false} MatchingTwoIf(nodes: seq<Stmt>, p: Stmt -> bool, i: nat, j: nat)
    requires i < j < |nodes| && p(nodes[i]) && p(nodes[j])
    ensures |Matching(nodes, p)| > 1
    decreases |nodes|
  {
    var n := |nodes| - 1;
    var init := nodes[..n];
    assert init[i] == nodes[i];
    if j < n {
      assert init[j] == nodes[j];
      MatchingTwoIf(init, p, i, j);
    } else {
      MatchingSome(init, p);
    }
  }

  lemma {:induction false} MatchingTwoOnlyIf(nodes: seq<Stmt>, p: Stmt -> bool)
    ensures |Matching(nodes, p)| > 1 ==> exists i, j :: 0 <= i < j < |nodes| && p(nodes[i]) && p(nodes[j])
    decreases |nodes|
  {
    if nodes != [] && |Matching(nodes, p)| > 1 {
      var n := |nodes| - 1;
      var init := nodes[..n];
      if |Matching(init, p)| > 1 {
        MatchingTwoOnlyIf(init, p);
        var i, j :| 0 <= i < j < n && p(init[i]) && p(init[j]);
        assert nodes[i] == init[i] && nodes[j] == init[j];
      } else {
        MatchingSome(init, p);
        var i :| 0 <= i < n && p(init[i]);
        assert nodes[i] == init[i] && p(nodes[n]);
      }
    }
  }

  /** The names of the functions of `pubFns` that need `h`, in order. */
  ghost function UsersSpec(pubFns: seq<Stmt>, nameRefs: map<string, set<string>>, privFns: seq<Stmt>, h: string): seq<string>
  {
    Matching(pubFns, f => NeedsHelper(nameRefs, privFns, f, h))
  }

  lemma {:induction false} AddUserEffect(usage: map<string, seq<string>>, helpers: seq<string>, user: string, h: string)
    requires NoDuplicates(helpers)
    ensures UsersOf(AddUser(usage, helpers, user), h) == UsersOf(usage, h) + (if h in helpers then [user] else [])
    decreases |helpers|
  {
    if helpers != [] {
      var init := helpers[..|helpers| - 1];
      assert NoDuplicates(init) by {
        forall i, j | 0 <= i < j < |init| ensures init[i] != init[j] {
          assert init[i] == helpers[i] && init[j] == helpers[j];
        }
      }
      AddUserEffect(usage, init, user, h);
      assert helpers == init + [helpers[|helpers| - 1]];
      if h == helpers[|helpers| - 1] {
        assert h !in init;
      }
    }
  }

  lemma KeyListDistinct(nodes: seq<Stmt>)
    requires DistinctKeys(nodes)
    ensures NoDuplicates(KeyList(nodes))
  {
  }

  lemma KeyListMembers(nodes: seq<Stmt>, h: string)
    ensures h in KeyList(nodes) <==> exists n :: n in nodes && Key(n) == h
  {
    if h in KeyList(nodes) {
      var i :| 0 <= i < |nodes| && KeyList(nodes)[i] == h;
      assert nodes[i] in nodes;
    }
    if exists n :: n in nodes && Key(n) == h {
      var n :| n in nodes && Key(n) == h;
      var i :| 0 <= i < |nodes| && nodes[i] == n;
      assert KeyList(nodes)[i] == h;
    }
  }

  /** A helper is among the private helpers listed for `f` exactly when `f` needs it. */
  lemma NeedsHelperListed(nameRefs: map<string, set<string>>, privFns: seq<Stmt>, f: Stmt, h: string)
    ensures h in KeyList(DepsSpec(Key(f), nameRefs, privFns)) <==> NeedsHelper(nameRefs, privFns, f, h)
  {
    KeyListMembers(DepsSpec(Key(f), nameRefs, privFns), h);
  }

  /** With distinct helper names, a function's helper list names each helper once. */
  lemma DepsKeysDistinct(fname: string, nameRefs: map<string, set<string>>, privFns: seq<Stmt>)
    requires DistinctKeys(privFns)
    ensures NoDuplicates(KeyList(DepsSpec(fname, nameRefs, privFns)))
  {
    FilterKeepsKeysDistinct(privFns, KeyIn(ReachableFrom(nameRefs, Keys(privFns), fname)));
    KeyListDistinct(DepsSpec(fname, nameRefs, privFns));
  }

  /**
   * With distinct helper names, `helper_usage[h]` lists, in order, exactly the
   * public functions that need `h`, each once.
   */
  lemma {:induction false} HelperUsageLists(pubFns: seq<Stmt>, nameRefs: map<string, set<string>>, privFns: seq<Stmt>, h: string)
    requires DistinctKeys(privFns)
    ensures UsersOf(HelperUsage(pubFns, nameRefs, privFns), h) == UsersSpec(pubFns, nameRefs, privFns, h)
    decreases |pubFns|
  {
    if pubFns != [] {
      var init := pubFns[..|pubFns| - 1];
      var f := pubFns[|pubFns| - 1];
      HelperUsageLists(init, nameRefs, privFns, h);
      DepsKeysDistinct(Key(f), nameRefs, privFns);
      AddUserEffect(HelperUsage(init, nameRefs, privFns), KeyList(DepsSpec(Key(f), nameRefs, privFns)), Key(f), h);
      NeedsHelperListed(nameRefs, privFns, f, h);
    }
  }

  /**
   * A helper is shared exactly when at least two public functions need it
   * (given distinct helper names: a helper defined twice is recorded twice
   * for each function that needs it, and so counts as shared with one user).
   */
  lemma SharedIffTwoUsers(pubFns: seq<Stmt>, nameRefs: map<string, set<string>>, privFns: seq<Stmt>, h: string)
    requires DistinctKeys(privFns)
    ensures h in SharedSet(HelperUsage(pubFns, nameRefs, privFns)) <==>
      exists i, j :: 0 <= i < j < |pubFns| && NeedsHelper(nameRefs, privFns, pubFns[i], h) && NeedsHelper(nameRefs, privFns, pubFns[j], h)
  {
    HelperUsageLists(pubFns, nameRefs, privFns, h);
    MatchingCount(pubFns, f => NeedsHelper(nameRefs, privFns, f, h));
  }
}
