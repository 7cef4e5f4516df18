/**
 * Reference analysis: the identifiers a top-level statement touches
 * (`_names_used`) and the table from each name to its references that `stub`
 * builds over public functions, private functions and constants.
 */
module NameRefs {
  import opened PyAst

  /**
   * `_names_used`: walks every node below `node`, adding the id of each `Name`
   * and, for each `Attribute` chain, the id of its root when that root is a
   * `Name`. The result is exactly the set of `Name` ids below `node`: the root
   * of an attribute chain is itself a `Name` node of the walk, and the
   * attributes along the chain are never recorded.
   */
  method NamesUsed(node: Stmt) returns (names: set<string>)
    ensures names == NameIds(node)
  {
    names := {};
    var walk := Walk(node);
    for i := 0 to |walk|
      invariant NameIdsIn(walk[..i]) <= names <= NameIdsIn(walk)
    {
      var child := walk[i];
      if child.Name? {
        names := names + {child.id};
      } else if child.Attribute? {
        var root := child;
        while root.Attribute?
          invariant root in Subnodes(child)
          decreases root
        {
          assert root.value in Subnodes(root);
          SubnodesClosed(child, root, root.value);
          root := root.value;
        }
        if root.Name? {
          SubnodesOfAllClosed(Children(node), child, root);
          names := names + {root.id};
        }
      }
      assert walk[..i + 1] == walk[..i] + [child];
    }
    assert walk[..|walk|] == walk;
  }

  /** `name_refs.get(name, set())`. */
  function RefsOf(nameRefs: map<string, set<string>>, name: string): set<string>
  {
    if name in nameRefs then nameRefs[name] else {}
  }

  /** The table `stub` builds: each node's key mapped to its names, a later node overriding an earlier one. */
  function NameRefsOf(nodes: seq<Stmt>): map<string, set<string>>
  {
    if nodes == [] then map[]
    else NameRefsOf(nodes[..|nodes| - 1])[Key(nodes[|nodes| - 1]) := NameIds(nodes[|nodes| - 1])]
  }

  /** The table holds exactly the keys of the nodes, each bound to the names of the LAST node with that key. */
  lemma {:induction false} NameRefsLastWins(nodes: seq<Stmt>, i: int)
    requires 0 <= i < |nodes|
    requires forall j :: i < j < |nodes| ==> Key(nodes[j]) != Key(nodes[i])
    ensures Key(nodes[i]) in NameRefsOf(nodes)
    ensures NameRefsOf(nodes)[Key(nodes[i])] == NameIds(nodes[i])
    decreases |nodes|
  {
    if i < |nodes| - 1 {
      var init := nodes[..|nodes| - 1];
      assert init[i] == nodes[i];
      NameRefsLastWins(init, i);
    }
  }

  lemma {:induction false} NameRefsKeys(nodes: seq<Stmt>)
    ensures NameRefsOf(nodes).Keys == Keys(nodes)
    decreases |nodes|
  {
    if nodes != [] {
      var init := nodes[..|nodes| - 1];
      NameRefsKeys(init);
      assert nodes == init + [nodes[|nodes| - 1]];
      assert Keys(nodes) == Keys(init) + {Key(nodes[|nodes| - 1])};
    }
  }

  /** The loop of `stub` that fills `name_refs` from `pub_fns + priv_fns + constants`. */
  method BuildNameRefs(allNodes: seq<Stmt>) returns (nameRefs: map<string, set<string>>)
    ensures nameRefs == NameRefsOf(allNodes)
    ensures nameRefs.Keys == Keys(allNodes)
  {
    nameRefs := map[];
    for i := 0 to |allNodes|
      invariant nameRefs == NameRefsOf(allNodes[..i])
    {
      var node := allNodes[i];
      var used := NamesUsed(node);
      assert allNodes[..i + 1][..i] == allNodes[..i];
      nameRefs := nameRefs[Key(node) := used];
    }
    assert allNodes[..|allNodes|] == allNodes;
    NameRefsKeys(allNodes);
  }
}
