/** The rolling-update order of the node groups. */
module Ordering {
  import opened Cluster
  import opened Basics

  const SERVICE_ORDER: seq<string> :=
    ["historical", "overlord", "middleManager", "indexer", "broker", "coordinator", "router"]

  type Nodes = map<string, NodeSpec>

  /** `iter` visits every key of the node map once: one possible Go map iteration. */
  ghost predicate Enumerates(iter: seq<string>, keys: set<string>) {
    && NoRepeats(iter)
    && (forall k :: k in iter <==> k in keys)
  }

  /** Position of a node type in the order; unknown types come after all of them. */
  function Rank(nodeType: string): nat {
    IndexFrom(SERVICE_ORDER, nodeType)
  }

  function IndexFrom(types: seq<string>, t: string): (i: nat)
    ensures i <= |types|
    ensures i < |types| ==> types[i] == t
    ensures forall j :: 0 <= j < i ==> types[j] != t
  {
    if types == [] || types[0] == t then 0 else 1 + IndexFrom(types[1..], t)
  }

  /** A node the rollout visits: its type is one of the seven. */
  predicate Known(m: Druid, key: string) {
    key in m.nodes && Rank(m.nodes[key].nodeType) < |SERVICE_ORDER|
  }

  function NodeRank(m: Druid, key: string): nat
    requires key in m.nodes
  {
    Rank(m.nodes[key].nodeType)
  }

  function KnownKeys(m: Druid): set<string> { set k | k in m.nodes && Known(m, k) }

  /** The keys of type `t`, in iteration order. */
  function OfType(nodes: Nodes, iter: seq<string>, t: string): (r: seq<string>)
    requires forall k :: k in iter ==> k in nodes
    ensures forall k :: k in r <==> k in iter && nodes[k].nodeType == t
  {
    if iter == [] then [] else
      var last := iter[|iter| - 1];
      var rest := OfType(nodes, iter[..|iter| - 1], t);
      assert iter == iter[..|iter| - 1] + [last];
      if nodes[last].nodeType == t then rest + [last] else rest
  }

  /** The groups of `types`, one type after another. */
  function Grouped(nodes: Nodes, iter: seq<string>, types: seq<string>): (r: seq<string>)
    requires forall k :: k in iter ==> k in nodes
    ensures forall k :: k in r <==> k in iter && nodes[k].nodeType in types
  {
    if types == [] then [] else
      var last := types[|types| - 1];
      assert types == types[..|types| - 1] + [last];
      Grouped(nodes, iter, types[..|types| - 1]) + OfType(nodes, iter, last)
  }

  /** Group keys in rollout order for the iteration `iter`. */
  function Ordered(nodes: Nodes, iter: seq<string>): (r: seq<string>)
    requires forall k :: k in iter ==> k in nodes
    ensures forall k :: k in r ==> k in iter
  {
    Grouped(nodes, iter, SERVICE_ORDER)
  }

  function WithSpecs(nodes: Nodes, keys: seq<string>): seq<(string, NodeSpec)>
    requires forall k :: k in keys ==> k in nodes
  {
    seq(|keys|, i requires 0 <= i < |keys| => (keys[i], nodes[keys[i]]))
  }

  method GetNodeSpecsByOrder(nodes: Nodes, iter: seq<string>) returns (groups: seq<(string, NodeSpec)>)
    requires Enumerates(iter, nodes.Keys)
    ensures groups == WithSpecs(nodes, Ordered(nodes, iter))
  {
    var byType := GroupByType(nodes, iter, SERVICE_ORDER);
    groups := Concatenate(nodes, iter, SERVICE_ORDER, byType);
  }

  lemma NothingYet(nodes: Nodes)
    ensures WithSpecs(nodes, []) == []
  {
  }

  /** The next key joins the list of its own type and no other. */
  lemma OneMoreKey(nodes: Nodes, iter: seq<string>, i: nat, t: string)
    requires i < |iter| && forall k :: k in iter ==> k in nodes
    ensures OfType(nodes, iter[..i + 1], t) ==
            OfType(nodes, iter[..i], t) + if nodes[iter[i]].nodeType == t then [iter[i]] else []
    ensures WithSpecs(nodes, OfType(nodes, iter[..i + 1], t)) ==
            WithSpecs(nodes, OfType(nodes, iter[..i], t)) +
            if nodes[iter[i]].nodeType == t then [(iter[i], nodes[iter[i]])] else []
  {
    assert iter[..i + 1][..i] == iter[..i];
  }

  /** First loop: one list per node type, each grown in iteration order. */
  method GroupByType(nodes: Nodes, iter: seq<string>, types: seq<string>)
    returns (byType: map<string, seq<(string, NodeSpec)>>)
    requires forall k :: k in iter ==> k in nodes
    ensures forall t :: t in types ==> t in byType && byType[t] == WithSpecs(nodes, OfType(nodes, iter, t))
  {
    byType := map t | t in types :: [];
    for i := 0 to |iter|
      invariant forall t :: t in types ==> t in byType
      invariant forall t :: t in byType ==> byType[t] == WithSpecs(nodes, OfType(nodes, iter[..i], t))
      invariant forall t :: t !in byType ==> OfType(nodes, iter[..i], t) == []
    {
      hide OfType, WithSpecs;
      var key := iter[i];
      var spec := nodes[key];
      var sofar := if spec.nodeType in byType then byType[spec.nodeType] else [];
      NothingYet(nodes);
      forall t: string { OneMoreKey(nodes, iter, i, t); }
      byType := byType[spec.nodeType := sofar + [(key, spec)]];
    }
    assert iter[..|iter|] == iter;
  }

  /** Second loop: the lists of the known types, in rollout order. */
  method Concatenate(nodes: Nodes, iter: seq<string>, types: seq<string>, byType: map<string, seq<(string, NodeSpec)>>)
    returns (groups: seq<(string, NodeSpec)>)
    requires forall k :: k in iter ==> k in nodes
    requires forall t :: t in types ==> t in byType && byType[t] == WithSpecs(nodes, OfType(nodes, iter, t))
    ensures groups == WithSpecs(nodes, Grouped(nodes, iter, types))
  {
    groups := [];
    for i := 0 to |types|
      invariant groups == WithSpecs(nodes, Grouped(nodes, iter, types[..i]))
    {
      assert types[..i + 1][..i] == types[..i];
      groups := groups + byType[types[i]];
    }
    assert types[..|types|] == types;
  }

  /** `a` stands before `b` in `s`. */
  predicate Before(s: seq<string>, a: string, b: string) {
    exists i, j :: 0 <= i < j < |s| && s[i] == a && s[j] == b
  }

  lemma {:induction false} OfTypeStable(nodes: Nodes, iter: seq<string>, t: string)
    requires forall k :: k in iter ==> k in nodes
    requires NoRepeats(iter)
    ensures NoRepeats(OfType(nodes, iter, t))
    ensures forall a, b :: Before(OfType(nodes, iter, t), a, b) ==> Before(iter, a, b)
  {
    if iter != [] {
      var n := |iter| - 1;
      var front := iter[..n];
      OfTypeStable(nodes, front, t);
      var f, r := OfType(nodes, front, t), OfType(nodes, iter, t);
      assert iter[n] !in front;
      forall a, b | Before(r, a, b) ensures Before(iter, a, b) {
        var i, j :| 0 <= i < j < |r| && r[i] == a && r[j] == b;
        if j < |f| {
          assert Before(f, a, b);
          var x, y :| 0 <= x < y < n && front[x] == a && front[y] == b;
          assert iter[x] == a && iter[y] == b;
        } else {
          assert a in front;
          var x :| 0 <= x < n && front[x] == a;
          assert iter[x] == a && iter[n] == b;
        }
      }
    }
  }

  lemma {:induction false} GroupedByRank(nodes: Nodes, iter: seq<string>, types: seq<string>, n: nat)
    requires forall k :: k in iter ==> k in nodes
    requires NoRepeats(iter) && NoRepeats(types)
    requires n <= |types|
    ensures var r := Grouped(nodes, iter, types[..n]);
            && NoRepeats(r)
            && (forall k :: k in r ==> IndexFrom(types, nodes[k].nodeType) < n)
            && RanksAscend(nodes, types, r)
  {
    if n > 0 {
      GroupedByRank(nodes, iter, types, n - 1);
      var t := types[n - 1];
      assert IndexFrom(types, t) == n - 1;
      OfTypeStable(nodes, iter, t);
      assert types[..n][..n - 1] == types[..n - 1];
      var f, g := Grouped(nodes, iter, types[..n - 1]), OfType(nodes, iter, t);
      assert Grouped(nodes, iter, types[..n]) == f + g;
      hide Grouped, OfType, IndexFrom;
      RanksConcat(nodes, types, f, g, n - 1);
    }
  }

  predicate RanksAscend(nodes: Nodes, types: seq<string>, r: seq<string>)
    requires forall k :: k in r ==> k in nodes
  {
    forall i, j :: 0 <= i < j < |r| ==> IndexFrom(types, nodes[r[i]].nodeType) <= IndexFrom(types, nodes[r[j]].nodeType)
  }

  lemma RanksConcat(nodes: Nodes, types: seq<string>, f: seq<string>, g: seq<string>, n: nat)
    requires forall k :: k in f + g ==> k in nodes
    requires NoRepeats(f) && NoRepeats(g)
    requires forall k :: k in f ==> k in nodes && IndexFrom(types, nodes[k].nodeType) < n
    requires forall k :: k in g ==> k in nodes && IndexFrom(types, nodes[k].nodeType) == n
    requires RanksAscend(nodes, types, f)
    ensures NoRepeats(f + g) && RanksAscend(nodes, types, f + g)
    ensures forall k :: k in f + g ==> IndexFrom(types, nodes[k].nodeType) < n + 1
  {
    hide IndexFrom;
    var r := f + g;
    assert forall i :: 0 <= i < |f| ==> r[i] == f[i] && r[i] in f;
    assert forall i :: |f| <= i < |r| ==> r[i] == g[i - |f|] && r[i] in g;
  }

  lemma {:induction false} GroupedStable(nodes: Nodes, iter: seq<string>, types: seq<string>, a: string, b: string)
    requires forall k :: k in iter ==> k in nodes
    requires NoRepeats(iter) && NoRepeats(types)
    requires Before(Grouped(nodes, iter, types), a, b)
    requires nodes[a].nodeType == nodes[b].nodeType
    ensures Before(iter, a, b)
  {
    if types != [] {
      var n := |types| - 1;
      var f, g := Grouped(nodes, iter, types[..n]), OfType(nodes, iter, types[n]);
      var r := f + g;
      var i, j :| 0 <= i < j < |r| && r[i] == a && r[j] == b;
      if j < |f| {
        assert f[i] == a && f[j] == b;
        GroupedStable(nodes, iter, types[..n], a, b);
      } else {
        assert b == g[j - |f|] && b in g;
        assert g[i - |f|] == a && g[j - |f|] == b;
        assert Before(g, a, b);
        OfTypeStable(nodes, iter, types[n]);
      }
    }
  }

  /** The seven types, and the place of each. */
  lemma TypesInOrder()
    ensures Rank("historical") == 0 && Rank("overlord") == 1 && Rank("middleManager") == 2 && Rank("indexer") == 3
    ensures Rank("broker") == 4 && Rank("coordinator") == 5 && Rank("router") == 6 && |SERVICE_ORDER| == 7
  {
  }

  /** Whatever the map iteration: sorted by rank, every node of a known type once, no others, and
      nodes of one type in iteration order. */
  lemma OrderedIsStableSort(nodes: Nodes, iter: seq<string>)
    requires Enumerates(iter, nodes.Keys)
    ensures var r := Ordered(nodes, iter);
            && NoRepeats(r)
            && (forall k :: k in r <==> k in nodes && Rank(nodes[k].nodeType) < |SERVICE_ORDER|)
            && (forall i, j :: 0 <= i < j < |r| ==> Rank(nodes[r[i]].nodeType) <= Rank(nodes[r[j]].nodeType))
            && (forall a, b :: Before(r, a, b) && nodes[a].nodeType == nodes[b].nodeType ==> Before(iter, a, b))
  {
    var types := SERVICE_ORDER;
    assert types[..|types|] == types;
    assert NoRepeats(types);
    GroupedByRank(nodes, iter, types, |types|);
    var r := Ordered(nodes, iter);
    forall a, b | Before(r, a, b) && nodes[a].nodeType == nodes[b].nodeType ensures Before(iter, a, b) {
      GroupedStable(nodes, iter, types, a, b);
    }
    forall t: string ensures t in types <==> IndexFrom(types, t) < |types| {
      if IndexFrom(types, t) < |types| { assert types[IndexFrom(types, t)] == t; }
    }
  }
}
