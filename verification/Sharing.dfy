/** Cluster-level maps and probes are shared between nodes and filled in place. What that changes in the
    plan of a pass, and when it changes nothing. */
module Sharing {
  import opened Basics
  import opened Cluster
  import opened Deploy
  import opened Naming
  import opened Ordering

  /** The steps of the nodes, each built from the resource as the user gave it. */
  function NodesPlan(m: Druid, sha: Sha, keys: seq<string>): seq<Step>
    requires forall k :: k in keys ==> k in m.nodes
  {
    if keys == [] then [] else
      NodeSteps(m, sha, keys[0], m.nodes[keys[0]]) + NodesPlan(m, sha, keys[1..])
  }

  // What sharing never changes: names, kinds and ranks

  predicate SameSlot(s: Step, t: Step) {
    match s
    case Apply(d) => t.Apply? && d.body.id == t.d.body.id
    case Roll(d, rank) => t.Roll? && d.body.id == t.d.body.id && rank == t.rank
    case Finalizers(_) => t.Finalizers?
  }

  predicate SameFrame(a: seq<Step>, b: seq<Step>) {
    |a| == |b| && forall i :: 0 <= i < |a| ==> SameSlot(a[i], b[i])
  }

  /** `v` is `m` in the course of a pass. */
  predicate Alike(m: Druid, v: Druid) {
    && v == m.(services := v.services, probes := v.probes, annotations := v.annotations)
    && |v.services| == |m.services|
    && forall i :: 0 <= i < |m.services| ==> v.services[i].name == m.services[i].name
  }

  lemma AlikeVisited(m: Druid, v: Druid, sha: Sha, key: string, spec: NodeSpec)
    requires Alike(m, v)
    ensures Alike(m, Visited(v, sha, key, spec))
  {
    hide NodeService, Workload, NodeLabels, TouchedProbes;
  }

  lemma AlikeSteps(m: Druid, v: Druid, sha: Sha, key: string, spec: NodeSpec)
    requires Alike(m, v)
    ensures SameFrame(NodeSteps(v, sha, key, spec), NodeSteps(m, sha, key, spec))
  {
    var a, b := ServicesOf(v, spec), ServicesOf(m, spec);
    assert |a| == |b| && forall i :: 0 <= i < |a| ==> a[i].name == b[i].name;
    hide NodeLabels, WorkloadEnv, FirstServiceName, WorkloadProbes, NodeName, Rank, ServicesOf, Alike;
    assert v.name == m.name by { AlikeName(m, v); }
    FrameConcat([Apply(Stamped(sha, NodeConfig(v, key, spec)))], [Apply(Stamped(sha, NodeConfig(m, key, spec)))],
                ServiceSteps(v, sha, key, spec, a), ServiceSteps(m, sha, key, spec, b));
    ExtrasAlike(m, v, sha, key, spec);
    hide ExtraSteps;
    FrameConcat([RollStep(v, sha, key, spec)], [RollStep(m, sha, key, spec)],
                ExtraSteps(v, sha, key, spec), ExtraSteps(m, sha, key, spec));
    FrameOfNode(m, v, sha, key, spec);
  }

  lemma AlikeName(m: Druid, v: Druid)
    requires Alike(m, v)
    ensures v.name == m.name && v.nodes == m.nodes && GateOf(v) == GateOf(m)
  {
  }

  lemma ExtrasAlike(m: Druid, v: Druid, sha: Sha, key: string, spec: NodeSpec)
    requires v.name == m.name
    ensures SameFrame(ExtraSteps(v, sha, key, spec), ExtraSteps(m, sha, key, spec))
  {
    hide NodeLabels, NodeName;
  }

  lemma FrameConcat(a: seq<Step>, b: seq<Step>, c: seq<Step>, d: seq<Step>)
    requires SameFrame(a, b) && SameFrame(c, d)
    ensures SameFrame(a + c, b + d)
  {
    hide SameSlot;
  }

  lemma FrameOfNode(m: Druid, v: Druid, sha: Sha, key: string, spec: NodeSpec)
    requires var a, b := ServicesOf(v, spec), ServicesOf(m, spec);
             SameFrame([Apply(Stamped(sha, NodeConfig(v, key, spec)))] + ServiceSteps(v, sha, key, spec, a),
                       [Apply(Stamped(sha, NodeConfig(m, key, spec)))] + ServiceSteps(m, sha, key, spec, b))
    requires SameFrame([RollStep(v, sha, key, spec)] + ExtraSteps(v, sha, key, spec),
                       [RollStep(m, sha, key, spec)] + ExtraSteps(m, sha, key, spec))
    ensures SameFrame(NodeSteps(v, sha, key, spec), NodeSteps(m, sha, key, spec))
  {
    hide SameFrame, NodeConfig, ServiceSteps, RollStep, ExtraSteps, ServicesOf;
    var c, d := [Apply(Stamped(sha, NodeConfig(v, key, spec)))], [Apply(Stamped(sha, NodeConfig(m, key, spec)))];
    var x := ServiceSteps(v, sha, key, spec, ServicesOf(v, spec));
    var y := ServiceSteps(m, sha, key, spec, ServicesOf(m, spec));
    var r, t := [RollStep(v, sha, key, spec)] + ExtraSteps(v, sha, key, spec),
                [RollStep(m, sha, key, spec)] + ExtraSteps(m, sha, key, spec);
    FrameConcat(c + x, d + y, r, t);
    assert NodeSteps(v, sha, key, spec) == c + x + r && NodeSteps(m, sha, key, spec) == d + y + t;
  }

  /** Whatever is shared, a pass plans the same names, kinds and ranks in the same places. */
  lemma {:induction false} VisitsFrame(m: Druid, v: Druid, sha: Sha, keys: seq<string>)
    requires Alike(m, v) && forall k :: k in keys ==> k in m.nodes
    ensures SameFrame(VisitsPlan(v, sha, keys), NodesPlan(m, sha, keys))
    decreases |keys|
  {
    hide Alike, NodeSteps, SameFrame;
    AlikeName(m, v);
    if keys != [] {
      var key, spec := keys[0], m.nodes[keys[0]];
      AlikeVisited(m, v, sha, key, spec);
      AlikeSteps(m, v, sha, key, spec);
      VisitsFrame(m, Visited(v, sha, key, spec), sha, keys[1..]);
      FrameConcat(NodeSteps(v, sha, key, spec), NodeSteps(m, sha, key, spec),
                  VisitsPlan(Visited(v, sha, key, spec), sha, keys[1..]), NodesPlan(m, sha, keys[1..]));
    } else {
      assert SameFrame([], []) by { EmptyFrame(); }
    }
  }

  lemma EmptyFrame()
    ensures SameFrame([], [])
  {
  }

  /** Known nodes, each at most once, ranks ascending. */
  ghost predicate VisitOrder(m: Druid, keys: seq<string>) {
    && NoRepeats(keys) && (forall k :: k in keys ==> k in KnownKeys(m))
    && forall i, j :: 0 <= i < j < |keys| && keys[i] in m.nodes && keys[j] in m.nodes ==>
         NodeRank(m, keys[i]) <= NodeRank(m, keys[j])
  }

  /** A pass visits every known node, in such an order. */
  lemma OrderedVisits(m: Druid, iter: seq<string>)
    requires Enumerates(iter, m.nodes.Keys)
    ensures VisitOrder(m, Ordered(m.nodes, iter))
    ensures forall k :: k in Ordered(m.nodes, iter) <==> k in KnownKeys(m)
  {
    OrderedIsStableSort(m.nodes, iter);
    hide Rank, Ordered;
  }

  lemma KnownIsNode(m: Druid)
    ensures forall k :: k in KnownKeys(m) ==> k in m.nodes
  {
  }

  // What a node gets

  /** The resource in memory when the visits `keys` come to `key`. */
  function AtVisit(m: Druid, sha: Sha, keys: seq<string>, key: string): Druid
    requires forall k :: k in keys ==> k in m.nodes
    decreases |keys|
  {
    if keys == [] || keys[0] == key then m
    else AtVisit(Visited(m, sha, keys[0], m.nodes[keys[0]]), sha, keys[1..], key)
  }

  /** The steps a node gets in the visits `keys`. */
  function StepsIn(m: Druid, sha: Sha, keys: seq<string>, key: string): seq<Step>
    requires key in m.nodes && forall k :: k in keys ==> k in m.nodes
  {
    NodeSteps(AtVisit(m, sha, keys, key), sha, key, m.nodes[key])
  }

  lemma {:induction false} BeforeAlike(m: Druid, v: Druid, sha: Sha, keys: seq<string>, key: string)
    requires Alike(m, v) && forall k :: k in keys ==> k in m.nodes
    ensures v.nodes == m.nodes && Alike(m, AtVisit(v, sha, keys, key))
    decreases |keys|
  {
    hide Alike;
    AlikeName(m, v);
    if keys != [] && keys[0] != key {
      AlikeVisited(m, v, sha, keys[0], m.nodes[keys[0]]);
      BeforeAlike(m, Visited(v, sha, keys[0], m.nodes[keys[0]]), sha, keys[1..], key);
    }
  }

  /** Visits that give every node what `o` gives it plan what `o` plans. */
  lemma {:induction false} VisitsByNode(m: Druid, o: Druid, sha: Sha, keys: seq<string>)
    requires NoRepeats(keys) && forall k :: k in keys ==> k in m.nodes && k in o.nodes
    requires forall k :: k in keys ==> StepsIn(m, sha, keys, k) == NodeSteps(o, sha, k, o.nodes[k])
    ensures VisitsPlan(m, sha, keys) == NodesPlan(o, sha, keys)
    decreases |keys|
  {
    hide NodeSteps, Visited;
    if keys != [] {
      var key, rest := keys[0], keys[1..];
      var after := Visited(m, sha, key, m.nodes[key]);
      assert StepsIn(m, sha, keys, key) == NodeSteps(m, sha, key, m.nodes[key]);
      forall k | k in rest ensures StepsIn(after, sha, rest, k) == NodeSteps(o, sha, k, o.nodes[k]) {
        assert k in keys && k != key;
        assert StepsIn(m, sha, keys, k) == StepsIn(after, sha, rest, k);
      }
      VisitsByNode(after, o, sha, rest);
    }
  }

  /** Every pass over `r` gives its nodes what the nodes of `m` get on their own: `m` says what `r` desires. */
  ghost predicate PlansAs(r: Druid, m: Druid, sha: Sha) {
    && SameOutside(r, m)
    && forall iter, key | Enumerates(iter, m.nodes.Keys) && key in KnownKeys(m)
         :: StepsIn(r, sha, Ordered(r.nodes, iter), key) == NodeSteps(m, sha, key, m.nodes[key])
  }

  /** The resources agree in everything but what their nodes get. */
  predicate SameOutside(r: Druid, m: Druid) {
    && r.name == m.name && GateOf(r) == GateOf(m) && r.commonConfig == m.commonConfig
    && r.finalizersChange == m.finalizersChange && r.nodes.Keys == m.nodes.Keys && ValidSpec(r) == ValidSpec(m)
    && forall k :: k in m.nodes ==> r.nodes[k].nodeType == m.nodes[k].nodeType
  }

  lemma {:induction false} SameTypesSameGroups(a: Nodes, b: Nodes, iter: seq<string>, t: string)
    requires forall k :: k in iter ==> k in a && k in b && a[k].nodeType == b[k].nodeType
    ensures OfType(a, iter, t) == OfType(b, iter, t)
  {
    if iter != [] {
      var n := |iter| - 1;
      assert iter[n] in iter && forall k :: k in iter[..n] ==> k in iter;
      SameTypesSameGroups(a, b, iter[..n], t);
    }
  }

  lemma {:induction false} SameTypesSameOrder(a: Nodes, b: Nodes, iter: seq<string>, types: seq<string>)
    requires forall k :: k in iter ==> k in a && k in b && a[k].nodeType == b[k].nodeType
    ensures Grouped(a, iter, types) == Grouped(b, iter, types)
  {
    if types != [] {
      SameTypesSameGroups(a, b, iter, types[|types| - 1]);
      SameTypesSameOrder(a, b, iter, types[..|types| - 1]);
    }
  }

  /** So every pass over `r` runs the plan of `m`. */
  lemma PlanOfPlansAs(r: Druid, m: Druid, sha: Sha, iter: seq<string>)
    requires PlansAs(r, m, sha) && Enumerates(iter, m.nodes.Keys)
    ensures Ordered(r.nodes, iter) == Ordered(m.nodes, iter)
    ensures VisitsPlan(r, sha, Ordered(r.nodes, iter)) == NodesPlan(m, sha, Ordered(m.nodes, iter))
  {
    hide NodeSteps, ValidSpec, Grouped, VisitsPlan, NodesPlan, StepsIn, Known, GateOf, NodeRank;
    SameTypesSameOrder(r.nodes, m.nodes, iter, SERVICE_ORDER);
    OrderedVisits(m, iter);
    KnownIsNode(m);
    VisitsByNode(r, m, sha, Ordered(m.nodes, iter));
  }

  // When all iterations agree

  /** Every iteration gives every node the same. */
  ghost predicate OrderFree(m: Druid, sha: Sha) {
    forall iter1, iter2, key
      | Enumerates(iter1, m.nodes.Keys) && Enumerates(iter2, m.nodes.Keys) && key in KnownKeys(m)
      :: StepsIn(m, sha, Ordered(m.nodes, iter1), key) == StepsIn(m, sha, Ordered(m.nodes, iter2), key)
  }

  /** A node with everything it shares written into its own spec. */
  function OwnSpec(v: Druid, spec: NodeSpec): NodeSpec {
    spec.(services := Some(ServicesOf(v, spec)), probes := WorkloadProbes(v, spec),
          annotations := OrEmpty(v.annotations) + spec.annotations)
  }

  /** The resource with everything shared handed out to the nodes as the visits `keys` do. */
  function HandedOut(m: Druid, sha: Sha, keys: seq<string>): Druid
    requires forall k :: k in keys ==> k in m.nodes
  {
    m.(services := [], annotations := None, probes := Probes(None, None, None),
       nodes := map k | k in m.nodes :: OwnSpec(AtVisit(m, sha, keys, k), m.nodes[k]))
  }

  lemma HandedOutSteps(m: Druid, h: Druid, v: Druid, sha: Sha, key: string, spec: NodeSpec)
    requires Alike(m, v) && h.annotations == None && h.probes == Probes(None, None, None)
    requires h == m.(services := h.services, annotations := h.annotations, probes := h.probes, nodes := h.nodes)
    ensures NodeSteps(h, sha, key, OwnSpec(v, spec)) == NodeSteps(v, sha, key, spec)
  {
    var own := OwnSpec(v, spec);
    assert NodeLabels(h, key, own) == NodeLabels(v, key, spec);
    assert NodeConfig(h, key, own) == NodeConfig(v, key, spec) && CommonConfig(h) == CommonConfig(v);
    assert WorkloadProbes(h, own) == WorkloadProbes(v, spec);
    var services := ServicesOf(v, spec);
    assert ServicesOf(h, own) == services;
    hide NodeLabels, NodeConfig, CommonConfig, WorkloadProbes, ServicesOf, NodeName, Rank;
    forall i | 0 <= i < |services|
      ensures NodeService(h, key, own, services[i]) == NodeService(v, key, spec, services[i])
    {
    }
    assert ServiceSteps(h, sha, key, own, services) == ServiceSteps(v, sha, key, spec, services);
    assert OrEmpty(h.annotations) + own.annotations == own.annotations;
    assert Workload(h, sha, key, own) == Workload(v, sha, key, spec);
    assert ExtraSteps(h, sha, key, own) == ExtraSteps(v, sha, key, spec);
  }

  lemma {:induction false} EnumerationExists(keys: set<string>) returns (iter: seq<string>)
    ensures Enumerates(iter, keys)
  {
    iter := [];
    if keys != {} {
      var k :| k in keys;
      var rest := EnumerationExists(keys - {k});
      iter := [k] + rest;
    }
  }

  lemma HandedOutOutside(m: Druid, sha: Sha, keys: seq<string>)
    requires forall k :: k in keys ==> k in m.nodes
    ensures SameOutside(m, HandedOut(m, sha, keys)) && KnownKeys(HandedOut(m, sha, keys)) == KnownKeys(m)
  {
    hide WorkloadProbes, ServicesOf, AtVisit, KeyAccepted, Rank;
    var h := HandedOut(m, sha, keys);
    assert forall k :: k in m.nodes ==> h.nodes[k].nodeType == m.nodes[k].nodeType;
    assert forall k :: k in m.nodes ==> h.nodes[k].image == m.nodes[k].image;
    hide HandedOut;
    assert h.nodes.Keys == m.nodes.Keys && h.image == m.image;
    SameImagesSameVerdict(m, h);
  }

  lemma SameImagesSameVerdict(r: Druid, m: Druid)
    requires r.nodes.Keys == m.nodes.Keys && r.image == m.image
    requires forall k :: k in m.nodes ==> r.nodes[k].image == m.nodes[k].image
    ensures ValidSpec(r) == ValidSpec(m)
  {
    hide KeyAccepted;
    assert forall k :: k in r.nodes <==> k in m.nodes;
  }

  lemma HandedOutNode(m: Druid, sha: Sha, keys: seq<string>, key: string)
    requires key in m.nodes && forall k :: k in keys ==> k in m.nodes
    ensures key in HandedOut(m, sha, keys).nodes
    ensures var h := HandedOut(m, sha, keys); NodeSteps(h, sha, key, h.nodes[key]) == StepsIn(m, sha, keys, key)
  {
    hide NodeSteps, OwnSpec, Alike, AtVisit;
    var h := HandedOut(m, sha, keys);
    assert Alike(m, m) by { AlikeItself(m); }
    BeforeAlike(m, m, sha, keys, key);
    HandedOutSteps(m, h, AtVisit(m, sha, keys, key), sha, key, m.nodes[key]);
  }

  lemma AlikeItself(m: Druid)
    ensures Alike(m, m)
  {
  }

  lemma HandedOutPlans(m: Druid, sha: Sha, iter: seq<string>)
    requires OrderFree(m, sha) && Enumerates(iter, m.nodes.Keys)
    ensures PlansAs(m, HandedOut(m, sha, Ordered(m.nodes, iter)), sha)
  {
    hide NodeSteps, Known, Ordered, HandedOut, StepsIn, ValidSpec, GateOf;
    var keys := Ordered(m.nodes, iter);
    HandedOutOutside(m, sha, keys);
    KnownIsNode(m);
    var h := HandedOut(m, sha, keys);
    forall other, key | Enumerates(other, h.nodes.Keys) && key in KnownKeys(h)
      ensures StepsIn(m, sha, Ordered(m.nodes, other), key) == NodeSteps(h, sha, key, h.nodes[key])
    {
      HandedOutNode(m, sha, keys, key);
      assert StepsIn(m, sha, Ordered(m.nodes, other), key) == StepsIn(m, sha, keys, key);
    }
  }

  lemma PlansAsOrderFree(m: Druid, o: Druid, sha: Sha)
    requires PlansAs(m, o, sha)
    ensures OrderFree(m, sha)
  {
    assert KnownKeys(m) == KnownKeys(o) by { hide Rank, ValidSpec, GateOf; }
    hide StepsIn, NodeSteps, Ordered, ValidSpec, GateOf, Known;
    KnownIsNode(o);
    forall iter1, iter2, key
      | Enumerates(iter1, m.nodes.Keys) && Enumerates(iter2, m.nodes.Keys) && key in KnownKeys(m)
      ensures StepsIn(m, sha, Ordered(m.nodes, iter1), key) == StepsIn(m, sha, Ordered(m.nodes, iter2), key)
    {
      assert StepsIn(m, sha, Ordered(m.nodes, iter1), key) == NodeSteps(o, sha, key, o.nodes[key]);
    }
  }

  /** Some resource says what all passes desire, exactly if all iterations give each node the same. */
  lemma OrderFreeExactly(m: Druid, sha: Sha)
    ensures (exists o :: PlansAs(m, o, sha)) <==> OrderFree(m, sha)
  {
    hide PlansAs, OrderFree;
    if OrderFree(m, sha) {
      var iter := EnumerationExists(m.nodes.Keys);
      HandedOutPlans(m, sha, iter);
    }
    if o :| PlansAs(m, o, sha) { PlansAsOrderFree(m, o, sha); }
  }

  /** No two known nodes are of one type. */
  predicate OnePerType(m: Druid) {
    forall a, b :: a in KnownKeys(m) && b in KnownKeys(m) && a != b ==> NodeRank(m, a) != NodeRank(m, b)
  }

  predicate RanksRise(m: Druid, keys: seq<string>) {
    && (forall k :: k in keys ==> k in m.nodes)
    && forall i, j :: 0 <= i < j < |keys| ==> NodeRank(m, keys[i]) < NodeRank(m, keys[j])
  }

  lemma RisingHead(m: Druid, a: seq<string>, b: seq<string>)
    requires RanksRise(m, a) && RanksRise(m, b) && a != [] && b != [] && a[0] in b && b[0] in a
    ensures a[0] == b[0]
  {
    hide NodeRank;
    var i :| 0 <= i < |b| && b[i] == a[0];
    var j :| 0 <= j < |a| && a[j] == b[0];
  }

  lemma RisingTail(m: Druid, a: seq<string>)
    requires RanksRise(m, a) && a != []
    ensures RanksRise(m, a[1..]) && forall k :: k in a[1..] <==> k in a && k != a[0]
  {
    hide NodeRank;
    assert a == [a[0]] + a[1..];
    assert forall i :: 0 < i < |a| ==> NodeRank(m, a[0]) < NodeRank(m, a[i]);
  }

  lemma {:induction false} OneRisingOrder(m: Druid, a: seq<string>, b: seq<string>)
    requires RanksRise(m, a) && RanksRise(m, b) && forall k :: k in a <==> k in b
    ensures a == b
  {
    hide RanksRise;
    assert (a != [] ==> a[0] in b) && (b != [] ==> b[0] in a);
    if a != [] {
      RisingHead(m, a, b);
      RisingTail(m, a);
      RisingTail(m, b);
      OneRisingOrder(m, a[1..], b[1..]);
      assert a == [a[0]] + a[1..] && b == [b[0]] + b[1..];
    }
  }

  /** With at most one node per type the order of visits is fixed, so whatever is shared all passes
      desire the same. */
  lemma OnePerTypeIsOrderFree(m: Druid, sha: Sha)
    requires OnePerType(m)
    ensures OrderFree(m, sha)
  {
    forall iter1, iter2 | Enumerates(iter1, m.nodes.Keys) && Enumerates(iter2, m.nodes.Keys)
      ensures Ordered(m.nodes, iter1) == Ordered(m.nodes, iter2)
    {
      RisingOrder(m, iter1);
      RisingOrder(m, iter2);
      hide Ordered, RanksRise, Known;
      OneRisingOrder(m, Ordered(m.nodes, iter1), Ordered(m.nodes, iter2));
    }
    hide StepsIn, Ordered;
  }

  lemma RisingOrder(m: Druid, iter: seq<string>)
    requires OnePerType(m) && Enumerates(iter, m.nodes.Keys)
    ensures RanksRise(m, Ordered(m.nodes, iter)) && forall k :: k in Ordered(m.nodes, iter) <==> k in KnownKeys(m)
  {
    OrderedIsStableSort(m.nodes, iter);
    hide Rank, Ordered;
  }
}
