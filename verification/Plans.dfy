/** What the plan of a pass looks like: which steps it holds, in which order, under which names. */
module Plans {
  import opened Cluster
  import opened Deploy
  import opened Basics
  import opened ExtraConfig
  import opened Naming
  import opened Ordering
  import opened Sharing

  function RollOf(m: Druid, sha: Sha, key: string): Step
    requires key in m.nodes
  {
    RollStep(m, sha, key, m.nodes[key])
  }

  function WorkloadOf(m: Druid, sha: Sha, key: string): Desired
    requires key in m.nodes
  {
    Stamped(sha, Workload(m, sha, key, m.nodes[key]))
  }

  predicate WellKinded(steps: seq<Step>) {
    forall i :: 0 <= i < |steps| ==>
      match steps[i]
      case Apply(d) => !IsWorkload(d.body.id.kind)
      case Roll(d, _) => IsWorkload(d.body.id.kind)
      case Finalizers(_) => true
  }

  predicate RollsDistinct(steps: seq<Step>) {
    forall i, j :: 0 <= i < j < |steps| && steps[i].Roll? && steps[j].Roll? ==> steps[i].d.body.id != steps[j].d.body.id
  }

  predicate RollsRanked(steps: seq<Step>) {
    forall i, j :: 0 <= i < j < |steps| && steps[i].Roll? && steps[j].Roll? ==> steps[i].rank <= steps[j].rank
  }

  lemma NodeStepsRoll(m: Druid, sha: Sha, key: string, spec: NodeSpec)
    ensures var steps := NodeSteps(m, sha, key, spec);
            && WellKinded(steps)
            && RollStep(m, sha, key, spec) in steps
            && (forall i :: 0 <= i < |steps| && steps[i].Roll? ==> steps[i] == RollStep(m, sha, key, spec))
            && (forall i, j :: 0 <= i < j < |steps| ==> !(steps[i].Roll? && steps[j].Roll?))
  {
    var steps := NodeSteps(m, sha, key, spec);
    var p := 1 + |ServicesOf(m, spec)|;
    var extras := ExtraSteps(m, sha, key, spec);
    ExtrasShape(m, sha, key, spec);
    hide ExtraSteps, NodeLabels, ServicesOf, WorkloadEnv, FirstServiceName, Rank;
    assert steps[p] == RollStep(m, sha, key, spec);
    assert forall i :: p < i < |steps| ==> steps[i] == extras[i - p - 1];
    assert forall i :: 0 < i < p ==>
           steps[i] == Apply(Stamped(sha, NodeService(m, key, spec, ServicesOf(m, spec)[i - 1])));
  }

  predicate RankedKeys(m: Druid, keys: seq<string>) {
    && (forall k :: k in keys ==> k in m.nodes)
    && NoRepeats(keys)
    && forall i, j :: 0 <= i < j < |keys| ==> NodeRank(m, keys[i]) <= NodeRank(m, keys[j])
  }

  lemma RollsConcat(a: seq<Step>, b: seq<Step>)
    requires WellKinded(a) && RollsDistinct(a) && RollsRanked(a)
    requires WellKinded(b) && RollsDistinct(b) && RollsRanked(b)
    requires forall s, t :: s in a && t in b && s.Roll? && t.Roll? ==> s.d.body.id != t.d.body.id && s.rank <= t.rank
    ensures WellKinded(a + b) && RollsDistinct(a + b) && RollsRanked(a + b)
  {
    var c := a + b;
    assert forall i :: 0 <= i < |c| ==> if i < |a| then c[i] == a[i] && c[i] in a else c[i] == b[i - |a|] && c[i] in b;
  }

  lemma RollsOfTwoNodes(m: Druid, sha: Sha, key1: string, key2: string)
    requires key1 in m.nodes && key2 in m.nodes && key1 != key2
    ensures RollOf(m, sha, key1).d.body.id != RollOf(m, sha, key2).d.body.id
  {
    NodeNameInjective(m.name, key1, key2);
  }

  /** Every workload step of `steps` belongs to one of `keys`. */
  ghost predicate RollsFrom(m: Druid, sha: Sha, steps: seq<Step>, keys: set<string>)
    requires forall k :: k in keys ==> k in m.nodes
  {
    forall s :: s in steps && s.Roll? ==> exists k :: k in keys && s == RollOf(m, sha, k)
  }

  function KeySet(keys: seq<string>): set<string> { set k | k in keys }

  lemma {:induction false} NodesPlanRolls(m: Druid, sha: Sha, keys: seq<string>)
    requires forall k :: k in keys ==> k in m.nodes
    ensures RollsFrom(m, sha, NodesPlan(m, sha, keys), KeySet(keys))
    ensures forall k :: k in keys ==> RollOf(m, sha, k) in NodesPlan(m, sha, keys)
  {
    if keys != [] {
      var key, rest := keys[0], keys[1..];
      NodesPlanRolls(m, sha, rest);
      NodeStepsRoll(m, sha, key, m.nodes[key]);
      var a, b := NodeSteps(m, sha, key, m.nodes[key]), NodesPlan(m, sha, rest);
      assert NodesPlan(m, sha, keys) == a + b;
      forall s: Step | s in a + b && s.Roll? ensures exists k :: k in keys && s == RollOf(m, sha, k) {
        if s in a {
          assert s == RollOf(m, sha, key);
        } else {
          var k :| k in KeySet(rest) && s == RollOf(m, sha, k);
          assert k in keys;
        }
      }
      forall k | k in keys ensures RollOf(m, sha, k) in a + b {
        if k != key { assert k in rest; }
      }
    }
  }

  lemma {:induction false} NodesPlanRanked(m: Druid, sha: Sha, keys: seq<string>)
    requires RankedKeys(m, keys)
    ensures var plan := NodesPlan(m, sha, keys); WellKinded(plan) && RollsDistinct(plan) && RollsRanked(plan)
  {
    hide Rank, Workload, Stamped, NodeSteps;
    if keys != [] {
      var key, rest := keys[0], keys[1..];
      NodesPlanRanked(m, sha, rest);
      NodesPlanRolls(m, sha, rest);
      NodeStepsRoll(m, sha, key, m.nodes[key]);
      var a, b := NodeSteps(m, sha, key, m.nodes[key]), NodesPlan(m, sha, rest);
      forall s, t | s in a && t in b && s.Roll? && t.Roll?
        ensures s.d.body.id != t.d.body.id && s.rank <= t.rank
      {
        var k :| k in KeySet(rest) && t == RollOf(m, sha, k);
        var x :| 0 <= x < |rest| && rest[x] == k;
        assert keys[x + 1] == k;
        assert s == RollOf(m, sha, key);
        RollsOfTwoNodes(m, sha, key, k);
      }
      RollsConcat(a, b);
    }
  }

  /** Visiting nodes in service order lists every known node once, ranks ascending. */
  lemma OrderedKeys(m: Druid, iter: seq<string>)
    requires Enumerates(iter, m.nodes.Keys)
    ensures RankedKeys(m, Ordered(m.nodes, iter))
    ensures KeySet(Ordered(m.nodes, iter)) == KnownKeys(m)
  {
    OrderedIsStableSort(m.nodes, iter);
    hide Rank, Ordered;
  }

  lemma RollsAfter(m: Druid, sha: Sha, a: seq<Step>, b: seq<Step>, keys: set<string>)
    requires forall k :: k in keys ==> k in m.nodes
    requires WellKinded(a) && forall s :: s in a ==> !s.Roll?
    requires WellKinded(b) && RollsDistinct(b) && RollsRanked(b) && RollsFrom(m, sha, b, keys)
    requires forall k :: k in keys ==> RollOf(m, sha, k) in b
    ensures WellKinded(a + b) && RollsDistinct(a + b) && RollsRanked(a + b) && RollsFrom(m, sha, a + b, keys)
    ensures forall k :: k in keys ==> RollOf(m, sha, k) in a + b
  {
    hide RollOf;
    RollsConcat(a, b);
  }

  /** The plan in which every node is built on its own. */
  function OwnPlan(m: Druid, sha: Sha, applied: Files, iter: seq<string>): seq<Step>
    requires forall k :: k in iter ==> k in m.nodes
  {
    Preamble(m, sha, applied) + NodesPlan(m, sha, Ordered(m.nodes, iter))
  }

  lemma PreambleRolls(m: Druid, sha: Sha, applied: Files)
    ensures WellKinded(Preamble(m, sha, applied)) && forall s :: s in Preamble(m, sha, applied) ==> !s.Roll?
  {
  }

  /** The workloads of a plan: ranked, under distinct names, one for every known node. */
  lemma OwnPlanRolls(m: Druid, sha: Sha, applied: Files, iter: seq<string>)
    requires Enumerates(iter, m.nodes.Keys)
    ensures var plan := OwnPlan(m, sha, applied, iter);
            && WellKinded(plan) && RollsDistinct(plan) && RollsRanked(plan)
            && (forall k :: k in KnownKeys(m) ==> RollOf(m, sha, k) in plan)
            && RollsFrom(m, sha, plan, KnownKeys(m))
  {
    hide Rank, Ordered, Known, NodesPlan, RollOf, RollsDistinct, RollsRanked, RollsFrom, WellKinded;
    hide Preamble;
    OrderedKeys(m, iter);
    PreambleRolls(m, sha, applied);
    var keys := Ordered(m.nodes, iter);
    NodesPlanRolls(m, sha, keys);
    NodesPlanRanked(m, sha, keys);
    RollsAfter(m, sha, Preamble(m, sha, applied), NodesPlan(m, sha, keys), KnownKeys(m));
  }

  // Names

  function NodeIds(m: Druid, sha: Sha, key: string): set<Id>
    requires key in m.nodes
  {
    StepIds(NodeSteps(m, sha, key, m.nodes[key]))
  }

  /** The names a pass wants: the common map's and those of every known node. */
  function Wanted(m: Druid, sha: Sha): set<Id> {
    {CommonConfig(m).id} + WantedOf(m, sha, KnownKeys(m))
  }

  function WantedOf(m: Druid, sha: Sha, keys: set<string>): set<Id>
    requires forall k :: k in keys ==> k in m.nodes
  {
    set key, id | key in keys && id in NodeIds(m, sha, key) :: id
  }

  lemma WantedOfOneMore(m: Druid, sha: Sha, key: string, keys: set<string>)
    requires key in m.nodes && forall k :: k in keys ==> k in m.nodes
    ensures WantedOf(m, sha, {key} + keys) == NodeIds(m, sha, key) + WantedOf(m, sha, keys)
  {
    hide NodeIds;
  }

  lemma {:induction false} NodesPlanIds(m: Druid, sha: Sha, keys: seq<string>)
    requires forall k :: k in keys ==> k in m.nodes
    ensures StepIds(NodesPlan(m, sha, keys)) == WantedOf(m, sha, KeySet(keys))
  {
    hide NodeSteps, WantedOf, StepIds;
    if keys == [] {
      NoStepsNoIds();
      assert WantedOf(m, sha, {}) == {} by { WantedOfNone(m, sha); }
      assert KeySet(keys) == {};
    } else {
      var key, rest := keys[0], keys[1..];
      NodesPlanIds(m, sha, rest);
      StepIdsConcat(NodeSteps(m, sha, key, m.nodes[key]), NodesPlan(m, sha, rest));
      assert keys == [key] + rest;
      assert KeySet(keys) == {key} + KeySet(rest);
      WantedOfOneMore(m, sha, key, KeySet(rest));
    }
  }

  lemma NoStepsNoIds()
    ensures StepIds([]) == {}
  {
  }

  lemma WantedOfNone(m: Druid, sha: Sha)
    ensures WantedOf(m, sha, {}) == {}
  {
  }

  lemma PreambleIds(m: Druid, sha: Sha, applied: Files)
    ensures StepIds(Preamble(m, sha, applied)) == {CommonConfig(m).id}
  {
    var steps := Preamble(m, sha, applied);
    forall id ensures id in StepIds(steps) <==> id == CommonConfig(m).id {
      assert CommonConfig(m).id in StepId(steps[0]);
    }
  }

  /** The names do not depend on the iteration order. */
  lemma OwnPlanIds(m: Druid, sha: Sha, applied: Files, iter: seq<string>)
    requires Enumerates(iter, m.nodes.Keys)
    ensures StepIds(OwnPlan(m, sha, applied, iter)) == Wanted(m, sha)
  {
    hide Rank, NodeSteps, WantedOf, StepIds, NodesPlan, Preamble, Ordered, CommonConfig, Known;
    OrderedKeys(m, iter);
    var keys := Ordered(m.nodes, iter);
    NodesPlanIds(m, sha, keys);
    StepIdsConcat(Preamble(m, sha, applied), NodesPlan(m, sha, keys));
    PreambleIds(m, sha, applied);
  }

  lemma WorkloadsWanted(m: Druid, sha: Sha, key: string)
    requires key in KnownKeys(m)
    ensures WorkloadOf(m, sha, key).body.id in Wanted(m, sha)
  {
    NodeStepsRoll(m, sha, key, m.nodes[key]);
    hide NodeSteps, Workload, Known;
    var steps := NodeSteps(m, sha, key, m.nodes[key]);
    var i :| 0 <= i < |steps| && steps[i] == RollStep(m, sha, key, m.nodes[key]);
    assert StepId(steps[i]) == {WorkloadOf(m, sha, key).body.id};
    assert WorkloadOf(m, sha, key).body.id in NodeIds(m, sha, key);
  }

  // Distinct names

  predicate IdsDistinct(steps: seq<Step>) {
    forall i, j :: 0 <= i < j < |steps| && !steps[i].Finalizers? && !steps[j].Finalizers? ==>
      steps[i].d.body.id != steps[j].d.body.id
  }

  function ServiceNameAt(m: Druid, key: string, i: nat): string
    requires key in m.nodes && i < |ServicesOf(m, m.nodes[key])|
  {
    ServiceName(ServicesOf(m, m.nodes[key])[i].name, NodeName(m.name, key))
  }

  /** The names that users choose do not collide: no two services share a name, and the common
      configuration map is not a node's. */
  ghost predicate NamesDistinct(m: Druid) {
    && (forall a, b, i: nat, j: nat
          | a in KnownKeys(m) && b in KnownKeys(m) && i < |ServicesOf(m, m.nodes[a])| && j < |ServicesOf(m, m.nodes[b])|
          :: (a != b || i != j) ==> ServiceNameAt(m, a, i) != ServiceNameAt(m, b, j))
    && !("common" in KnownKeys(m) && DruidChain(m.name))
  }

  lemma IdsConcat(a: seq<Step>, b: seq<Step>)
    requires IdsDistinct(a) && IdsDistinct(b) && StepIds(a) !! StepIds(b)
    ensures IdsDistinct(a + b)
  {
    hide StepIds;
    var c := a + b;
    forall i, j | 0 <= i < j < |c| && !c[i].Finalizers? && !c[j].Finalizers?
      ensures c[i].d.body.id != c[j].d.body.id
    {
      if i < |a| && j >= |a| {
        IdOfStep(a, i);
        IdOfStep(b, j - |a|);
      } else if i >= |a| {
        assert c[i] == b[i - |a|] && c[j] == b[j - |a|];
      }
    }
  }

  lemma IdOfStep(steps: seq<Step>, i: nat)
    requires i < |steps| && !steps[i].Finalizers?
    ensures steps[i].d.body.id in StepIds(steps)
  {
    assert steps[i].d.body.id in StepId(steps[i]);
  }

  /** What a name of a node looks like. */
  ghost predicate NodeIdShape(m: Druid, key: string, id: Id)
    requires key in m.nodes
  {
    match id.kind
    case Service => exists i: nat :: i < |ServicesOf(m, m.nodes[key])| && id.name == ServiceNameAt(m, key, i)
    case ConfigMap => id.name == NodeConfigName(m.name, key)
    case _ => id.name == NodeName(m.name, key)
  }

  lemma NodeIdsShape(m: Druid, sha: Sha, key: string)
    requires key in m.nodes
    ensures forall id :: id in NodeIds(m, sha, key) ==> NodeIdShape(m, key, id)
  {
    var spec := m.nodes[key];
    var steps := NodeSteps(m, sha, key, spec);
    forall id | id in NodeIds(m, sha, key) ensures NodeIdShape(m, key, id) {
      hide NodeSteps;
      var i :| 0 <= i < |steps| && id in StepId(steps[i]);
      assert steps[i] in steps;
      StepIdShape(m, sha, key, steps[i]);
    }
  }

  lemma StepIdShape(m: Druid, sha: Sha, key: string, s: Step)
    requires key in m.nodes && s in NodeSteps(m, sha, key, m.nodes[key])
    ensures !s.Finalizers? && NodeIdShape(m, key, s.d.body.id)
  {
    hide NodeSteps, NodeLabels, NodeName, NodeConfigName, WorkloadEnv, FirstServiceName, Rank, ServicesOf, ExtraSteps;
    hide WorkloadProbes;
    var spec := m.nodes[key];
    NodeStepCases(m, sha, key, spec, s);
    ExtrasShape(m, sha, key, spec);
    var extras := ExtraSteps(m, sha, key, spec);
    assert s in extras ==> exists i :: 0 <= i < |extras| && extras[i] == s;
    if svc :| svc in ServicesOf(m, spec) && s == Apply(Stamped(sha, NodeService(m, key, spec, svc))) {
      var i: nat :| i < |ServicesOf(m, spec)| && ServicesOf(m, spec)[i] == svc;
      assert s.d.body.id.name == ServiceNameAt(m, key, i);
    }
  }

  lemma NodesDisjoint(m: Druid, sha: Sha, a: string, b: string)
    requires NamesDistinct(m) && a in KnownKeys(m) && b in KnownKeys(m) && a != b
    ensures NodeIds(m, sha, a) !! NodeIds(m, sha, b)
  {
    NodeIdsShape(m, sha, a);
    NodeIdsShape(m, sha, b);
    hide NodeIds, NodeIdShape, NamesDistinct, Known;
    forall id | id in NodeIds(m, sha, a) ensures id !in NodeIds(m, sha, b) {
      if NodeIdShape(m, b, id) { ShapesApart(m, a, b, id); }
    }
  }

  lemma ShapesApart(m: Druid, a: string, b: string, id: Id)
    requires NamesDistinct(m) && a in KnownKeys(m) && b in KnownKeys(m) && a != b
    requires NodeIdShape(m, a, id)
    ensures !NodeIdShape(m, b, id)
  {
    NodeNameInjective(m.name, a, b);
    hide Known, NodeName, NodeConfigName, ServiceNameAt, ServicesOf;
  }

  lemma CommonDisjoint(m: Druid, sha: Sha, key: string)
    requires NamesDistinct(m) && key in KnownKeys(m)
    ensures CommonConfig(m).id !in NodeIds(m, sha, key)
  {
    NodeIdsShape(m, sha, key);
    CommonNodeClash(m.name, key);
  }

  lemma NodeIdsDistinct(m: Druid, sha: Sha, key: string)
    requires NamesDistinct(m) && key in KnownKeys(m)
    ensures IdsDistinct(NodeSteps(m, sha, key, m.nodes[key]))
  {
    hide NodeSteps, Known, NamesDistinct;
    var spec := m.nodes[key];
    NodeKinds(m, sha, key, spec);
    var steps, p := NodeSteps(m, sha, key, spec), 1 + |ServicesOf(m, spec)|;
    forall i, j | 0 <= i < j < |steps| ensures steps[i].d.body.id != steps[j].d.body.id {
      if 0 < i && j < p { ServicesApart(m, key, i - 1, j - 1); }
    }
  }

  lemma ServicesApart(m: Druid, key: string, i: nat, j: nat)
    requires NamesDistinct(m) && key in KnownKeys(m) && i < j < |ServicesOf(m, m.nodes[key])|
    ensures ServiceNameAt(m, key, i) != ServiceNameAt(m, key, j)
  {
    hide Known, ServiceNameAt, ServicesOf;
  }

  /** Names and kinds of a node's steps by position: configuration, services, workload, the rest. */
  lemma NodeKinds(m: Druid, sha: Sha, key: string, spec: NodeSpec)
    requires key in m.nodes && spec == m.nodes[key]
    ensures var steps, p := NodeSteps(m, sha, key, spec), 1 + |ServicesOf(m, spec)|;
            && p < |steps| && (forall i :: 0 <= i < |steps| ==> !steps[i].Finalizers?)
            && steps[0].d.body.id.kind == ConfigMap
            && (forall i :: 0 < i < p ==> steps[i].d.body.id == Id(Service, ServiceNameAt(m, key, i - 1)))
            && IsWorkload(steps[p].d.body.id.kind)
            && (forall i :: p < i < |steps| ==> steps[i].d.body.id.kind in {Ingress, Pdb, Hpa})
            && (forall i, j :: p < i < j < |steps| ==> steps[i].d.body.id.kind != steps[j].d.body.id.kind)
  {
    hide ExtraSteps, NodeLabels, ServicesOf, WorkloadEnv, FirstServiceName, Rank;
    var steps, p := NodeSteps(m, sha, key, spec), 1 + |ServicesOf(m, spec)|;
    var extras := ExtraSteps(m, sha, key, spec);
    ExtrasShape(m, sha, key, spec);
    assert steps[p] == RollStep(m, sha, key, spec);
    assert forall i :: p < i < |steps| ==> steps[i] == extras[i - p - 1];
    assert forall i :: 0 < i < p ==>
           steps[i] == Apply(Stamped(sha, NodeService(m, key, spec, ServicesOf(m, spec)[i - 1])));
  }

  lemma ExtrasShape(m: Druid, sha: Sha, key: string, spec: NodeSpec)
    ensures var e := ExtraSteps(m, sha, key, spec);
            && (forall i :: 0 <= i < |e| ==> e[i].Apply? && e[i].d.body.id.kind in {Ingress, Pdb, Hpa})
            && (forall i :: 0 <= i < |e| ==> e[i].d.body.id.name == NodeName(m.name, key))
            && (forall i, j :: 0 <= i < j < |e| ==> e[i].d.body.id.kind != e[j].d.body.id.kind)
  {
    hide NodeName, NodeLabels;
  }

  lemma {:induction false} NodesPlanIdsDistinct(m: Druid, sha: Sha, keys: seq<string>)
    requires NamesDistinct(m) && NoRepeats(keys) && forall k :: k in keys ==> k in KnownKeys(m)
    ensures IdsDistinct(NodesPlan(m, sha, keys))
  {
    hide NodeSteps, Known, NamesDistinct, StepIds, WantedOf;
    if keys != [] {
      var key, rest := keys[0], keys[1..];
      NodesPlanIdsDistinct(m, sha, rest);
      NodeIdsDistinct(m, sha, key);
      NodesPlanIds(m, sha, rest);
      var a, b := NodeSteps(m, sha, key, m.nodes[key]), NodesPlan(m, sha, rest);
      assert StepIds(a) == NodeIds(m, sha, key);
      assert StepIds(a) !! StepIds(b) by { OneNodeAgainstOthers(m, sha, key, rest); }
      IdsConcat(a, b);
    }
  }

  lemma OneNodeAgainstOthers(m: Druid, sha: Sha, key: string, rest: seq<string>)
    requires NamesDistinct(m) && key in KnownKeys(m) && key !in rest && forall k :: k in rest ==> k in KnownKeys(m)
    ensures NodeIds(m, sha, key) !! WantedOf(m, sha, KeySet(rest))
  {
    hide Known, NamesDistinct, NodeIds;
    forall id | id in WantedOf(m, sha, KeySet(rest)) ensures id !in NodeIds(m, sha, key) {
      var k :| k in KeySet(rest) && id in NodeIds(m, sha, k);
      NodesDisjoint(m, sha, key, k);
    }
  }

  lemma OwnPlanIdsDistinct(m: Druid, sha: Sha, applied: Files, iter: seq<string>)
    requires Enumerates(iter, m.nodes.Keys) && NamesDistinct(m)
    ensures IdsDistinct(OwnPlan(m, sha, applied, iter))
  {
    hide NodesPlan, Rank, Ordered, NamesDistinct, StepIds, Known, Preamble, IdsDistinct, CommonConfig;
    OrderedKeys(m, iter);
    var keys := Ordered(m.nodes, iter);
    assert forall k :: k in keys ==> k in KeySet(keys);
    NodesPlanIdsDistinct(m, sha, keys);
    NodesPlanIds(m, sha, keys);
    PreambleIds(m, sha, applied);
    CommonApart(m, sha, keys);
    PreambleDistinct(m, sha, applied);
    IdsConcat(Preamble(m, sha, applied), NodesPlan(m, sha, keys));
  }

  lemma PreambleDistinct(m: Druid, sha: Sha, applied: Files)
    ensures IdsDistinct(Preamble(m, sha, applied))
  {
    hide CommonConfig;
  }

  lemma CommonApart(m: Druid, sha: Sha, keys: seq<string>)
    requires NamesDistinct(m) && forall k :: k in keys ==> k in KnownKeys(m)
    ensures CommonConfig(m).id !in WantedOf(m, sha, KeySet(keys))
  {
    hide NamesDistinct, NodeIds, CommonConfig, Known;
    forall k | k in keys ensures CommonConfig(m).id !in NodeIds(m, sha, k) { CommonDisjoint(m, sha, k); }
  }

  /** Where the steps of the `i`-th node begin. */
  function Offset(m: Druid, sha: Sha, keys: seq<string>, i: nat): nat
    requires i < |keys| && forall k :: k in keys ==> k in m.nodes
  {
    if i == 0 then 0 else |NodeSteps(m, sha, keys[0], m.nodes[keys[0]])| + Offset(m, sha, keys[1..], i - 1)
  }

  lemma {:induction false} StepAt(m: Druid, sha: Sha, keys: seq<string>, i: nat, p: nat)
    requires i < |keys| && forall k :: k in keys ==> k in m.nodes
    requires p < |NodeSteps(m, sha, keys[i], m.nodes[keys[i]])|
    ensures var plan, at := NodesPlan(m, sha, keys), Offset(m, sha, keys, i) + p;
            at < |plan| && plan[at] == NodeSteps(m, sha, keys[i], m.nodes[keys[i]])[p]
    ensures forall j :: i < j < |keys| ==> Offset(m, sha, keys, i) + p < Offset(m, sha, keys, j)
  {
    hide NodeSteps;
    if i > 0 {
      assert keys[1..][i - 1] == keys[i];
      StepAt(m, sha, keys[1..], i - 1, p);
    }
  }

  lemma ServiceStepAt(m: Druid, sha: Sha, key: string, i: nat)
    requires key in m.nodes && i < |ServicesOf(m, m.nodes[key])|
    ensures var steps := NodeSteps(m, sha, key, m.nodes[key]);
            1 + i < |steps| && steps[1 + i].Apply? && steps[1 + i].d.body.id == Id(Service, ServiceNameAt(m, key, i))
  {
    hide ExtraSteps, NodeLabels, Workload, NodeName, NodeConfigName, ServicesOf;
  }

  /** Two services that share a name take two steps of the plan under it. */
  lemma SharedServiceName(m: Druid, sha: Sha, keys: seq<string>, x: nat, y: nat, i: nat, j: nat)
    requires x < |keys| && y < |keys| && forall k :: k in keys ==> k in m.nodes
    requires i < |ServicesOf(m, m.nodes[keys[x]])| && j < |ServicesOf(m, m.nodes[keys[y]])|
    requires x < y || (x == y && i < j)
    requires ServiceNameAt(m, keys[x], i) == ServiceNameAt(m, keys[y], j)
    ensures !IdsDistinct(NodesPlan(m, sha, keys))
  {
    hide NodeSteps, NodesPlan, ServiceNameAt, ServicesOf, Offset;
    ServiceStepAt(m, sha, keys[x], i);
    ServiceStepAt(m, sha, keys[y], j);
    StepAt(m, sha, keys, x, 1 + i);
    StepAt(m, sha, keys, y, 1 + j);
    var plan := NodesPlan(m, sha, keys);
    var p, q := Offset(m, sha, keys, x) + 1 + i, Offset(m, sha, keys, y) + 1 + j;
    assert p < q < |plan| && plan[p].d.body.id == plan[q].d.body.id;
  }

  lemma DistinctPlanDistinctServices(m: Druid, sha: Sha, keys: seq<string>, a: string, b: string, i: nat, j: nat)
    requires forall k :: k in keys ==> k in m.nodes
    requires a in keys && b in keys && IdsDistinct(NodesPlan(m, sha, keys))
    requires i < |ServicesOf(m, m.nodes[a])| && j < |ServicesOf(m, m.nodes[b])| && (a != b || i != j)
    ensures ServiceNameAt(m, a, i) != ServiceNameAt(m, b, j)
  {
    hide IdsDistinct, NodesPlan, ServiceNameAt, ServicesOf;
    var x :| 0 <= x < |keys| && keys[x] == a;
    var y :| 0 <= y < |keys| && keys[y] == b && (a == b ==> y == x);
    if ServiceNameAt(m, a, i) == ServiceNameAt(m, b, j) {
      if x < y || (x == y && i < j) {
        SharedServiceName(m, sha, keys, x, y, i, j);
      } else {
        SharedServiceName(m, sha, keys, y, x, j, i);
      }
    }
  }

  lemma FirstStepIsConfig(m: Druid, sha: Sha, key: string)
    requires key in m.nodes
    ensures var steps := NodeSteps(m, sha, key, m.nodes[key]);
            |steps| > 0 && steps[0].Apply? && steps[0].d.body.id == Id(ConfigMap, NodeConfigName(m.name, key))
  {
    hide ServiceSteps, ExtraSteps, NodeLabels, Workload, NodeConfigName;
  }

  lemma CommonClashRepeats(m: Druid, sha: Sha, applied: Files, keys: seq<string>)
    requires (forall k :: k in keys ==> k in m.nodes) && "common" in keys && DruidChain(m.name)
    ensures !IdsDistinct(Preamble(m, sha, applied) + NodesPlan(m, sha, keys))
  {
    hide NodeSteps, NodesPlan, Offset, DruidChain, CommonConfigName, NodeConfigName, ClusterLabels;
    var x :| 0 <= x < |keys| && keys[x] == "common";
    CommonNodeClash(m.name, "common");
    FirstStepIsConfig(m, sha, "common");
    StepAt(m, sha, keys, x, 0);
    var a, b, at := Preamble(m, sha, applied), NodesPlan(m, sha, keys), Offset(m, sha, keys, x);
    assert (a + b)[0] == a[0] && (a + b)[2 + at] == b[at];
  }

  lemma IdsOfTail(a: seq<Step>, b: seq<Step>)
    requires IdsDistinct(a + b)
    ensures IdsDistinct(b)
  {
    assert forall i :: 0 <= i < |b| ==> b[i] == (a + b)[|a| + i];
  }

  lemma DistinctIdsDistinctNames(m: Druid, sha: Sha, applied: Files, keys: seq<string>)
    requires (forall k :: k in keys <==> k in KnownKeys(m)) && forall k :: k in keys ==> k in m.nodes
    requires IdsDistinct(Preamble(m, sha, applied) + NodesPlan(m, sha, keys))
    ensures NamesDistinct(m)
  {
    hide Known, Preamble, NodesPlan, ServicesOf, ServiceNameAt, DruidChain, IdsDistinct;
    if "common" in KnownKeys(m) && DruidChain(m.name) { CommonClashRepeats(m, sha, applied, keys); }
    IdsOfTail(Preamble(m, sha, applied), NodesPlan(m, sha, keys));
    forall c, d, i: nat, j: nat
      | c in KnownKeys(m) && d in KnownKeys(m) && i < |ServicesOf(m, m.nodes[c])| && j < |ServicesOf(m, m.nodes[d])|
        && (c != d || i != j)
      ensures ServiceNameAt(m, c, i) != ServiceNameAt(m, d, j)
    {
      DistinctPlanDistinctServices(m, sha, keys, c, d, i, j);
    }
  }

  lemma OwnPlanIdsDistinctExactly(m: Druid, sha: Sha, applied: Files, iter: seq<string>)
    requires Enumerates(iter, m.nodes.Keys)
    ensures IdsDistinct(OwnPlan(m, sha, applied, iter)) <==> NamesDistinct(m)
  {
    hide Known, Rank, Ordered, Preamble, NodesPlan, NamesDistinct, IdsDistinct;
    if NamesDistinct(m) { OwnPlanIdsDistinct(m, sha, applied, iter); }
    OrderedKeys(m, iter);
    var keys := Ordered(m.nodes, iter);
    assert forall k :: k in keys <==> k in KeySet(keys);
    if IdsDistinct(OwnPlan(m, sha, applied, iter)) { DistinctIdsDistinctNames(m, sha, applied, keys); }
  }

  // The plan a pass runs

  lemma SameFrameSameNames(a: seq<Step>, b: seq<Step>)
    requires SameFrame(a, b)
    ensures WellKinded(a) <==> WellKinded(b)
    ensures RollsDistinct(a) <==> RollsDistinct(b)
    ensures RollsRanked(a) <==> RollsRanked(b)
    ensures IdsDistinct(a) <==> IdsDistinct(b)
  {
    assert forall i :: 0 <= i < |a| ==> SameSlot(a[i], b[i]);
  }

  lemma SameFrameSameIds(a: seq<Step>, b: seq<Step>)
    requires SameFrame(a, b)
    ensures StepIds(a) == StepIds(b)
  {
    assert forall i :: 0 <= i < |a| ==> SameSlot(a[i], b[i]) && StepId(a[i]) == StepId(b[i]);
    hide SameSlot;
  }

  lemma PlanFrame(m: Druid, sha: Sha, applied: Files, iter: seq<string>)
    requires Enumerates(iter, m.nodes.Keys)
    ensures SameFrame(PlanOf(m, sha, applied, iter), OwnPlan(m, sha, applied, iter))
  {
    hide Ordered, VisitsPlan, NodesPlan, SameFrame, Preamble, Alike;
    var keys, p := Ordered(m.nodes, iter), Preamble(m, sha, applied);
    AlikeItself(m);
    VisitsFrame(m, m, sha, keys);
    assert SameFrame(p, p) by { FrameOfItself(p); }
    FrameConcat(p, p, VisitsPlan(m, sha, keys), NodesPlan(m, sha, keys));
  }

  lemma FrameOfItself(a: seq<Step>)
    ensures SameFrame(a, a)
  {
  }

  /** The step is the workload step of a node: its name and its rank. */
  predicate IsWorkloadOf(m: Druid, s: Step, key: string) {
    key in m.nodes && s.Roll? && s.d.body.id == WorkloadId(m, key, m.nodes[key]) && s.rank == NodeRank(m, key)
  }

  /** Every known node has its workload step. */
  ghost predicate HasWorkloads(m: Druid, plan: seq<Step>) {
    forall k :: k in KnownKeys(m) ==> exists i :: 0 <= i < |plan| && IsWorkloadOf(m, plan[i], k)
  }

  /** Every workload step is a known node's. */
  ghost predicate OnlyWorkloads(m: Druid, plan: seq<Step>) {
    forall i :: 0 <= i < |plan| && plan[i].Roll? ==> exists k :: k in KnownKeys(m) && IsWorkloadOf(m, plan[i], k)
  }

  /** Whatever is shared: a pass visits one workload per known node, under distinct names, ranks ascending. */
  lemma PlanRolls(m: Druid, sha: Sha, applied: Files, iter: seq<string>)
    requires Enumerates(iter, m.nodes.Keys)
    ensures var plan := PlanOf(m, sha, applied, iter);
            && WellKinded(plan) && RollsDistinct(plan) && RollsRanked(plan)
            && HasWorkloads(m, plan) && OnlyWorkloads(m, plan)
  {
    hide PlanOf, OwnPlan, Known, Rank, WellKinded, RollsDistinct, RollsRanked;
    var plan, own := PlanOf(m, sha, applied, iter), OwnPlan(m, sha, applied, iter);
    PlanFrame(m, sha, applied, iter);
    SameFrameSameNames(plan, own);
    OwnPlanRolls(m, sha, applied, iter);
    KnownIsNode(m);
    forall k | k in KnownKeys(m) ensures exists i :: 0 <= i < |plan| && IsWorkloadOf(m, plan[i], k) {
      var i :| 0 <= i < |own| && own[i] == RollOf(m, sha, k);
      assert SameSlot(plan[i], own[i]);
      RollIsWorkload(m, sha, k);
      assert IsWorkloadOf(m, plan[i], k);
    }
    forall i | 0 <= i < |plan| && plan[i].Roll? ensures exists k :: k in KnownKeys(m) && IsWorkloadOf(m, plan[i], k) {
      assert SameSlot(plan[i], own[i]) && own[i] in own;
      var k :| k in KnownKeys(m) && own[i] == RollOf(m, sha, k);
      RollIsWorkload(m, sha, k);
      assert IsWorkloadOf(m, plan[i], k);
    }
  }

  lemma RollIsWorkload(m: Druid, sha: Sha, key: string)
    requires key in m.nodes
    ensures IsWorkloadOf(m, RollOf(m, sha, key), key)
  {
    hide NodeLabels, WorkloadEnv, FirstServiceName, WorkloadProbes;
  }

  /** Whatever is shared, and in any iteration order, a pass registers the same names. */
  lemma PlanIds(m: Druid, sha: Sha, applied: Files, iter: seq<string>)
    requires Enumerates(iter, m.nodes.Keys)
    ensures StepIds(PlanOf(m, sha, applied, iter)) == Wanted(m, sha)
  {
    hide PlanOf, OwnPlan, Wanted, StepIds;
    PlanFrame(m, sha, applied, iter);
    SameFrameSameIds(PlanOf(m, sha, applied, iter), OwnPlan(m, sha, applied, iter));
    OwnPlanIds(m, sha, applied, iter);
  }

  /** A pass names no object twice exactly when the names that users choose do not collide. */
  lemma PlanIdsDistinctExactly(m: Druid, sha: Sha, applied: Files, iter: seq<string>)
    requires Enumerates(iter, m.nodes.Keys)
    ensures IdsDistinct(PlanOf(m, sha, applied, iter)) <==> NamesDistinct(m)
  {
    hide PlanOf, OwnPlan, NamesDistinct, IdsDistinct;
    PlanFrame(m, sha, applied, iter);
    SameFrameSameNames(PlanOf(m, sha, applied, iter), OwnPlan(m, sha, applied, iter));
    OwnPlanIdsDistinctExactly(m, sha, applied, iter);
  }

  // The desired objects, whatever the order

  ghost predicate DesiredStep(m: Druid, sha: Sha, s: Step) {
    s == Apply(Stamped(sha, CommonConfig(m))) || NodeStep(m, sha, KnownKeys(m), s)
  }

  ghost predicate NodeStep(m: Druid, sha: Sha, keys: set<string>, s: Step)
    requires forall k :: k in keys ==> k in m.nodes
  {
    exists key :: key in keys && s in NodeSteps(m, sha, key, m.nodes[key])
  }

  lemma {:induction false} NodesPlanSteps(m: Druid, sha: Sha, keys: seq<string>)
    requires forall k :: k in keys ==> k in m.nodes
    ensures forall s :: s in NodesPlan(m, sha, keys) <==> NodeStep(m, sha, KeySet(keys), s)
  {
    hide NodeSteps;
    if keys != [] {
      var key, rest := keys[0], keys[1..];
      NodesPlanSteps(m, sha, rest);
      var a, b := NodeSteps(m, sha, key, m.nodes[key]), NodesPlan(m, sha, rest);
      assert NodesPlan(m, sha, keys) == a + b;
      assert keys == [key] + rest;
      assert KeySet(keys) == {key} + KeySet(rest);
    }
  }

  /** Every iteration order plans the same steps. */
  lemma OwnPlanSteps(m: Druid, sha: Sha, iter: seq<string>)
    requires Enumerates(iter, m.nodes.Keys)
    ensures forall s :: s in OwnPlan(m, sha, m.commonConfig, iter) && !s.Finalizers? <==>
                        DesiredStep(m, sha, s) && !s.Finalizers?
  {
    assert m.(commonConfig := m.commonConfig) == m;
    hide Rank, Ordered, NodeSteps, NodesPlan, Known;
    OrderedKeys(m, iter);
    var keys := Ordered(m.nodes, iter);
    NodesPlanSteps(m, sha, keys);
  }

  /** A desired object is stamped with its own hash, carries the selector's labels and is of a collected
      kind. */
  predicate WellStamped(m: Druid, sha: Sha, s: Step) {
    && !s.Finalizers? && s.d.stamp == sha(s.d.body)
    && Matches(ClusterLabels(m), s.d.body.labels) && s.d.body.id.kind in COLLECTED
  }

  lemma WellStampedStep(m: Druid, sha: Sha, s: Step)
    requires WellStamped(m, sha, s)
    ensures !s.Finalizers?
  {
  }

  lemma StepIdWanted(m: Druid, sha: Sha, key: string, s: Step)
    requires key in m.nodes && s in NodeSteps(m, sha, key, m.nodes[key]) && !s.Finalizers?
    ensures s.d.body.id in NodeIds(m, sha, key)
  {
    hide NodeSteps;
    var steps := NodeSteps(m, sha, key, m.nodes[key]);
    var i :| 0 <= i < |steps| && steps[i] == s;
    assert s.d.body.id in StepId(steps[i]);
  }

  lemma DesiredWellStamped(m: Druid, sha: Sha, s: Step)
    requires DesiredStep(m, sha, s)
    ensures WellStamped(m, sha, s)
    ensures s.d.body.id in Wanted(m, sha)
  {
    if s != Apply(Stamped(sha, CommonConfig(m))) {
      var key :| key in KnownKeys(m) && s in NodeSteps(m, sha, key, m.nodes[key]);
      hide NodeSteps, Known, WellStamped, NodeIds, CommonConfig;
      NodeWellStamped(m, sha, key, s);
      assert !s.Finalizers? by { WellStampedStep(m, sha, s); }
      StepIdWanted(m, sha, key, s);
    }
  }

  lemma NodeStepCases(m: Druid, sha: Sha, key: string, spec: NodeSpec, s: Step)
    requires s in NodeSteps(m, sha, key, spec)
    ensures || s == Apply(Stamped(sha, NodeConfig(m, key, spec)))
            || (exists svc :: svc in ServicesOf(m, spec) && s == Apply(Stamped(sha, NodeService(m, key, spec, svc))))
            || s == RollStep(m, sha, key, spec)
            || s in ExtraSteps(m, sha, key, spec)
  {
    hide ExtraSteps, RollStep, NodeConfig, NodeService;
    var steps := NodeSteps(m, sha, key, spec);
    var services := ServiceSteps(m, sha, key, spec, ServicesOf(m, spec));
    if s in services {
      var i :| 0 <= i < |services| && services[i] == s;
      assert ServicesOf(m, spec)[i] in ServicesOf(m, spec);
    }
  }

  predicate WellBody(m: Druid, b: Body) {
    Matches(ClusterLabels(m), b.labels) && b.id.kind in COLLECTED
  }

  lemma ServiceWell(m: Druid, key: string, svc: ServiceSpec)
    requires key in m.nodes && svc in ServicesOf(m, m.nodes[key])
    ensures WellBody(m, NodeService(m, key, m.nodes[key], svc))
  {
    DesiredLabelsMatch(m, key, m.nodes[key], svc);
    hide NodeLabels, Matches, ClusterLabels, NodeName;
  }

  lemma WorkloadAndConfigWell(m: Druid, sha: Sha, key: string)
    requires key in m.nodes
    ensures WellBody(m, Workload(m, sha, key, m.nodes[key])) && WellBody(m, NodeConfig(m, key, m.nodes[key]))
  {
    var spec := m.nodes[key];
    assert Matches(ClusterLabels(m), NodeLabels(m, key, spec));
    hide NodeLabels, Matches, ClusterLabels, NodeName, WorkloadEnv, FirstServiceName, WorkloadProbes;
  }

  lemma ExtraWell(m: Druid, sha: Sha, key: string, spec: NodeSpec, s: Step)
    requires s in ExtraSteps(m, sha, key, spec)
    ensures s.Apply? && s.d.stamp == sha(s.d.body) && WellBody(m, s.d.body)
  {
    assert Matches(ClusterLabels(m), NodeLabels(m, key, spec)) && Matches(ClusterLabels(m), ClusterLabels(m));
    hide NodeLabels, Matches, ClusterLabels, NodeName;
  }

  lemma NodeWellStamped(m: Druid, sha: Sha, key: string, s: Step)
    requires key in m.nodes && s in NodeSteps(m, sha, key, m.nodes[key])
    ensures WellStamped(m, sha, s)
  {
    var spec := m.nodes[key];
    NodeStepCases(m, sha, key, spec, s);
    hide NodeSteps, ExtraSteps, NodeService, NodeConfig, Workload, Rank, Matches, ClusterLabels;
    WorkloadAndConfigWell(m, sha, key);
    if s in ExtraSteps(m, sha, key, spec) { ExtraWell(m, sha, key, spec, s); }
    if svc :| svc in ServicesOf(m, spec) && s == Apply(Stamped(sha, NodeService(m, key, spec, svc))) {
      ServiceWell(m, key, svc);
    }
  }
}
