/** Which names users can choose so that a rollout settles. */
module Conflicts {
  import opened Cluster
  import opened Deploy
  import opened Exactness
  import opened Naming
  import opened Ordering
  import opened Plans

  function ServiceAt(m: Druid, key: string, i: nat): Body
    requires key in m.nodes && i < |ServicesOf(m, m.nodes[key])|
  {
    NodeService(m, key, m.nodes[key], ServicesOf(m, m.nodes[key])[i])
  }

  /** Services under one name are the same object. */
  ghost predicate ServicesAgree(m: Druid) {
    forall a, b, i: nat, j: nat
      | a in KnownKeys(m) && b in KnownKeys(m) && i < |ServicesOf(m, m.nodes[a])| && j < |ServicesOf(m, m.nodes[b])|
      :: ServiceAt(m, a, i).id == ServiceAt(m, b, j).id ==> ServiceAt(m, a, i) == ServiceAt(m, b, j)
  }

  /** The common configuration map and a node's have one name. */
  predicate ConfigClash(m: Druid) { "common" in KnownKeys(m) && DruidChain(m.name) }

  lemma ExtraKind(m: Druid, sha: Sha, key: string, spec: NodeSpec, s: Step)
    requires s in ExtraSteps(m, sha, key, spec)
    ensures s.Apply? && s.d.body.id.kind in {Ingress, Pdb, Hpa}
  {
    ExtrasShape(m, sha, key, spec);
    hide ExtraSteps;
  }

  lemma OneStepPerKind(m: Druid, sha: Sha, key: string, s: Step, t: Step)
    requires key in m.nodes && s in NodeSteps(m, sha, key, m.nodes[key]) && t in NodeSteps(m, sha, key, m.nodes[key])
    requires !s.Finalizers? && !t.Finalizers? && s.d.body.id.kind == t.d.body.id.kind != Service
    ensures s == t
  {
    var spec := m.nodes[key];
    NodeStepCases(m, sha, key, spec, s);
    NodeStepCases(m, sha, key, spec, t);
    ExtrasShape(m, sha, key, spec);
    hide NodeSteps, ExtraSteps, NodeLabels, WorkloadEnv, FirstServiceName, WorkloadProbes, ServicesOf, Rank, NodeName;
    var e := ExtraSteps(m, sha, key, spec);
    if s in e { ExtraKind(m, sha, key, spec, s); }
    if t in e { ExtraKind(m, sha, key, spec, t); }
    if s in e && t in e {
      var i :| 0 <= i < |e| && e[i] == s;
      var j :| 0 <= j < |e| && e[j] == t;
    }
  }

  lemma ServiceStep(m: Druid, sha: Sha, key: string, s: Step)
    requires key in m.nodes && s in NodeSteps(m, sha, key, m.nodes[key])
    requires !s.Finalizers? && s.d.body.id.kind == Service
    ensures exists i: nat :: i < |ServicesOf(m, m.nodes[key])| && s == Apply(Stamped(sha, ServiceAt(m, key, i)))
  {
    var spec := m.nodes[key];
    NodeStepCases(m, sha, key, spec, s);
    hide NodeSteps, ExtraSteps, NodeLabels, WorkloadEnv, FirstServiceName, WorkloadProbes, ServicesOf, Rank, NodeName;
    if s in ExtraSteps(m, sha, key, spec) { ExtraKind(m, sha, key, spec, s); }
    var svc :| svc in ServicesOf(m, spec) && s == Apply(Stamped(sha, NodeService(m, key, spec, svc)));
    var i: nat :| i < |ServicesOf(m, spec)| && ServicesOf(m, spec)[i] == svc;
    assert s == Apply(Stamped(sha, ServiceAt(m, key, i)));
  }

  /** Steps of two nodes under one name. */
  lemma NodeStepsAgree(m: Druid, sha: Sha, a: string, s: Step, b: string, t: Step)
    requires ServicesAgree(m) && a in KnownKeys(m) && b in KnownKeys(m)
    requires s in NodeSteps(m, sha, a, m.nodes[a]) && t in NodeSteps(m, sha, b, m.nodes[b])
    requires !s.Finalizers? && !t.Finalizers? && s.d.body.id == t.d.body.id
    ensures s.d == t.d
  {
    hide NodeSteps, Known, NodeName, NodeConfigName, ServiceNameAt, ServicesOf;
    StepIdShape(m, sha, a, s);
    StepIdShape(m, sha, b, t);
    NodeNameInjective(m.name, a, b);
    if s.d.body.id.kind == Service {
      ServiceStep(m, sha, a, s);
      ServiceStep(m, sha, b, t);
      hide ServiceAt;
      var i: nat :| i < |ServicesOf(m, m.nodes[a])| && s == Apply(Stamped(sha, ServiceAt(m, a, i)));
      var j: nat :| j < |ServicesOf(m, m.nodes[b])| && t == Apply(Stamped(sha, ServiceAt(m, b, j)));
    } else {
      assert a == b;
      OneStepPerKind(m, sha, a, s, t);
    }
  }

  lemma CommonStepAgrees(m: Druid, sha: Sha, key: string, s: Step)
    requires !ConfigClash(m) && key in KnownKeys(m) && s in NodeSteps(m, sha, key, m.nodes[key])
    ensures !s.Finalizers? && s.d.body.id != CommonConfig(m).id
  {
    StepIdShape(m, sha, key, s);
    CommonNodeClash(m.name, key);
    hide NodeSteps, Known, NodeConfigName, CommonConfigName, ServicesOf;
  }

  lemma AgreeingMeansNoConflict(m: Druid, sha: Sha)
    requires ServicesAgree(m) && !ConfigClash(m)
    ensures NoConflict(m, sha)
  {
    hide NodeSteps, Known, ServicesAgree, ConfigClash, CommonConfig;
    forall s, t | DesiredStep(m, sha, s) && DesiredStep(m, sha, t) && !s.Finalizers? && !t.Finalizers? &&
                  s.d.body.id == t.d.body.id
      ensures s.d.stamp == t.d.stamp
    {
      var common := Apply(Stamped(sha, CommonConfig(m)));
      if s != common && t != common {
        var a :| a in KnownKeys(m) && s in NodeSteps(m, sha, a, m.nodes[a]);
        var b :| b in KnownKeys(m) && t in NodeSteps(m, sha, b, m.nodes[b]);
        NodeStepsAgree(m, sha, a, s, b, t);
      } else if s != common {
        var a :| a in KnownKeys(m) && s in NodeSteps(m, sha, a, m.nodes[a]);
        CommonStepAgrees(m, sha, a, s);
      } else if t != common {
        var b :| b in KnownKeys(m) && t in NodeSteps(m, sha, b, m.nodes[b]);
        CommonStepAgrees(m, sha, b, t);
      }
    }
  }

  lemma ServiceIsDesired(m: Druid, sha: Sha, key: string, i: nat)
    requires key in KnownKeys(m) && i < |ServicesOf(m, m.nodes[key])|
    ensures DesiredStep(m, sha, Apply(Stamped(sha, ServiceAt(m, key, i))))
  {
    var steps := NodeSteps(m, sha, key, m.nodes[key]);
    assert steps[1 + i] == Apply(Stamped(sha, ServiceAt(m, key, i))) by {
      hide NodeService, ExtraSteps, NodeConfig, Workload, ServicesOf, Known;
    }
    hide NodeSteps, ServicesOf, Known, ServiceAt;
    assert steps[1 + i] in steps;
  }

  lemma ConfigIsDesired(m: Druid, sha: Sha, key: string)
    requires key in KnownKeys(m)
    ensures DesiredStep(m, sha, Apply(Stamped(sha, NodeConfig(m, key, m.nodes[key]))))
  {
    hide CommonConfig, NodeConfig, Known, ServiceSteps, Workload, ExtraSteps;
    var steps := NodeSteps(m, sha, key, m.nodes[key]);
    assert steps[0] == Apply(Stamped(sha, NodeConfig(m, key, m.nodes[key])));
    hide NodeSteps;
    assert steps[0] in steps;
  }

  /** The two maps differ in their labels. */
  lemma ClashingConfigsDiffer(m: Druid)
    requires ConfigClash(m)
    ensures CommonConfig(m).id == NodeConfig(m, "common", m.nodes["common"]).id
    ensures CommonConfig(m) != NodeConfig(m, "common", m.nodes["common"])
  {
    CommonNodeClash(m.name, "common");
    hide Known, DruidChain, CommonConfigName, NodeConfigName, NodeName;
    assert "component" !in CommonConfig(m).labels;
  }

  lemma ClashConflicts(m: Druid, sha: Sha)
    requires Injective(sha) && ConfigClash(m)
    ensures !NoConflict(m, sha)
  {
    ClashingConfigsDiffer(m);
    ConfigIsDesired(m, sha, "common");
    var a, b := CommonConfig(m), NodeConfig(m, "common", m.nodes["common"]);
    assert DesiredStep(m, sha, Apply(Stamped(sha, a)));
    hide CommonConfig, NodeConfig, Known, DesiredStep, ConfigClash;
    assert sha(a) != sha(b);
  }

  /** With an injective hash, desired objects conflict exactly if two different services share a name or
      the common configuration map shares one with a node's. */
  lemma NoConflictExactly(m: Druid, sha: Sha)
    requires Injective(sha)
    ensures NoConflict(m, sha) <==> ServicesAgree(m) && !ConfigClash(m)
  {
    hide Known, ConfigClash, DesiredStep, ServiceAt, ServicesOf;
    if ServicesAgree(m) && !ConfigClash(m) { AgreeingMeansNoConflict(m, sha); }
    if ConfigClash(m) { ClashConflicts(m, sha); }
    if NoConflict(m, sha) {
      forall a, b, i: nat, j: nat
        | a in KnownKeys(m) && b in KnownKeys(m) && i < |ServicesOf(m, m.nodes[a])| && j < |ServicesOf(m, m.nodes[b])|
        ensures ServiceAt(m, a, i).id == ServiceAt(m, b, j).id ==> ServiceAt(m, a, i) == ServiceAt(m, b, j)
      {
        ServiceIsDesired(m, sha, a, i);
        ServiceIsDesired(m, sha, b, j);
        var s, t := Apply(Stamped(sha, ServiceAt(m, a, i))), Apply(Stamped(sha, ServiceAt(m, b, j)));
        assert s.d.body.id == t.d.body.id ==> s.d.stamp == t.d.stamp;
      }
    }
  }

  /** Services of two nodes are never the same object, so they agree only under distinct names. */
  lemma NodesNeedDistinctNames(m: Druid, a: string, b: string, i: nat, j: nat)
    requires ServicesAgree(m) && a in KnownKeys(m) && b in KnownKeys(m) && a != b
    requires i < |ServicesOf(m, m.nodes[a])| && j < |ServicesOf(m, m.nodes[b])|
    ensures ServiceNameAt(m, a, i) != ServiceNameAt(m, b, j)
  {
    NodeNameInjective(m.name, a, b);
    hide NodeName, ServicesOf, Known;
    var x, y := ServiceAt(m, a, i), ServiceAt(m, b, j);
    assert x.labels["nodeSpecUniqueStr"] != y.labels["nodeSpecUniqueStr"];
  }
}
