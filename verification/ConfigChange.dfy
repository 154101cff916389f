/** A changed configuration map forces its workloads to be updated. */
module ConfigChange {
  import opened Cluster
  import opened Convergence
  import opened Deploy
  import opened Exactness
  import opened Naming
  import opened Ordering
  import opened Plans
  import opened Rollout
  import opened Sharing

  /** The standard base64 alphabet (section 4 of RFC 4648) with its padding character. */
  predicate Base64Char(c: char) {
    'A' <= c <= 'Z' || 'a' <= c <= 'z' || '0' <= c <= '9' || c == '+' || c == '/' || c == '='
  }

  predicate Base64(s: string) { forall i :: 0 <= i < |s| ==> Base64Char(s[i]) }

  ghost predicate HashesAreBase64(sha: Sha) { forall b :: Base64(sha(b)) }

  /** Joining with a dash loses nothing, because no base64 character is a dash. */
  lemma JoinInjective(a: string, b: string, c: string, d: string)
    requires Base64(a) && Base64(c)
    ensures a + "-" + b == c + "-" + d <==> a == c && b == d
  {
    if a + "-" + b == c + "-" + d {
      var l, r := a + ("-" + b), c + ("-" + d);
      assert l == a + "-" + b == c + "-" + d == r;
      assert l[|a|] == '-' && forall i :: 0 <= i < |a| ==> l[i] == a[i] && l[i] != '-';
      assert r[|c|] == '-' && forall i :: 0 <= i < |c| ==> r[i] == c[i] && r[i] != '-';
      assert |a| == |c|;
      ConcatCancel(a, "-" + b, c, "-" + d);
      ConcatCancel("-", b, "-", d);
    }
  }

  /** The joined hash tells any two pairs of configuration maps apart. */
  lemma ConfigShaTellsApart(m1: Druid, spec1: NodeSpec, m2: Druid, spec2: NodeSpec, sha: Sha, key: string)
    requires Injective(sha) && HashesAreBase64(sha)
    ensures ConfigSha(m1, sha, key, spec1) == ConfigSha(m2, sha, key, spec2) <==>
            CommonConfig(m1) == CommonConfig(m2) && NodeConfig(m1, key, spec1) == NodeConfig(m2, key, spec2)
  {
    JoinInjective(sha(CommonConfig(m1)), sha(NodeConfig(m1, key, spec1)), sha(CommonConfig(m2)),
      sha(NodeConfig(m2, key, spec2)));
  }

  ghost predicate ConfigsDiffer(m1: Druid, m2: Druid, key: string)
    requires key in m1.nodes && key in m2.nodes
  {
    || CommonConfig(m1) != CommonConfig(m2)
    || NodeConfig(m1, key, m1.nodes[key]) != NodeConfig(m2, key, m2.nodes[key])
  }

  /** Whatever else stays the same, a change of the common or the node configuration map changes the
      hash annotation the workload is given. */
  lemma ConfigChangesWorkloadStamp(m1: Druid, m2: Druid, sha: Sha, key: string)
    requires Injective(sha) && HashesAreBase64(sha)
    requires key in m1.nodes && key in m2.nodes
    requires ConfigsDiffer(m1, m2, key)
    ensures WorkloadOf(m1, sha, key).stamp != WorkloadOf(m2, sha, key).stamp
  {
    var spec1, spec2 := m1.nodes[key], m2.nodes[key];
    ConfigShaTellsApart(m1, spec1, m2, spec2, sha, key);
    var e1, e2 := WorkloadEnv(m1, sha, key, spec1), WorkloadEnv(m2, sha, key, spec2);
    assert e1[|e1| - 1] == ("configMapSHA", ConfigSha(m1, sha, key, spec1));
    assert e2[|e2| - 1] == ("configMapSHA", ConfigSha(m2, sha, key, spec2));
    hide ConfigSha, CommonConfig, NodeConfig, NodeLabels, FirstServiceName;
    assert Workload(m1, sha, key, spec1).content.env == e1 && Workload(m2, sha, key, spec2).content.env == e2;
    assert Workload(m1, sha, key, spec1) != Workload(m2, sha, key, spec2);
  }

  // Reaching the workload

  lemma {:induction false} NamesWithin(gate: Gate, steps: seq<Step>, ans: nat -> Answers, w: World)
    ensures RunSteps(gate, steps, ans, w).0.names <= w.names + StepIds(steps)
  {
    if steps != [] {
      StepFrame(gate, steps[0], ans, w);
      assert steps == [steps[0]] + steps[1..];
      StepIdsConcat([steps[0]], steps[1..]);
      OneStepIds(steps[0]);
      hide DoStep, StepIds;
      var (w1, v) := DoStep(gate, steps[0], ans, w);
      if v == Continue { NamesWithin(gate, steps[1..], ans, w1); }
    }
  }

  /** No step but the `p`-th has the name of its workload. */
  lemma OnlyHere(plan: seq<Step>, p: nat)
    requires p < |plan| && plan[p].Roll? && WellKinded(plan) && RollsDistinct(plan)
    ensures plan[p].d.body.id !in StepIds(plan[..p]) && plan[p].d.body.id !in StepIds(plan[p + 1..])
  {
    var tail := plan[p + 1..];
    assert forall i :: 0 <= i < |tail| ==> tail[i] == plan[i + p + 1];
  }

  /** The workload of a stale step: updated, or the pass failed and left it as it was. */
  ghost predicate UpdatedOrFailed(gate: Gate, d: Desired, before: Objects, w: World, v: Verdict) {
    && d.body.id in before && d.body.id in w.objects
    && (v != Fail ==> Current(d, w.objects))
    && if Updated(d.body.id) in w.log then
         Current(d, w.objects) && (gate.rolling ==> v == Stop && w.log[|w.log| - 1] == Updated(d.body.id))
       else
         v == Fail && w.objects[d.body.id] == before[d.body.id]
  }

  lemma StaleStep(gate: Gate, s: Step, ans: nat -> Answers, w: World)
    requires s.Roll? && s.d.body.id in w.objects && !Current(s.d, w.objects) && Updated(s.d.body.id) !in w.log
    ensures var (w', v) := DoStep(gate, s, ans, w);
            s.d.body.id in w'.names && UpdatedOrFailed(gate, s.d, w.objects, w', v) && (gate.rolling ==> v != Continue)
  {
    hide ReadinessOf;
  }

  lemma StepAppends(gate: Gate, s: Step, ans: nat -> Answers, w: World, e: Event)
    requires e !in w.log && e.id !in StepId(s)
    ensures e !in DoStep(gate, s, ans, w).0.log
  {
    hide ReadinessOf;
  }

  lemma {:induction false} LogWithin(gate: Gate, steps: seq<Step>, ans: nat -> Answers, w: World, e: Event)
    requires e !in w.log && e.id !in StepIds(steps)
    ensures e !in RunSteps(gate, steps, ans, w).0.log
  {
    if steps != [] {
      assert steps == [steps[0]] + steps[1..];
      StepIdsConcat([steps[0]], steps[1..]);
      OneStepIds(steps[0]);
      hide DoStep, StepIds, StepId;
      StepAppends(gate, steps[0], ans, w, e);
      var (w1, v) := DoStep(gate, steps[0], ans, w);
      if v == Continue { LogWithin(gate, steps[1..], ans, w1, e); }
    }
  }

  /** A stale workload that the steps reach is updated, or they fail and leave it; under the rolling gate
      they never get past it. */
  lemma StaleWorkloadReached(gate: Gate, plan: seq<Step>, p: nat, ans: nat -> Answers, objects: Objects)
    requires p < |plan| && plan[p].Roll? && WellKinded(plan) && RollsDistinct(plan)
    requires plan[p].d.body.id in objects && !Current(plan[p].d, objects)
    ensures var (w, v) := RunSteps(gate, plan, ans, Start(objects));
            && (plan[p].d.body.id in w.names ==> UpdatedOrFailed(gate, plan[p].d, objects, w, v))
            && (plan[p].d.body.id !in w.names || gate.rolling ==> v != Continue)
  {
    hide DoStep, StepIds, WellKinded, RollsDistinct, RunSteps;
    var s, id := plan[p], plan[p].d.body.id;
    var head, tail := plan[..p], plan[p + 1..];
    assert plan == head + ([s] + tail);
    OnlyHere(plan, p);
    RunConcat(gate, head, [s] + tail, ans, Start(objects));
    var (w1, v1) := RunSteps(gate, head, ans, Start(objects));
    StepsFrame(gate, head, ans, Start(objects));
    NamesWithin(gate, head, ans, Start(objects));
    LogWithin(gate, head, ans, Start(objects), Updated(id));
    RunConcat(gate, [s], tail, ans, w1);
    RunOne(gate, s, ans, w1);
    StaleStep(gate, s, ans, w1);
    var (w2, v2) := DoStep(gate, s, ans, w1);
    if v1 == Continue && v2 == Continue {
      AfterUpdate(gate, s.d, tail, ans, objects, w2);
    }
  }

  lemma {:induction false} NamesKept(gate: Gate, steps: seq<Step>, ans: nat -> Answers, w: World)
    ensures w.names <= RunSteps(gate, steps, ans, w).0.names
  {
    if steps != [] {
      StepFrame(gate, steps[0], ans, w);
      hide DoStep;
      var (w1, v) := DoStep(gate, steps[0], ans, w);
      if v == Continue { NamesKept(gate, steps[1..], ans, w1); }
    }
  }

  lemma AfterUpdate(gate: Gate, d: Desired, steps: seq<Step>, ans: nat -> Answers, before: Objects, w: World)
    requires !gate.rolling && d.body.id !in StepIds(steps) && d.body.id in w.names
    requires UpdatedOrFailed(gate, d, before, w, Continue)
    ensures var (w', v) := RunSteps(gate, steps, ans, w);
            d.body.id in w'.names && UpdatedOrFailed(gate, d, before, w', v)
  {
    StepsFrame(gate, steps, ans, w);
    NamesKept(gate, steps, ans, w);
    LogGrows(gate, steps, ans, w);
    hide RunSteps, StepIds;
    var w' := RunSteps(gate, steps, ans, w).0;
    var i :| 0 <= i < |w.log| && w.log[i] == Updated(d.body.id);
    assert w'.log[i] == Updated(d.body.id);
  }

  /** What a pass does with a stale workload, whatever fails: if it gets there, it updates the workload or
      fails and leaves it alone; a pass that completes has updated it; and with a rolling deploy the
      update is its last write and no pass completes. */
  ghost predicate Reaches(rolling: bool, d: Desired, before: Objects, w: World, out: Outcome) {
    var id := d.body.id;
    && (id in w.names ==>
          && id in before && id in w.objects
          && if Updated(id) in w.log then
               Current(d, w.objects) && (rolling ==> out == Waiting && w.log[|w.log| - 1] == Updated(id))
             else
               out == Failed && w.objects[id] == before[id])
    && (out == Completed ==> Updated(id) in w.log && !rolling)
  }

  /** The workload object this pass plans for a node. */
  function Planned(sha: Sha, input: PassInput, key: string): Desired
    requires key in input.resource.nodes && forall k :: k in input.iter ==> k in input.resource.nodes
  {
    var m := AsRead(input);
    Stamped(sha, Workload(AtVisit(m, sha, Ordered(m.nodes, input.iter), key), sha, key, m.nodes[key]))
  }

  lemma {:induction false} RollInVisits(v: Druid, sha: Sha, keys: seq<string>, key: string)
    requires key in keys && forall k :: k in keys ==> k in v.nodes
    ensures RollStep(AtVisit(v, sha, keys, key), sha, key, v.nodes[key]) in VisitsPlan(v, sha, keys)
    decreases |keys|
  {
    hide NodeSteps, Visited, RollStep;
    if keys[0] == key {
      NodeStepsRoll(v, sha, key, v.nodes[key]);
    } else {
      RollInVisits(Visited(v, sha, keys[0], v.nodes[keys[0]]), sha, keys[1..], key);
    }
  }

  lemma PlannedInPlan(sha: Sha, input: PassInput, key: string)
    requires Enumerates(input.iter, input.resource.nodes.Keys) && key in KnownKeys(input.resource)
    ensures var m := AsRead(input);
            Roll(Planned(sha, input, key), NodeRank(m, key)) in PlanOf(m, sha, Applied(input), input.iter)
  {
    var m := AsRead(input);
    assert KnownKeys(m) == KnownKeys(input.resource) by { hide Rank, CommonFiles; }
    hide Known, AsRead, Applied, VisitsPlan, Workload, AtVisit, Ordered, Rank, Preamble;
    OrderedVisits(m, input.iter);
    RollInVisits(m, sha, Ordered(m.nodes, input.iter), key);
  }

  /** Where the plan of a pass has it. */
  lemma PlannedAt(sha: Sha, input: PassInput, key: string) returns (plan: seq<Step>, p: nat)
    requires Enumerates(input.iter, input.resource.nodes.Keys) && key in KnownKeys(input.resource)
    ensures plan == PlanOf(AsRead(input), sha, Applied(input), input.iter) && WellKinded(plan) && RollsDistinct(plan)
    ensures p < |plan| && plan[p].Roll? && plan[p].d == Planned(sha, input, key)
  {
    hide PlanOf, Known, Planned, WellKinded, RollsDistinct, RollsRanked, HasWorkloads, OnlyWorkloads, Applied, NodeRank;
    PlannedInPlan(sha, input, key);
    var m := AsRead(input);
    plan := PlanOf(m, sha, Applied(input), input.iter);
    PlanRolls(m, sha, Applied(input), input.iter);
    var roll := Roll(Planned(sha, input, key), NodeRank(m, key));
    assert roll in plan;
    p :| p < |plan| && plan[p] == roll;
  }

  /** Whatever earlier nodes left behind, a planned workload has its node's name and configuration. */
  lemma PlannedLike(sha: Sha, input: PassInput, key: string)
    requires Enumerates(input.iter, input.resource.nodes.Keys) && key in input.resource.nodes
    ensures Planned(sha, input, key).body.id == WorkloadId(input.resource, key, input.resource.nodes[key])
    ensures exists v: Druid :: && v.nodes == input.resource.nodes && Planned(sha, input, key) == WorkloadOf(v, sha, key)
                        && CommonConfig(v) == CommonConfig(AsRead(input))
                        && NodeConfig(v, key, v.nodes[key]) == NodeConfig(AsRead(input), key, v.nodes[key])
  {
    var m := AsRead(input);
    assert m.name == input.resource.name && m.nodes == input.resource.nodes;
    hide AsRead, Ordered, AtVisit, Alike;
    var keys := Ordered(m.nodes, input.iter);
    var v := AtVisit(m, sha, keys, key);
    AlikeItself(m);
    BeforeAlike(m, m, sha, keys, key);
    AlikeConfigs(m, v, key);
    hide CommonConfig, NodeConfig, NodeLabels, WorkloadEnv, FirstServiceName, WorkloadProbes, NodeName;
    assert Planned(sha, input, key) == WorkloadOf(v, sha, key);
  }

  lemma AlikeConfigs(m: Druid, v: Druid, key: string)
    requires Alike(m, v) && key in m.nodes
    ensures v.name == m.name && v.nodes == m.nodes && CommonConfig(v) == CommonConfig(m)
    ensures NodeConfig(v, key, m.nodes[key]) == NodeConfig(m, key, m.nodes[key])
  {
  }

  /** A pass that wants another configuration plans another hash. */
  lemma PlannedStampDiffers(m: Druid, sha: Sha, input: PassInput, key: string)
    requires Injective(sha) && HashesAreBase64(sha) && Enumerates(input.iter, input.resource.nodes.Keys)
    requires key in input.resource.nodes && key in m.nodes && ConfigsDiffer(m, AsRead(input), key)
    ensures Planned(sha, input, key).stamp != WorkloadOf(m, sha, key).stamp
  {
    PlannedLike(sha, input, key);
    hide Planned, WorkloadOf, CommonConfig, NodeConfig, Injective, HashesAreBase64;
    var v: Druid :| && v.nodes == input.resource.nodes && Planned(sha, input, key) == WorkloadOf(v, sha, key)
             && CommonConfig(v) == CommonConfig(AsRead(input))
             && NodeConfig(v, key, v.nodes[key]) == NodeConfig(AsRead(input), key, v.nodes[key]);
    ConfigChangesWorkloadStamp(m, v, sha, key);
  }

  lemma StaleWorkloadInPlan(sha: Sha, input: PassInput, key: string, objects: Objects)
    requires Enumerates(input.iter, input.resource.nodes.Keys) && key in KnownKeys(input.resource)
    requires Planned(sha, input, key).body.id in objects && !Current(Planned(sha, input, key), objects)
    ensures var d, (w, v) := Planned(sha, input, key), PassSteps(sha, input, objects);
            && (d.body.id in w.names ==> UpdatedOrFailed(GateOf(input.resource), d, objects, w, v))
            && (d.body.id !in w.names || input.resource.rollingDeploy ==> v != Continue)
  {
    hide PlanOf, Known, Planned, RunSteps, WellKinded, RollsDistinct, UpdatedOrFailed, Applied, CommonFiles, Current;
    var plan, p := PlannedAt(sha, input, key);
    StaleWorkloadReached(GateOf(AsRead(input)), plan, p, input.ans, objects);
  }

  lemma VerdictReaches(gate: Gate, d: Desired, before: Objects, w: World, v: Verdict, selector: Labels,
        sa: SweepAnswers)
    requires d.body.id in w.names ==> UpdatedOrFailed(gate, d, before, w, v)
    requires d.body.id !in w.names || gate.rolling ==> v != Continue
    ensures Reaches(gate.rolling, d, before, Start(before), Invalid)
    ensures v == Fail ==> Reaches(gate.rolling, d, before, w, Failed)
    ensures v == Stop ==> Reaches(gate.rolling, d, before, w, Waiting)
    ensures v == Continue ==> Reaches(gate.rolling, d, before, Sweep(COLLECTED, selector, sa, w), Completed)
  {
    SweepKeepsNames(COLLECTED, selector, sa, w);
    hide Doomed;
  }

  lemma StaleWorkloadInPass(sha: Sha, input: PassInput, key: string, objects: Objects)
    requires Enumerates(input.iter, input.resource.nodes.Keys) && key in KnownKeys(input.resource)
    requires Planned(sha, input, key).body.id in objects && !Current(Planned(sha, input, key), objects)
    ensures var (w, out) := Pass(sha, input, objects);
            Reaches(input.resource.rollingDeploy, Planned(sha, input, key), objects, w, out)
  {
    hide PassSteps, Known, Planned, ValidSpec, ClusterLabels, Sweep, Reaches, UpdatedOrFailed, Current;
    StaleWorkloadInPlan(sha, input, key, objects);
    var (w, v) := PassSteps(sha, input, objects);
    VerdictReaches(GateOf(input.resource), Planned(sha, input, key), objects, w, v, ClusterLabels(input.resource),
                   input.sa);
  }

  /** A change of configuration reaches the workload: let it be stored as an old resource `m` wanted it, and
      let the resource, as this pass reads it, want another common or node configuration map. This holds
      whatever the nodes share. */
  lemma ConfigChangeReachesWorkload(m: Druid, sha: Sha, key: string, input: PassInput, objects: Objects)
    requires Injective(sha) && HashesAreBase64(sha) && Enumerates(input.iter, input.resource.nodes.Keys)
    requires key in KnownKeys(input.resource) && key in m.nodes && ConfigsDiffer(m, AsRead(input), key)
    requires WorkloadOf(m, sha, key).body.id == WorkloadId(input.resource, key, input.resource.nodes[key])
    requires Current(WorkloadOf(m, sha, key), objects)
    ensures var (w, out) := Pass(sha, input, objects);
            Reaches(input.resource.rollingDeploy, Planned(sha, input, key), objects, w, out)
  {
    PlannedLike(sha, input, key);
    PlannedStampDiffers(m, sha, input, key);
    hide Pass, Planned, WorkloadOf, ConfigsDiffer, Known, Reaches, Injective, HashesAreBase64, AsRead;
    StaleWorkloadInPass(sha, input, key, objects);
  }
}
