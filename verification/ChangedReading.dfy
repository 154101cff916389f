/** What a pass does that reads other common configuration than the stored objects were made from, for
    instance because a referenced configuration map could not be read. */
module ChangedReading {
  import opened Cluster
  import opened ConfigChange
  import opened Convergence
  import opened Deploy
  import opened Exactness
  import opened Ordering
  import opened Plans
  import opened Rollout
  import opened Sharing

  function FirstRoll(plan: seq<Step>): (p: nat)
    requires exists s :: s in plan && s.Roll?
    ensures p < |plan| && plan[p].Roll? && forall i :: 0 <= i < p ==> !plan[i].Roll?
  {
    if plan[0].Roll? then 0 else
      assert plan == [plan[0]] + plan[1..];
      1 + FirstRoll(plan[1..])
  }

  /** Calm steps before the first workload all go on. */
  lemma {:induction false} CalmHead(steps: seq<Step>, ans: nat -> Answers, w: World)
    requires Calm(ans) && forall s :: s in steps ==> !s.Roll?
    ensures RunSteps(ROLLING, steps, ans, w).1 == Continue
  {
    if steps != [] {
      assert steps[0] in steps && forall s :: s in steps[1..] ==> s in steps;
      CalmStep(steps[0], ans, w);
      hide DoStep;
      CalmHead(steps[1..], ans, DoStep(ROLLING, steps[0], ans, w).0);
    }
  }

  lemma CalmStaleStep(s: Step, ans: nat -> Answers, w: World)
    requires Calm(ans) && s.Roll? && s.d.body.id in w.objects && !Current(s.d, w.objects)
    ensures DoStep(ROLLING, s, ans, w).1 == Stop && Current(s.d, DoStep(ROLLING, s, ans, w).0.objects)
  {
  }

  /** With every workload stored but none up to date, the first one is updated and nothing else moves. */
  lemma FirstStaleUpdated(plan: seq<Step>, p: nat, ans: nat -> Answers, objects: Objects)
    requires Calm(ans) && WellKinded(plan) && RollsDistinct(plan)
    requires p < |plan| && plan[p].Roll? && forall i :: 0 <= i < p ==> !plan[i].Roll?
    requires plan[p].d.body.id in objects && !Current(plan[p].d, objects)
    ensures var (w, v) := RunSteps(ROLLING, plan, ans, Start(objects));
            && v == Stop && Current(plan[p].d, w.objects)
            && (forall id :: id in objects && IsWorkload(id.kind) && id != plan[p].d.body.id ==>
                  id in w.objects && w.objects[id] == objects[id])
  {
    hide RunSteps, DoStep, StepIds, RollsDistinct, Calm, ReadinessOf;
    var s, head, tail := plan[p], plan[..p], plan[p + 1..];
    assert plan == head + ([s] + tail);
    RunConcat(ROLLING, head, [s] + tail, ans, Start(objects));
    CalmHead(head, ans, Start(objects));
    StepsFrame(ROLLING, head, ans, Start(objects));
    NoWorkloadBefore(plan, p);
    hide WellKinded;
    var w1 := RunSteps(ROLLING, head, ans, Start(objects)).0;
    assert w1.objects[s.d.body.id] == objects[s.d.body.id];
    RunConcat(ROLLING, [s], tail, ans, w1);
    RunOne(ROLLING, s, ans, w1);
    CalmStaleStep(s, ans, w1);
    StepFrame(ROLLING, s, ans, w1);
  }

  lemma NoWorkloadBefore(plan: seq<Step>, p: nat)
    requires WellKinded(plan) && p < |plan| && plan[p].Roll? && forall i :: 0 <= i < p ==> !plan[i].Roll?
    ensures forall id: Id :: id in StepIds(plan[..p]) ==> !IsWorkload(id.kind)
    ensures IsWorkload(plan[p].d.body.id.kind)
  {
  }

  /** The resource, as the pass reads it, has the nodes of `m` under the same names, and wants another common
      configuration. */
  ghost predicate OtherCommonConfig(m: Druid, input: PassInput) {
    && input.resource.nodes.Keys == m.nodes.Keys && KnownKeys(input.resource) == KnownKeys(m)
    && CommonConfig(AsRead(input)) != CommonConfig(m)
    && forall k :: k in m.nodes ==>
         && NodeRank(input.resource, k) == NodeRank(m, k)
         && WorkloadId(input.resource, k, input.resource.nodes[k]) == WorkloadId(m, k, m.nodes[k])
  }

  /** The pass plans every workload under its name in `m`, with another hash. */
  lemma OtherConfigPlansOtherHash(m: Druid, sha: Sha, input: PassInput, key: string)
    requires Injective(sha) && HashesAreBase64(sha) && Enumerates(input.iter, input.resource.nodes.Keys)
    requires OtherCommonConfig(m, input) && key in KnownKeys(m) && key in m.nodes
    ensures Planned(sha, input, key).body.id == WorkloadOf(m, sha, key).body.id
    ensures Planned(sha, input, key).stamp != WorkloadOf(m, sha, key).stamp
  {
    hide Planned, CommonConfig, NodeConfig, Injective, HashesAreBase64, Known, NodeRank, AsRead;
    PlannedLike(sha, input, key);
    assert ConfigsDiffer(m, AsRead(input), key) by { AsReadNodes(input); }
    PlannedStampDiffers(m, sha, input, key);
  }

  lemma AsReadNodes(input: PassInput)
    ensures AsRead(input).nodes == input.resource.nodes && GateOf(AsRead(input)) == GateOf(input.resource)
    ensures KnownKeys(AsRead(input)) == KnownKeys(input.resource)
  {
    hide CommonFiles, Rank;
  }

  // Any pass

  /** Among `steps` only those that want `d` have its name. */
  ghost predicate OneWant(steps: seq<Step>, d: Desired) {
    forall s :: s in steps && d.body.id in StepId(s) ==> s.d == d
  }

  /** What happens to an object that only one desired object stands for. */
  ghost predicate OneWriter(d: Desired, w: World, w': World) {
    var id := d.body.id;
    && (id in w.objects ==> id in w'.objects)
    && (id in w'.objects ==> Current(d, w'.objects) || (id in w.objects && w'.objects[id] == w.objects[id]))
    && (id in w.objects && !Current(d, w.objects) && Updated(id) !in w.log ==>
          (Updated(id) in w'.log <==> Current(d, w'.objects)))
  }

  lemma OneStepWriter(gate: Gate, s: Step, ans: nat -> Answers, w: World, d: Desired)
    requires d.body.id in StepId(s) ==> s.d == d
    ensures OneWriter(d, w, DoStep(gate, s, ans, w).0)
    ensures Updated(d.body.id) in w.log ==> Updated(d.body.id) in DoStep(gate, s, ans, w).0.log
    ensures Current(d, w.objects) ==> Current(d, DoStep(gate, s, ans, w).0.objects)
  {
    hide ReadinessOf;
  }

  lemma {:induction false} StepsOneWriter(gate: Gate, steps: seq<Step>, ans: nat -> Answers, w: World, d: Desired)
    requires OneWant(steps, d)
    ensures OneWriter(d, w, RunSteps(gate, steps, ans, w).0)
    ensures Updated(d.body.id) in w.log ==> Updated(d.body.id) in RunSteps(gate, steps, ans, w).0.log
    ensures Current(d, w.objects) ==> Current(d, RunSteps(gate, steps, ans, w).0.objects)
  {
    if steps != [] {
      assert steps[0] in steps && forall s :: s in steps[1..] ==> s in steps;
      OneStepWriter(gate, steps[0], ans, w, d);
      hide DoStep;
      var (w1, v) := DoStep(gate, steps[0], ans, w);
      if v == Continue { StepsOneWriter(gate, steps[1..], ans, w1, d); }
    }
  }

  lemma RollIsOneWant(plan: seq<Step>, p: nat)
    requires WellKinded(plan) && RollsDistinct(plan) && p < |plan| && plan[p].Roll?
    ensures OneWant(plan, plan[p].d)
  {
    forall s | s in plan && plan[p].d.body.id in StepId(s) ensures s.d == plan[p].d {
      var i :| 0 <= i < |plan| && plan[i] == s;
    }
  }

  lemma PlannedOneWriter(sha: Sha, input: PassInput, key: string, objects: Objects)
    requires Enumerates(input.iter, input.resource.nodes.Keys) && key in KnownKeys(input.resource)
    ensures OneWriter(Planned(sha, input, key), Start(objects), PassSteps(sha, input, objects).0)
  {
    hide PlanOf, Known, Planned, RunSteps, WellKinded, RollsDistinct, OneWriter, OneWant, Applied, AsRead;
    var plan, p := PlannedAt(sha, input, key);
    RollIsOneWant(plan, p);
    StepsOneWriter(GateOf(AsRead(input)), plan, input.ans, Start(objects), plan[p].d);
  }

  /** A completed pass registers every workload, so its sweep leaves them alone. */
  lemma WorkloadRegistered(sha: Sha, input: PassInput, key: string, objects: Objects)
    requires Enumerates(input.iter, input.resource.nodes.Keys) && key in KnownKeys(input.resource)
    requires PassSteps(sha, input, objects).1 == Continue
    ensures Planned(sha, input, key).body.id in PassSteps(sha, input, objects).0.names
  {
    hide PlanOf, Known, Planned, RunSteps, WellKinded, RollsDistinct, Applied, AsRead;
    var plan, p := PlannedAt(sha, input, key);
    NamesRegistered(GateOf(AsRead(input)), plan, input.ans, Start(objects));
    assert Planned(sha, input, key).body.id in StepId(plan[p]);
  }

  lemma PassOneWriter(sha: Sha, input: PassInput, key: string, objects: Objects)
    requires Enumerates(input.iter, input.resource.nodes.Keys) && key in KnownKeys(input.resource)
    ensures OneWriter(Planned(sha, input, key), Start(objects), Pass(sha, input, objects).0)
  {
    hide PassSteps, Planned, ValidSpec, ClusterLabels, OneWriter, Sweep, Known;
    PlannedOneWriter(sha, input, key, objects);
    var d := Planned(sha, input, key);
    var (w, v) := PassSteps(sha, input, objects);
    if v == Continue {
      WorkloadRegistered(sha, input, key, objects);
      SweepIsOneWriter(d, Start(objects), w, ClusterLabels(input.resource), input.sa);
    }
    UntouchedIsOneWriter(d, objects);
  }

  lemma SweepIsOneWriter(d: Desired, w0: World, w: World, selector: Labels, sa: SweepAnswers)
    requires OneWriter(d, w0, w) && d.body.id in w.names
    ensures OneWriter(d, w0, Sweep(COLLECTED, selector, sa, w))
  {
    SweepKeepsNames(COLLECTED, selector, sa, w);
    hide Doomed;
  }

  lemma UntouchedIsOneWriter(d: Desired, objects: Objects)
    ensures OneWriter(d, Start(objects), Start(objects))
  {
  }

  /** A pass that wants another common configuration, from any state and with any failures: a workload is
      as `m` wants it afterwards exactly if it was before and the pass did not update it. */
  lemma OtherConfigLeavesExactly(m: Druid, sha: Sha, input: PassInput, objects: Objects, key: string)
    requires Injective(sha) && HashesAreBase64(sha) && Enumerates(input.iter, input.resource.nodes.Keys)
    requires OtherCommonConfig(m, input) && key in KnownKeys(m) && key in m.nodes
    ensures var d, w := WorkloadOf(m, sha, key), Pass(sha, input, objects).0;
            Current(d, w.objects) <==> Current(d, objects) && Updated(d.body.id) !in w.log
  {
    OtherConfigPlansOtherHash(m, sha, input, key);
    PassOneWriter(sha, input, key, objects);
    hide Pass, Planned, WorkloadOf, Injective, HashesAreBase64, Known, OtherCommonConfig;
  }

  /** The pass updated the workload of the node. */
  predicate Moved(m: Druid, sha: Sha, key: string, w: World)
    requires key in m.nodes
  {
    Updated(WorkloadOf(m, sha, key).body.id) in w.log
  }

  /** So it keeps the rollout of `m` in rank order exactly if with every workload it also updates the
      up-to-date ones of higher ranks. */
  lemma OtherConfigKeepsFrontierExactly(m: Druid, sha: Sha, input: PassInput, objects: Objects)
    requires Injective(sha) && HashesAreBase64(sha) && Enumerates(input.iter, input.resource.nodes.Keys)
    requires OtherCommonConfig(m, input) && Frontier(m, sha, objects)
    ensures var w := Pass(sha, input, objects).0;
            Frontier(m, sha, w.objects) <==>
            forall a, b | a in KnownKeys(m) && b in KnownKeys(m) && NodeRank(m, a) < NodeRank(m, b)
              :: Moved(m, sha, a, w) && Current(WorkloadOf(m, sha, b), objects) ==> Moved(m, sha, b, w)
  {
    hide Pass, WorkloadOf, Injective, HashesAreBase64, Known, OtherCommonConfig, NodeRank, Current;
    KnownIsNode(m);
    var w := Pass(sha, input, objects).0;
    forall k | k in KnownKeys(m)
      ensures Current(WorkloadOf(m, sha, k), w.objects) <==>
              Current(WorkloadOf(m, sha, k), objects) && !Moved(m, sha, k, w)
    {
      OtherConfigLeavesExactly(m, sha, input, objects, k);
    }
  }

  // A calm pass over up-to-date workloads

  ghost predicate AllWorkloadsCurrent(m: Druid, sha: Sha, objects: Objects) {
    forall k :: k in KnownKeys(m) ==> Current(WorkloadOf(m, sha, k), objects)
  }

  /** A node of the lowest rank is no longer as `m` wants it, and all others still are. */
  ghost predicate LowestMoved(m: Druid, sha: Sha, key: string, objects: Objects) {
    && key in KnownKeys(m) && (forall k :: k in KnownKeys(m) ==> NodeRank(m, key) <= NodeRank(m, k))
    && (forall k :: k in KnownKeys(m) ==> (Current(WorkloadOf(m, sha, k), objects) <==> k != key))
  }

  /** The first workload step of a plan is that of a node of the lowest rank. */
  lemma FirstIsLowest(m: Druid, plan: seq<Step>) returns (p: nat, key: string)
    requires HasWorkloads(m, plan) && OnlyWorkloads(m, plan) && RollsRanked(plan) && KnownKeys(m) != {}
    ensures p < |plan| && plan[p].Roll? && (forall i :: 0 <= i < p ==> !plan[i].Roll?)
    ensures key in KnownKeys(m) && IsWorkloadOf(m, plan[p], key)
    ensures forall k :: k in KnownKeys(m) && k in m.nodes ==> NodeRank(m, key) <= NodeRank(m, k)
  {
    hide Known, NodeRank, WorkloadId;
    p := SomeRoll(m, plan);
    key := KeyOfRoll(m, plan, p);
    LowestFirst(m, plan, p, key);
  }

  lemma SomeRoll(m: Druid, plan: seq<Step>) returns (p: nat)
    requires HasWorkloads(m, plan) && KnownKeys(m) != {}
    ensures p < |plan| && plan[p].Roll? && (forall i :: 0 <= i < p ==> !plan[i].Roll?)
  {
    hide Known, NodeRank, WorkloadId;
    var some :| some in KnownKeys(m);
    var i :| 0 <= i < |plan| && IsWorkloadOf(m, plan[i], some);
    assert plan[i] in plan;
    p := FirstRoll(plan);
  }

  lemma KeyOfRoll(m: Druid, plan: seq<Step>, p: nat) returns (key: string)
    requires OnlyWorkloads(m, plan) && p < |plan| && plan[p].Roll?
    ensures key in KnownKeys(m) && IsWorkloadOf(m, plan[p], key)
  {
    hide Known, IsWorkloadOf;
    key :| key in KnownKeys(m) && IsWorkloadOf(m, plan[p], key);
  }

  lemma LowestFirst(m: Druid, plan: seq<Step>, p: nat, key: string)
    requires RollsRanked(plan) && HasWorkloads(m, plan) && p < |plan| && IsWorkloadOf(m, plan[p], key)
    requires forall i :: 0 <= i < p ==> !plan[i].Roll?
    ensures forall k :: k in KnownKeys(m) && k in m.nodes ==> NodeRank(m, key) <= NodeRank(m, k)
  {
    hide NodeRank, Known, WorkloadId;
    forall k | k in KnownKeys(m) && k in m.nodes ensures NodeRank(m, key) <= NodeRank(m, k) {
      var q: nat :| q < |plan| && IsWorkloadOf(m, plan[q], k);
    }
  }

  /** In a plan, the workload step of a node is the planned one. */
  lemma StepIsPlanned(sha: Sha, input: PassInput, plan: seq<Step>, p: nat, key: string)
    requires Enumerates(input.iter, input.resource.nodes.Keys) && key in KnownKeys(input.resource)
    requires plan == PlanOf(AsRead(input), sha, Applied(input), input.iter) && RollsDistinct(plan)
    requires p < |plan| && IsWorkloadOf(AsRead(input), plan[p], key)
    ensures plan[p].d == Planned(sha, input, key)
  {
    PlannedInPlan(sha, input, key);
    PlannedLike(sha, input, key);
    AsReadNodes(input);
    assert AsRead(input).name == input.resource.name;
    hide PlanOf, Known, Planned, Applied, NodeRank, AsRead;
    var q: nat :| q < |plan| && plan[q] == Roll(Planned(sha, input, key), NodeRank(AsRead(input), key));
    assert plan[q].d.body.id == plan[p].d.body.id;
  }

  lemma MovedFromTo(m: Druid, sha: Sha, input: PassInput, key: string, before: Objects, after: Objects)
    requires Injective(sha) && HashesAreBase64(sha) && Enumerates(input.iter, input.resource.nodes.Keys)
    requires OtherCommonConfig(m, input) && AllWorkloadsCurrent(m, sha, before) && key in KnownKeys(m)
    requires key in input.resource.nodes && Current(Planned(sha, input, key), after)
    requires forall id :: id in before && IsWorkload(id.kind) && id != Planned(sha, input, key).body.id ==>
               id in after && after[id] == before[id]
    ensures forall k :: k in KnownKeys(m) ==> (Current(WorkloadOf(m, sha, k), after) <==> k != key)
  {
    KnownIsNode(m);
    OtherConfigPlansOtherHash(m, sha, input, key);
    hide Planned, Injective, HashesAreBase64, Known, OtherCommonConfig;
    forall k | k in KnownKeys(m) ensures Current(WorkloadOf(m, sha, k), after) <==> k != key {
      if k != key { RollsOfTwoNodes(m, sha, k, key); }
      assert IsWorkload(WorkloadOf(m, sha, k).body.id.kind);
    }
  }

  lemma FirstPlannedUpdated(sha: Sha, input: PassInput, objects: Objects) returns (key: string)
    requires Enumerates(input.iter, input.resource.nodes.Keys) && KnownKeys(input.resource) != {}
    requires GateOf(input.resource) == ROLLING && Calm(input.ans)
    requires forall k :: k in KnownKeys(input.resource) ==>
               Planned(sha, input, k).body.id in objects && !Current(Planned(sha, input, k), objects)
    ensures key in KnownKeys(input.resource)
    ensures forall k :: k in KnownKeys(input.resource) ==> NodeRank(input.resource, key) <= NodeRank(input.resource, k)
    ensures var d, (w, v) := Planned(sha, input, key), PassSteps(sha, input, objects);
            && v == Stop && Current(d, w.objects)
            && (forall id :: id in objects && IsWorkload(id.kind) && id != d.body.id ==>
                  id in w.objects && w.objects[id] == objects[id])
  {
    AsReadNodes(input);
    KnownIsNode(input.resource);
    var m := AsRead(input);
    var plan := PlanOf(m, sha, Applied(input), input.iter);
    assert PassSteps(sha, input, objects) == RunSteps(ROLLING, plan, input.ans, Start(objects)) by {
      hide PlanOf, RunSteps;
    }
    hide PlanOf, Known, Planned, RunSteps, WellKinded, RollsDistinct, RollsRanked, HasWorkloads, OnlyWorkloads;
    hide Applied, AsRead, Calm, IsWorkloadOf, Current, PassSteps, GateOf;
    PlanRolls(m, sha, Applied(input), input.iter);
    var p;
    p, key := FirstIsLowest(m, plan);
    SameRanks(m, input.resource, key);
    hide NodeRank;
    StepIsPlanned(sha, input, plan, p, key);
    FirstStaleUpdated(plan, p, input.ans, objects);
  }

  lemma SameRanks(m: Druid, r: Druid, key: string)
    requires m.nodes == r.nodes && KnownKeys(m) == KnownKeys(r) && key in m.nodes
    requires forall k :: k in KnownKeys(m) && k in m.nodes ==> NodeRank(m, key) <= NodeRank(m, k)
    ensures forall k :: k in KnownKeys(r) && k in r.nodes ==> NodeRank(r, key) <= NodeRank(r, k)
  {
    hide Known, Rank;
    forall k | k in KnownKeys(r) && k in r.nodes ensures NodeRank(r, key) <= NodeRank(r, k) {
      assert NodeRank(m, key) <= NodeRank(m, k);
    }
  }

  /** A calm rolling pass that wants another common configuration, over up-to-date workloads, makes exactly
      one workload, of the lowest rank, leave what `m` wants, and waits. */
  lemma OtherConfigMovesLowest(m: Druid, sha: Sha, input: PassInput, objects: Objects)
    requires Injective(sha) && HashesAreBase64(sha) && Enumerates(input.iter, input.resource.nodes.Keys)
    requires OtherCommonConfig(m, input) && AllWorkloadsCurrent(m, sha, objects) && KnownKeys(m) != {}
    requires GateOf(input.resource) == ROLLING && ValidSpec(input.resource) && Calm(input.ans)
    ensures var (w, out) := Pass(sha, input, objects);
            out == Waiting && exists key :: LowestMoved(m, sha, key, w.objects)
  {
    KnownIsNode(m);
    hide PassSteps, Planned, Injective, HashesAreBase64, Known, Calm, ValidSpec, WorkloadOf, NodeRank, WorkloadId;
    hide Finished;
    forall k | k in KnownKeys(input.resource)
      ensures Planned(sha, input, k).body.id in objects && !Current(Planned(sha, input, k), objects)
    {
      OtherConfigPlansOtherHash(m, sha, input, k);
      assert Current(WorkloadOf(m, sha, k), objects);
    }
    var key := FirstPlannedUpdated(sha, input, objects);
    var w := PassSteps(sha, input, objects).0;
    MovedFromTo(m, sha, input, key, objects, w.objects);
    assert LowestMoved(m, sha, key, w.objects);
    assert Pass(sha, input, objects) == (w, Waiting) by { StoppedWaits(ClusterLabels(input.resource), input.sa, w); }
  }

  lemma MovedFrontierExactly(m: Druid, sha: Sha, key: string, objects: Objects)
    requires LowestMoved(m, sha, key, objects)
    ensures Frontier(m, sha, objects) <==>
            forall a, b :: a in KnownKeys(m) && b in KnownKeys(m) ==> NodeRank(m, a) == NodeRank(m, b)
  {
    hide Known, Rank, WorkloadOf, Current;
  }

  /** So such a pass keeps the rollout of `m` in rank order exactly if all nodes have one rank. */
  lemma CalmKeepsFrontierExactly(m: Druid, sha: Sha, input: PassInput, objects: Objects)
    requires Injective(sha) && HashesAreBase64(sha) && Enumerates(input.iter, input.resource.nodes.Keys)
    requires OtherCommonConfig(m, input) && AllWorkloadsCurrent(m, sha, objects) && KnownKeys(m) != {}
    requires GateOf(input.resource) == ROLLING && ValidSpec(input.resource) && Calm(input.ans)
    ensures Frontier(m, sha, Pass(sha, input, objects).0.objects) <==>
            forall a, b :: a in KnownKeys(m) && b in KnownKeys(m) ==> NodeRank(m, a) == NodeRank(m, b)
  {
    OtherConfigMovesLowest(m, sha, input, objects);
    hide Pass, ValidSpec, Known, NodeRank, Injective, HashesAreBase64, Calm, Frontier, OtherCommonConfig;
    hide LowestMoved, AllWorkloadsCurrent;
    var after := Pass(sha, input, objects).0.objects;
    var key :| LowestMoved(m, sha, key, after);
    MovedFrontierExactly(m, sha, key, after);
  }

  lemma StoppedWaits(selector: Labels, sa: SweepAnswers, w: World)
    ensures Finished(selector, sa, (w, Stop)) == (w, Waiting)
  {
  }
}
