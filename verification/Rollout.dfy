/** Safety of the rolling update, for every iteration order of the node map. */
module Rollout {
  import opened Basics
  import opened Cluster
  import opened Deploy
  import opened ExtraConfig
  import opened Ordering
  import opened Plans
  import opened Sharing

  /** Stored with the desired hash annotation. */
  predicate Current(d: Desired, objects: Objects) {
    d.body.id in objects && objects[d.body.id].stamp == Some(d.stamp)
  }

  predicate Settled(d: Desired, objects: Objects) {
    Current(d, objects) && ReadinessOf(objects[d.body.id].status) == Ready
  }

  const ROLLING := Gate(true, true)

  // One step

  /** A step touches only its own object and never makes it less up to date. */
  lemma StepFrame(gate: Gate, s: Step, ans: nat -> Answers, w: World)
    ensures var (w', v) := DoStep(gate, s, ans, w);
            && (forall id :: id !in StepId(s) ==> (id in w'.objects <==> id in w.objects))
            && (forall id :: id !in StepId(s) && id in w.objects ==> w'.objects[id] == w.objects[id])
            && w'.names == w.names + StepId(s)
            && w'.deleted == w.deleted
            && (!s.Finalizers? && v == Continue ==> Current(s.d, w'.objects))
            && (!s.Finalizers? && Current(s.d, w.objects) ==> w'.objects == w.objects)
  {
  }

  /** Under the rolling gate a workload step goes on only past a settled workload, and an update
      ends the pass. */
  lemma RollOutcome(s: Step, ans: nat -> Answers, w: World)
    requires s.Roll?
    ensures var (w', v) := DoStep(ROLLING, s, ans, w);
            && (v == Continue ==> Settled(s.d, w'.objects))
            && (Updated(s.d.body.id) in w'.log[|w.log|..] ==> v == Stop)
  {
  }

  /** Some condition of a Deployment reports that its pods cannot be created. */
  predicate ReplicaFailure(conditions: seq<Condition>) {
    exists i :: 0 <= i < |conditions| && conditions[i].ctype == "ReplicaFailure"
  }

  /** A rolling pass that looks at an up-to-date Deployment fails on such a condition exactly if it is the
      first one; any other order hides it, and the pass goes on if the first condition and the replica
      counts allow. */
  lemma FailureNoticedExactly(s: Step, ans: nat -> Answers, w: World, conditions: seq<Condition>, ready: int, all: int)
    requires s.Roll? && Current(s.d, w.objects) && ans(w.answered) == Answers(false, false, false)
    requires w.objects[s.d.body.id].status == DeploymentStatus(conditions, ready, all) && ReplicaFailure(conditions)
    ensures DoStep(ROLLING, s, ans, w).1 == Fail <==> conditions[0].ctype == "ReplicaFailure"
    ensures DoStep(ROLLING, s, ans, w).1 == Continue <==>
            && conditions[0].ctype != "ReplicaFailure" && ready == all
            && (conditions[0].ctype == "Progressing" ==> conditions[0].status == "True")
  {
  }

  /** A failure that goes unnoticed. */
  lemma FailureMissed()
    ensures var conditions := [Condition("Progressing", "True"), Condition("ReplicaFailure", "True")];
            ReplicaFailure(conditions) && ReadinessOf(DeploymentStatus(conditions, 3, 3)) == Ready
  {
    var conditions := [Condition("Progressing", "True"), Condition("ReplicaFailure", "True")];
    assert conditions[1].ctype == "ReplicaFailure" && conditions[0].ctype != "ReplicaFailure";
  }

  lemma StepLog(gate: Gate, s: Step, ans: nat -> Answers, w: World)
    ensures var (w', _) := DoStep(gate, s, ans, w);
            && w.log <= w'.log && |w'.log| <= |w.log| + 1
            && (|w'.log| > |w.log| ==> !s.Finalizers? && w'.log[|w.log|].id == s.d.body.id)
            && (w'.log == w.log ==> w'.objects == w.objects)
  {
  }

  // Safety within one pass

  ghost predicate SettledBefore(plan: seq<Step>, k: nat, objects: Objects)
    requires k <= |plan|
  {
    forall i :: 0 <= i < k && plan[i].Roll? ==> Settled(plan[i].d, objects)
  }

  predicate WorkloadUpdate(e: Event) { e.Updated? && IsWorkload(e.id.kind) }

  /** The entry `e` of the log updated the workload of plan step `p`, after all earlier workloads
      had settled, and ended the pass. */
  ghost predicate LastAndGuarded(plan: seq<Step>, p: nat, e: nat, w: World, v: Verdict) {
    && e + 1 == |w.log| && v == Stop
    && p < |plan| && plan[p].Roll? && plan[p].d.body.id == w.log[e].id
    && SettledBefore(plan, p, w.objects)
  }

  ghost predicate UpdatesGuarded(plan: seq<Step>, from: nat, w: World, v: Verdict) {
    forall e :: from <= e < |w.log| && WorkloadUpdate(w.log[e]) ==> exists p :: LastAndGuarded(plan, p, e, w, v)
  }

  lemma SettledKept(plan: seq<Step>, k: nat, ans: nat -> Answers, w: World)
    requires k < |plan| && WellKinded(plan) && RollsDistinct(plan)
    requires SettledBefore(plan, k, w.objects)
    ensures SettledBefore(plan, k, DoStep(ROLLING, plan[k], ans, w).0.objects)
    ensures DoStep(ROLLING, plan[k], ans, w).1 == Continue ==>
            SettledBefore(plan, k + 1, DoStep(ROLLING, plan[k], ans, w).0.objects)
  {
    StepFrame(ROLLING, plan[k], ans, w);
    if plan[k].Roll? { RollOutcome(plan[k], ans, w); }
    hide DoStep, ReadinessOf;
    var w' := DoStep(ROLLING, plan[k], ans, w).0;
    forall i | 0 <= i < k && plan[i].Roll? ensures Settled(plan[i].d, w'.objects) {
      assert plan[i].d.body.id !in StepId(plan[k]);
    }
  }

  /** From step `k` on, with the workloads before it settled. */
  lemma {:induction false} UpdatesGuardedFrom(plan: seq<Step>, k: nat, ans: nat -> Answers, w: World)
    requires k <= |plan| && WellKinded(plan) && RollsDistinct(plan)
    requires SettledBefore(plan, k, w.objects)
    ensures var (w', v) := RunSteps(ROLLING, plan[k..], ans, w);
            w.log <= w'.log && UpdatesGuarded(plan, |w.log|, w', v)
    decreases |plan| - k
  {
    if k < |plan| {
      var s := plan[k];
      assert plan[k..][0] == s && plan[k..][1..] == plan[k + 1..];
      var (w1, v) := DoStep(ROLLING, s, ans, w);
      StepLog(ROLLING, s, ans, w);
      SettledKept(plan, k, ans, w);
      if s.Roll? { RollOutcome(s, ans, w); }
      hide DoStep;
      if |w1.log| > |w.log| && WorkloadUpdate(w1.log[|w.log|]) {
        assert w1.log[|w.log|..][0] == Updated(s.d.body.id);
        assert s.Roll? && v == Stop;
        assert LastAndGuarded(plan, k, |w.log|, w1, v);
      } else if v == Continue {
        UpdatesGuardedFrom(plan, k + 1, ans, w1);
      }
    }
  }

  /** The workload of every known node of a smaller rank is stored with the hash this plan gives it, and is
      fully deployed. */
  ghost predicate LowerRanksSettled(m: Druid, plan: seq<Step>, key: string, objects: Objects)
    requires key in m.nodes
  {
    forall k :: k in KnownKeys(m) && NodeRank(m, k) < NodeRank(m, key) ==>
      exists q :: 0 <= q < |plan| && IsWorkloadOf(m, plan[q], k) && Settled(plan[q].d, objects)
  }

  /** `id` is the workload of a known node, and all lower ranks are settled. */
  ghost predicate UpdateJustified(m: Druid, plan: seq<Step>, id: Id, objects: Objects) {
    exists key :: && key in KnownKeys(m) && key in m.nodes && WorkloadId(m, key, m.nodes[key]) == id
                  && LowerRanksSettled(m, plan, key, objects)
  }

  lemma SettledPrefixCoversLowerRanks(m: Druid, plan: seq<Step>, p: nat, key: string, objects: Objects)
    requires p < |plan| && RollsRanked(plan) && key in m.nodes && IsWorkloadOf(m, plan[p], key)
    requires HasWorkloads(m, plan)
    requires SettledBefore(plan, p, objects)
    ensures LowerRanksSettled(m, plan, key, objects)
  {
    hide Rank, Known, ReadinessOf, WorkloadId;
    KnownIsNode(m);
    forall k | k in KnownKeys(m) && NodeRank(m, k) < NodeRank(m, key)
      ensures exists q :: 0 <= q < |plan| && IsWorkloadOf(m, plan[q], k) && Settled(plan[q].d, objects)
    {
      var q :| 0 <= q < |plan| && IsWorkloadOf(m, plan[q], k);
      assert q < p;
    }
  }

  lemma GuardedMeansJustified(m: Druid, plan: seq<Step>, w: World, v: Verdict, e: nat)
    requires RollsRanked(plan)
    requires HasWorkloads(m, plan) && OnlyWorkloads(m, plan)
    requires UpdatesGuarded(plan, 0, w, v)
    requires e < |w.log| && WorkloadUpdate(w.log[e])
    ensures e + 1 == |w.log| && v == Stop && UpdateJustified(m, plan, w.log[e].id, w.objects)
  {
    hide Rank, Known, ReadinessOf, WorkloadId, LowerRanksSettled, HasWorkloads, RollsRanked, SettledBefore;
    KnownIsNode(m);
    var p: nat :| LastAndGuarded(plan, p, e, w, v);
    var key :| key in KnownKeys(m) && IsWorkloadOf(m, plan[p], key);
    SettledPrefixCoversLowerRanks(m, plan, p, key, w.objects);
  }

  lemma UpdatesJustified(m: Druid, plan: seq<Step>, ans: nat -> Answers, objects: Objects)
    requires WellKinded(plan) && RollsDistinct(plan) && RollsRanked(plan)
    requires HasWorkloads(m, plan) && OnlyWorkloads(m, plan)
    ensures var (w, v) := RunSteps(ROLLING, plan, ans, Start(objects));
            forall e :: 0 <= e < |w.log| && WorkloadUpdate(w.log[e]) ==>
              e + 1 == |w.log| && v == Stop && UpdateJustified(m, plan, w.log[e].id, w.objects)
  {
    hide UpdateJustified, Known, RunSteps, HasWorkloads, OnlyWorkloads, RollsRanked;
    assert plan[0..] == plan;
    UpdatesGuardedFrom(plan, 0, ans, Start(objects));
    var (w, v) := RunSteps(ROLLING, plan, ans, Start(objects));
    forall e | 0 <= e < |w.log| && WorkloadUpdate(w.log[e])
      ensures e + 1 == |w.log| && v == Stop && UpdateJustified(m, plan, w.log[e].id, w.objects)
    {
      GuardedMeansJustified(m, plan, w, v, e);
    }
  }

  /** A pass writes what its steps write, and waits where they stop. */
  lemma PassOfSteps(sha: Sha, input: PassInput, objects: Objects)
    requires forall k :: k in input.iter ==> k in input.resource.nodes
    ensures var (w, out) := Pass(sha, input, objects);
            var (w1, v) := PassSteps(sha, input, objects);
            w.log == [] || (w.log == w1.log && (v == Stop ==> w == w1 && out == Waiting))
  {
    hide PassSteps, ValidSpec, Doomed, ClusterLabels;
  }

  /** With a rolling deploy, a pass updates at most one workload, as its last write, and only after the
      workload of every node of a smaller rank was seen with the hash this pass gives it and fully
      deployed. This holds of every resource, whatever its nodes share, from any stored state, for any
      iteration order, any failures and any readings of the referenced configuration maps. */
  lemma UpdateWaitsForLowerRanks(sha: Sha, input: PassInput, objects: Objects)
    requires Enumerates(input.iter, input.resource.nodes.Keys) && GateOf(input.resource) == ROLLING
    ensures var m := AsRead(input);
            var (w, out) := Pass(sha, input, objects);
            forall e :: 0 <= e < |w.log| && WorkloadUpdate(w.log[e]) ==>
              && e + 1 == |w.log| && out == Waiting
              && UpdateJustified(m, PlanOf(m, sha, Applied(input), input.iter), w.log[e].id, w.objects)
  {
    var m := AsRead(input);
    var plan := PlanOf(m, sha, Applied(input), input.iter);
    assert GateOf(m) == ROLLING;
    assert PassSteps(sha, input, objects) == RunSteps(ROLLING, plan, input.ans, Start(objects));
    hide UpdateJustified, Pass, PassSteps, PlanOf, AsRead, Applied, WorkloadUpdate, Known, RunSteps, IsWorkloadOf;
    hide WellKinded, RollsDistinct, RollsRanked, HasWorkloads, OnlyWorkloads;
    PlanRolls(m, sha, Applied(input), input.iter);
    UpdatesJustified(m, plan, input.ans, objects);
    PassOfSteps(sha, input, objects);
  }

  // Safety over whole runs

  /** No workload is up to date while one of a smaller rank is not: the up-to-date workloads are all
      lower ranks and part of one rank. */
  ghost predicate Frontier(m: Druid, sha: Sha, objects: Objects) {
    forall a, b :: a in KnownKeys(m) && b in KnownKeys(m) && NodeRank(m, a) < NodeRank(m, b) ==>
      Current(WorkloadOf(m, sha, b), objects) ==> Current(WorkloadOf(m, sha, a), objects)
  }

  ghost predicate PlanFrontier(plan: seq<Step>, objects: Objects) {
    forall i, j | 0 <= i < |plan| && 0 <= j < |plan| && plan[i].Roll? && plan[j].Roll?
      :: plan[i].rank < plan[j].rank && Current(plan[j].d, objects) ==> Current(plan[i].d, objects)
  }

  ghost predicate CurrentBefore(plan: seq<Step>, k: nat, objects: Objects)
    requires k <= |plan|
  {
    forall i :: 0 <= i < k && plan[i].Roll? ==> Current(plan[i].d, objects)
  }

  lemma {:induction false} PlanFrontierKept(gate: Gate, plan: seq<Step>, k: nat, ans: nat -> Answers, w: World)
    requires k <= |plan| && WellKinded(plan) && RollsDistinct(plan) && RollsRanked(plan)
    requires CurrentBefore(plan, k, w.objects)
    requires PlanFrontier(plan, w.objects)
    ensures PlanFrontier(plan, RunSteps(gate, plan[k..], ans, w).0.objects)
    decreases |plan| - k
  {
    if k < |plan| {
      var s := plan[k];
      assert plan[k..][0] == s && plan[k..][1..] == plan[k + 1..];
      var (w1, v) := DoStep(gate, s, ans, w);
      StepFrame(gate, s, ans, w);
      hide DoStep;
      forall i | 0 <= i < |plan| && plan[i].Roll? && i != k
        ensures Current(plan[i].d, w1.objects) <==> Current(plan[i].d, w.objects)
      {
        assert plan[i].d.body.id !in StepId(s);
      }
      assert PlanFrontier(plan, w1.objects);
      if v == Continue {
        PlanFrontierKept(gate, plan, k + 1, ans, w1);
      }
    }
  }

  /** A completed run of the steps has registered every desired name. */
  lemma {:induction false} NamesRegistered(gate: Gate, steps: seq<Step>, ans: nat -> Answers, w: World)
    ensures var (w', v) := RunSteps(gate, steps, ans, w); v == Continue ==> w'.names == w.names + StepIds(steps)
  {
    if steps != [] {
      var (w1, v) := DoStep(gate, steps[0], ans, w);
      StepFrame(gate, steps[0], ans, w);
      assert steps == [steps[0]] + steps[1..];
      StepIdsConcat([steps[0]], steps[1..]);
      if v == Continue { NamesRegistered(gate, steps[1..], ans, w1); }
    }
  }

  // Passes that desire what `m` says

  /** The steps of a pass in which every node is built on its own. */
  function OwnSteps(m: Druid, sha: Sha, applied: Files, input: PassInput, objects: Objects): (World, Verdict)
    requires forall k :: k in input.iter ==> k in m.nodes
  {
    RunSteps(GateOf(m), OwnPlan(m, sha, applied, input.iter), input.ans, Start(objects))
  }

  function OwnPass(m: Druid, sha: Sha, applied: Files, input: PassInput, objects: Objects): (World, Outcome)
    requires forall k :: k in input.iter ==> k in m.nodes
  {
    if !ValidSpec(m) then (Start(objects), Invalid)
    else Finished(ClusterLabels(m), input.sa, OwnSteps(m, sha, applied, input, objects))
  }

  /** Every iteration over the resource, as this pass reads it, gives its nodes what `m` says. */
  ghost predicate ValidInput(m: Druid, sha: Sha, input: PassInput) {
    PlansAs(AsRead(input), m, sha) && Enumerates(input.iter, m.nodes.Keys)
  }

  lemma PassIsOwn(m: Druid, sha: Sha, input: PassInput, objects: Objects)
    requires ValidInput(m, sha, input)
    ensures Pass(sha, input, objects) == OwnPass(m, sha, Applied(input), input, objects)
  {
    ReadOutside(m, sha, input);
    hide PlansAs, ValidSpec, Finished, PassSteps, OwnSteps, Applied, AsRead, ClusterLabels;
    StepsAreOwn(m, sha, input, objects);
  }

  lemma ReadOutside(m: Druid, sha: Sha, input: PassInput)
    requires ValidInput(m, sha, input)
    ensures ValidSpec(input.resource) == ValidSpec(m) && ClusterLabels(input.resource) == ClusterLabels(m)
    ensures input.resource.nodes.Keys == m.nodes.Keys
  {
    hide StepsIn, NodeSteps, Ordered, Known, KeyAccepted, CommonFiles;
    SameImagesSameVerdict(AsRead(input), input.resource);
  }

  lemma StepsAreOwn(m: Druid, sha: Sha, input: PassInput, objects: Objects)
    requires ValidInput(m, sha, input)
    ensures PassSteps(sha, input, objects) == OwnSteps(m, sha, Applied(input), input, objects)
  {
    var r := AsRead(input);
    PlanOfPlansAs(r, m, sha, input.iter);
    assert Preamble(r, sha, Applied(input)) == Preamble(m, sha, Applied(input)) && GateOf(r) == GateOf(m);
    hide PlansAs, VisitsPlan, NodesPlan, Ordered, RunSteps, CommonFiles, Preamble, GateOf;
  }

  ghost function Reconciled(m: Druid, sha: Sha, input: PassInput, objects: Objects): (r: (World, Outcome))
    requires ValidInput(m, sha, input)
    ensures r == OwnPass(m, sha, Applied(input), input, objects)
  {
    PassIsOwn(m, sha, input, objects);
    Pass(sha, input, objects)
  }

  lemma NamesAreWanted(m: Druid, sha: Sha, applied: Files, input: PassInput, objects: Objects)
    requires Enumerates(input.iter, m.nodes.Keys)
    ensures var (w, v) := OwnSteps(m, sha, applied, input, objects); v == Continue ==> w.names == Wanted(m, sha)
  {
    hide RunSteps, OwnPlan, Wanted;
    OwnPlanIds(m, sha, applied, input.iter);
    NamesRegistered(GateOf(m), OwnPlan(m, sha, applied, input.iter), input.ans, Start(objects));
  }

  /** Garbage collection leaves every registered object as it is. */
  lemma SweepKeepsNames(kinds: seq<Kind>, selector: Labels, sa: SweepAnswers, w: World)
    ensures var w' := Sweep(kinds, selector, sa, w);
            forall id :: id in w.names ==>
              (id in w'.objects <==> id in w.objects) && (id in w.objects ==> w'.objects[id] == w.objects[id])
  {
  }

  /** A stored object that is the operator's: it has a desired name or carries the selector's labels. */
  predicate Owned(m: Druid, sha: Sha, id: Id, objects: Objects) {
    && id in objects
    && (id in Wanted(m, sha) || (id.kind in COLLECTED && id in Selected(id.kind, ClusterLabels(m), objects)))
  }

  predicate SameButStatus(a: Object, b: Object) {
    a.labels == b.labels && a.annotations == b.annotations && a.content == b.content && a.stamp == b.stamp
  }

  /** What others may do between two passes: anything to objects that are not the operator's, and any
      change of status to those that are. */
  ghost predicate Environment(m: Druid, sha: Sha, a: Objects, b: Objects) {
    forall id :: Owned(m, sha, id, a) || Owned(m, sha, id, b) ==> id in a && id in b && SameButStatus(a[id], b[id])
  }

  /** A pass that desires what `m` says, followed by an environment step. */
  ghost predicate LeadsOn(m: Druid, sha: Sha, a: Objects, input: PassInput, b: Objects) {
    ValidInput(m, sha, input) && Environment(m, sha, Reconciled(m, sha, input, a).0.objects, b)
  }

  /** A run: any number of such passes, each from where the one before it led. */
  ghost predicate IsRun(m: Druid, sha: Sha, states: seq<Objects>, inputs: seq<PassInput>)
    ensures IsRun(m, sha, states, inputs) ==> |states| == |inputs| + 1
    decreases |inputs|
  {
    var n := |inputs|;
    && |states| == n + 1
    && (n > 0 ==>
          IsRun(m, sha, states[..n], inputs[..n - 1]) && LeadsOn(m, sha, states[n - 1], inputs[n - 1], states[n]))
  }

  lemma {:induction false} RunLeadsOn(m: Druid, sha: Sha, states: seq<Objects>, inputs: seq<PassInput>, i: nat)
    requires IsRun(m, sha, states, inputs) && i < |inputs|
    ensures LeadsOn(m, sha, states[i], inputs[i], states[i + 1])
    decreases |inputs|
  {
    hide LeadsOn;
    var n := |inputs|;
    if i < n - 1 { RunLeadsOn(m, sha, states[..n], inputs[..n - 1], i); }
  }

  lemma EnvironmentKeepsCurrent(m: Druid, sha: Sha, key: string, a: Objects, b: Objects)
    requires key in KnownKeys(m) && Environment(m, sha, a, b)
    ensures Current(WorkloadOf(m, sha, key), a) <==> Current(WorkloadOf(m, sha, key), b)
  {
    WorkloadsWanted(m, sha, key);
    hide Wanted, Workload, Known;
    var id := WorkloadOf(m, sha, key).body.id;
    assert id in a ==> Owned(m, sha, id, a);
    assert id in b ==> Owned(m, sha, id, b);
  }

  lemma StepsKeepFrontier(m: Druid, sha: Sha, input: PassInput, objects: Objects)
    requires ValidInput(m, sha, input) && Frontier(m, sha, objects)
    ensures Frontier(m, sha, OwnSteps(m, sha, Applied(input), input, objects).0.objects)
  {
    OwnPlanRolls(m, sha, Applied(input), input.iter);
    var plan := OwnPlan(m, sha, Applied(input), input.iter);
    hide Rank, Workload, OwnPlan, Known, RunSteps, Frontier, PlanFrontier, WellKinded, RollsDistinct, RollsRanked;
    hide Applied;
    assert plan[0..] == plan;
    FrontierOfPlan(m, sha, plan, objects);
    PlanFrontierKept(GateOf(m), plan, 0, input.ans, Start(objects));
    FrontierOfPlan(m, sha, plan, RunSteps(GateOf(m), plan, input.ans, Start(objects)).0.objects);
  }

  lemma SweepKeepsFrontier(m: Druid, sha: Sha, sa: SweepAnswers, w: World)
    requires w.names == Wanted(m, sha) && Frontier(m, sha, w.objects)
    ensures Frontier(m, sha, Sweep(COLLECTED, ClusterLabels(m), sa, w).objects)
  {
    SweepKeepsNames(COLLECTED, ClusterLabels(m), sa, w);
    hide Rank, Workload, Known, Wanted, Sweep;
    forall k | k in KnownKeys(m)
      ensures Current(WorkloadOf(m, sha, k), Sweep(COLLECTED, ClusterLabels(m), sa, w).objects) <==>
              Current(WorkloadOf(m, sha, k), w.objects)
    {
      WorkloadsWanted(m, sha, k);
    }
  }

  lemma PassKeepsFrontier(m: Druid, sha: Sha, input: PassInput, objects: Objects)
    requires ValidInput(m, sha, input)
    requires Frontier(m, sha, objects)
    ensures Frontier(m, sha, Reconciled(m, sha, input, objects).0.objects)
  {
    hide OwnSteps, Wanted, ValidSpec, Frontier, Sweep, ClusterLabels, Applied, PlansAs, Pass;
    NamesAreWanted(m, sha, Applied(input), input, objects);
    StepsKeepFrontier(m, sha, input, objects);
    var (w, v) := OwnSteps(m, sha, Applied(input), input, objects);
    if v == Continue { SweepKeepsFrontier(m, sha, input.sa, w); }
  }

  lemma FrontierOfPlan(m: Druid, sha: Sha, plan: seq<Step>, objects: Objects)
    requires RollsFrom(m, sha, plan, KnownKeys(m))
    requires forall k :: k in KnownKeys(m) ==> RollOf(m, sha, k) in plan
    ensures PlanFrontier(plan, objects) <==> Frontier(m, sha, objects)
  {
    hide Rank, Workload, Known, Current;
    if Frontier(m, sha, objects) {
      forall i, j | 0 <= i < |plan| && 0 <= j < |plan| && plan[i].Roll? && plan[j].Roll?
        ensures plan[i].rank < plan[j].rank && Current(plan[j].d, objects) ==> Current(plan[i].d, objects)
      {
        assert plan[i] in plan && plan[j] in plan;
        var a :| a in KnownKeys(m) && plan[i] == RollOf(m, sha, a);
        var b :| b in KnownKeys(m) && plan[j] == RollOf(m, sha, b);
      }
    }
    if PlanFrontier(plan, objects) {
      forall a, b | a in KnownKeys(m) && b in KnownKeys(m) && NodeRank(m, a) < NodeRank(m, b)
        ensures Current(WorkloadOf(m, sha, b), objects) ==> Current(WorkloadOf(m, sha, a), objects)
      {
        var i :| 0 <= i < |plan| && plan[i] == RollOf(m, sha, a);
        var j :| 0 <= j < |plan| && plan[j] == RollOf(m, sha, b);
      }
    }
  }

  /** Along any run of passes that desire the same, whatever the iteration orders, failures and status
      changes, the rollout proceeds rank by rank. An all-stale start satisfies the requirement. */
  lemma {:induction false} RolloutByRank(m: Druid, sha: Sha, states: seq<Objects>, inputs: seq<PassInput>, i: nat)
    requires IsRun(m, sha, states, inputs) && i < |states|
    requires Frontier(m, sha, states[0])
    ensures Frontier(m, sha, states[i])
  {
    hide *;
    if i > 0 {
      RunLeadsOn(m, sha, states, inputs, i - 1);
      RolloutByRank(m, sha, states, inputs, i - 1);
      FrontierLeadsOn(m, sha, states[i - 1], inputs[i - 1], states[i]);
    }
  }

  lemma FrontierLeadsOn(m: Druid, sha: Sha, a: Objects, input: PassInput, b: Objects)
    requires LeadsOn(m, sha, a, input, b) && Frontier(m, sha, a)
    ensures Frontier(m, sha, b)
  {
    PassKeepsFrontier(m, sha, input, a);
    hide Reconciled, Workload, Rank, Known, Environment, ValidInput;
    var after := Reconciled(m, sha, input, a).0.objects;
    forall k | k in KnownKeys(m) ensures Current(WorkloadOf(m, sha, k), after) <==> Current(WorkloadOf(m, sha, k), b) {
      EnvironmentKeepsCurrent(m, sha, k, after, b);
    }
  }
}
