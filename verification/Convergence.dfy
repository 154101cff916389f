/** A rolling update finishes: every calm pass moves one workload on or completes, and the pass after
    a completed one changes nothing. */
module Convergence {
  import opened Cluster
  import opened Deploy
  import opened Exactness
  import opened ExtraConfig
  import opened Ordering
  import opened Plans
  import opened Rollout
  import opened Sharing

  ghost predicate Calm(ans: nat -> Answers) { forall n: nat :: ans(n) == Answers(false, false, false) }

  const CALM_SWEEP := SweepAnswers({}, {})

  ghost predicate CalmInput(m: Druid, sha: Sha, input: PassInput) {
    SteadyInput(m, sha, input) && Calm(input.ans) && input.sa == CALM_SWEEP
  }

  /** The health check of every stored workload answers that it is fully deployed. */
  predicate Healthy(m: Druid, sha: Sha, objects: Objects) {
    forall k :: k in KnownKeys(m) && WorkloadOf(m, sha, k).body.id in objects ==>
      ReadinessOf(objects[WorkloadOf(m, sha, k).body.id].status) == Ready
  }

  predicate AllPresent(m: Druid, sha: Sha, objects: Objects) {
    forall k :: k in KnownKeys(m) ==> WorkloadOf(m, sha, k).body.id in objects
  }

  /** The nodes whose workload is missing or carries another hash: the measure of the rollout. */
  function Behind(m: Druid, sha: Sha, objects: Objects): set<string> {
    set k | k in KnownKeys(m) && !Current(WorkloadOf(m, sha, k), objects)
  }

  // Steps of a plan

  predicate ReadyFrom(plan: seq<Step>, k: nat, objects: Objects) {
    forall i :: k <= i < |plan| && plan[i].Roll? && plan[i].d.body.id in objects ==>
      ReadinessOf(objects[plan[i].d.body.id].status) == Ready
  }

  /** What a calm step does, by the state of its object. */
  lemma CalmStep(s: Step, ans: nat -> Answers, w: World)
    requires Calm(ans)
    requires s.Roll? && s.d.body.id in w.objects ==> ReadinessOf(w.objects[s.d.body.id].status) == Ready
    ensures var (w', v) := DoStep(ROLLING, s, ans, w);
            && v != Fail
            && (!s.Roll? ==> v == Continue)
            && (!s.Finalizers? ==> Current(s.d, w'.objects))
            && (s.Roll? && Current(s.d, w.objects) ==> v == Continue)
            && (s.Roll? && s.d.body.id in w.objects && !Current(s.d, w.objects) ==> v == Stop)
  {
  }

  /** Step `p` brought its workload up to date, and no workload fell behind. */
  ghost predicate Advanced(plan: seq<Step>, p: nat, before: Objects, after: Objects) {
    && p < |plan| && plan[p].Roll? && !Current(plan[p].d, before) && Current(plan[p].d, after)
    && (forall i :: 0 <= i < |plan| && plan[i].Roll? && Current(plan[i].d, before) ==> Current(plan[i].d, after))
  }

  /** No workload other than that of step `p` moved. */
  ghost predicate OnlyThat(plan: seq<Step>, p: nat, before: Objects, after: Objects) {
    forall i :: 0 <= i < |plan| && plan[i].Roll? && i != p ==>
      (Current(plan[i].d, before) <==> Current(plan[i].d, after))
  }

  ghost predicate PresentFrom(plan: seq<Step>, k: nat, objects: Objects) {
    forall i :: k <= i < |plan| && plan[i].Roll? ==> plan[i].d.body.id in objects
  }

  lemma StepKeepsOthers(plan: seq<Step>, k: nat, ans: nat -> Answers, w: World)
    requires k < |plan| && WellKinded(plan) && RollsDistinct(plan)
    ensures var w' := DoStep(ROLLING, plan[k], ans, w).0;
            && (forall i :: 0 <= i < |plan| && plan[i].Roll? && i != k ==>
                  (Current(plan[i].d, w'.objects) <==> Current(plan[i].d, w.objects)))
            && (plan[k].Roll? && Current(plan[k].d, w.objects) ==> Current(plan[k].d, w'.objects))
            && (ReadyFrom(plan, k + 1, w.objects) ==> ReadyFrom(plan, k + 1, w'.objects))
            && (PresentFrom(plan, k + 1, w.objects) ==> PresentFrom(plan, k + 1, w'.objects))
  {
    StepFrame(ROLLING, plan[k], ans, w);
    hide DoStep, ReadinessOf;
    forall i | 0 <= i < |plan| && plan[i].Roll? && i != k ensures plan[i].d.body.id !in StepId(plan[k]) {}
  }

  lemma {:induction false} CalmRun(plan: seq<Step>, k: nat, ans: nat -> Answers, w: World)
    requires k <= |plan| && WellKinded(plan) && RollsDistinct(plan)
    requires Calm(ans) && ReadyFrom(plan, k, w.objects) && CurrentBefore(plan, k, w.objects)
    ensures var (w', v) := RunSteps(ROLLING, plan[k..], ans, w);
            && v != Fail
            && (v == Continue ==> CurrentBefore(plan, |plan|, w'.objects))
            && (v == Stop ==> exists p :: Advanced(plan, p, w.objects, w'.objects))
            && (PresentFrom(plan, k, w.objects) && v == Continue ==> CurrentBefore(plan, |plan|, w.objects))
            && (PresentFrom(plan, k, w.objects) && v == Stop ==>
                  exists p :: Advanced(plan, p, w.objects, w'.objects) && OnlyThat(plan, p, w.objects, w'.objects))
    decreases |plan| - k
  {
    if k < |plan| {
      var s := plan[k];
      assert plan[k..][0] == s && plan[k..][1..] == plan[k + 1..];
      var (w1, v) := DoStep(ROLLING, s, ans, w);
      CalmStep(s, ans, w);
      StepKeepsOthers(plan, k, ans, w);
      hide DoStep, ReadinessOf;
      if v == Stop {
        assert Advanced(plan, k, w.objects, w1.objects) && OnlyThat(plan, k, w.objects, w1.objects);
      } else {
        CalmRun(plan, k + 1, ans, w1);
        CalmRunStep(plan, k, ans, w, w1);
      }
    }
  }

  /** Carries a stopped run's gain back over one step that went on. */
  lemma CalmRunStep(plan: seq<Step>, k: nat, ans: nat -> Answers, w: World, w1: World)
    requires k < |plan|
    requires forall i :: 0 <= i < |plan| && plan[i].Roll? && i != k ==>
             (Current(plan[i].d, w1.objects) <==> Current(plan[i].d, w.objects))
    requires plan[k].Roll? ==> Current(plan[k].d, w1.objects)
    ensures var w' := RunSteps(ROLLING, plan[k + 1..], ans, w1).0;
            && (forall p :: Advanced(plan, p, w1.objects, w'.objects) ==> Advanced(plan, p, w.objects, w'.objects))
            && ((plan[k].Roll? ==> Current(plan[k].d, w.objects)) ==>
                  forall p :: OnlyThat(plan, p, w1.objects, w'.objects) ==> OnlyThat(plan, p, w.objects, w'.objects))
  {
    hide RunSteps;
  }

  // One calm pass

  lemma PlanReady(m: Druid, sha: Sha, plan: seq<Step>, objects: Objects)
    requires RollsFrom(m, sha, plan, KnownKeys(m))
    requires Healthy(m, sha, objects)
    ensures ReadyFrom(plan, 0, objects)
    ensures AllPresent(m, sha, objects) ==> PresentFrom(plan, 0, objects)
  {
    hide Rank, Workload, Known, ReadinessOf;
    forall i | 0 <= i < |plan| && plan[i].Roll?
      ensures plan[i].d.body.id in objects ==> ReadinessOf(objects[plan[i].d.body.id].status) == Ready
      ensures AllPresent(m, sha, objects) ==> plan[i].d.body.id in objects
    {
      assert plan[i] in plan;
      var k :| k in KnownKeys(m) && plan[i] == RollOf(m, sha, k);
    }
  }

  lemma AdvanceShrinksBehind(m: Druid, sha: Sha, plan: seq<Step>, p: nat, before: Objects, after: Objects)
    requires RollsFrom(m, sha, plan, KnownKeys(m)) && forall k :: k in KnownKeys(m) ==> RollOf(m, sha, k) in plan
    requires Advanced(plan, p, before, after)
    ensures Behind(m, sha, after) < Behind(m, sha, before)
    ensures OnlyThat(plan, p, before, after) ==>
            exists k :: k in Behind(m, sha, before) && Behind(m, sha, after) == Behind(m, sha, before) - {k}
  {
    hide Rank, Workload, Known;
    assert plan[p] in plan;
    var key :| key in KnownKeys(m) && plan[p] == RollOf(m, sha, key);
    forall k | k in KnownKeys(m)
      ensures Current(WorkloadOf(m, sha, k), before) ==> Current(WorkloadOf(m, sha, k), after)
      ensures OnlyThat(plan, p, before, after) && k != key ==>
              (Current(WorkloadOf(m, sha, k), before) <==> Current(WorkloadOf(m, sha, k), after))
    {
      var i :| 0 <= i < |plan| && plan[i] == RollOf(m, sha, k);
      if k != key { RollsOfTwoNodes(m, sha, k, key); }
    }
    assert key in Behind(m, sha, before) && key !in Behind(m, sha, after);
    if OnlyThat(plan, p, before, after) {
      assert Behind(m, sha, after) == Behind(m, sha, before) - {key};
    }
  }

  lemma NoneBehind(m: Druid, sha: Sha, plan: seq<Step>, objects: Objects)
    requires forall k :: k in KnownKeys(m) ==> RollOf(m, sha, k) in plan
    requires CurrentBefore(plan, |plan|, objects)
    ensures Behind(m, sha, objects) == {}
  {
    hide Rank, Workload, Known;
    forall k | k in KnownKeys(m) ensures Current(WorkloadOf(m, sha, k), objects) {
      var i :| 0 <= i < |plan| && plan[i] == RollOf(m, sha, k);
    }
  }

  /** The steps of a calm pass over healthy workloads either finish with none behind, or stop having
      moved at least one; with all workloads present, exactly one, and only if some was behind. */
  lemma CalmSteps(m: Druid, sha: Sha, input: PassInput, objects: Objects)
    requires GateOf(m) == ROLLING && CalmInput(m, sha, input) && Healthy(m, sha, objects)
    ensures var (w, v) := StepsOf(m, sha, input, objects);
            var before, after := Behind(m, sha, objects), Behind(m, sha, w.objects);
            && v != Fail
            && (v == Continue ==> after == {})
            && (v == Stop ==> after < before)
            && (AllPresent(m, sha, objects) && v == Continue ==> before == {})
            && (AllPresent(m, sha, objects) && v == Stop ==> exists k :: k in before && after == before - {k})
  {
    hide OwnPlan, Rank, Workload, Known, ReadinessOf, Applied, RunSteps;
    OwnPlanRolls(m, sha, m.commonConfig, input.iter);
    var plan := OwnPlan(m, sha, m.commonConfig, input.iter);
    PlanReady(m, sha, plan, objects);
    assert plan[0..] == plan;
    CalmRun(plan, 0, input.ans, Start(objects));
    var (w, v) := RunSteps(ROLLING, plan, input.ans, Start(objects));
    if v == Continue {
      NoneBehind(m, sha, plan, w.objects);
      if AllPresent(m, sha, objects) { NoneBehind(m, sha, plan, objects); }
    } else if AllPresent(m, sha, objects) {
      var p: nat :| Advanced(plan, p, objects, w.objects) && OnlyThat(plan, p, objects, w.objects);
      AdvanceShrinksBehind(m, sha, plan, p, objects, w.objects);
    } else {
      var p: nat :| Advanced(plan, p, objects, w.objects);
      AdvanceShrinksBehind(m, sha, plan, p, objects, w.objects);
    }
  }

  lemma CompletedSweepKeepsBehind(m: Druid, sha: Sha, sa: SweepAnswers, w: World)
    requires w.names == Wanted(m, sha)
    ensures Behind(m, sha, Sweep(COLLECTED, ClusterLabels(m), sa, w).objects) == Behind(m, sha, w.objects)
  {
    SweepKeepsNames(COLLECTED, ClusterLabels(m), sa, w);
    hide Sweep, Wanted, Workload, Known, ClusterLabels;
    forall k | k in KnownKeys(m)
      ensures Current(WorkloadOf(m, sha, k), Sweep(COLLECTED, ClusterLabels(m), sa, w).objects) <==>
              Current(WorkloadOf(m, sha, k), w.objects)
    {
      WorkloadsWanted(m, sha, k);
    }
  }

  /** The same, with the sweep of a pass that completes. */
  lemma ClosedSteps(m: Druid, sha: Sha, input: PassInput, objects: Objects)
    requires GateOf(m) == ROLLING && CalmInput(m, sha, input) && Healthy(m, sha, objects)
    ensures SteadyInput(m, sha, input) && ValidInput(m, sha, input) && forall k :: k in input.iter ==> k in m.nodes
    ensures var (w, v) := StepsOf(m, sha, input, objects);
            var before, after := Behind(m, sha, objects), Behind(m, sha, w.objects);
            && v != Fail && (v == Stop ==> after < before)
            && (v == Continue ==> Behind(m, sha, Sweep(COLLECTED, ClusterLabels(m), input.sa, w).objects) == {})
            && (AllPresent(m, sha, objects) && v == Continue ==> before == {})
            && (AllPresent(m, sha, objects) && v == Stop ==> before != {} && |after| == |before| - 1)
  {
    hide OwnSteps, Sweep, Behind, Healthy, AllPresent, Wanted, Calm, ClusterLabels, Applied, PlansAs;
    CalmSteps(m, sha, input, objects);
    NamesAreWanted(m, sha, m.commonConfig, input, objects);
    var (w, v) := StepsOf(m, sha, input, objects);
    if v == Continue { CompletedSweepKeepsBehind(m, sha, input.sa, w); }
  }

  lemma PassOfOwnSteps(m: Druid, sha: Sha, input: PassInput, objects: Objects)
    requires SteadyInput(m, sha, input) && ValidSpec(m)
    ensures var (w, v) := StepsOf(m, sha, input, objects);
            var r := Reconciled(m, sha, input, objects);
            && (v == Stop ==> r == (w, Waiting))
            && (v == Continue ==> r == (Sweep(COLLECTED, ClusterLabels(m), input.sa, w), Completed))
  {
    hide OwnSteps, Sweep, ValidSpec, ClusterLabels, Applied, PlansAs, Pass;
  }

  /** Each calm pass either completes with no workload behind, or waits having lowered the number of
      workloads behind, by exactly one when none was missing. */
  lemma CalmPass(m: Druid, sha: Sha, input: PassInput, objects: Objects)
    requires GateOf(m) == ROLLING && ValidSpec(m) && CalmInput(m, sha, input) && Healthy(m, sha, objects)
    ensures var (w, out) := Reconciled(m, sha, input, objects);
            var before, after := Behind(m, sha, objects), Behind(m, sha, w.objects);
            && (out == Completed || out == Waiting)
            && (out == Completed ==> after == {})
            && (out == Waiting ==> |after| < |before|)
            && (AllPresent(m, sha, objects) ==> (out == Completed <==> before == {}))
            && (AllPresent(m, sha, objects) && out == Waiting ==> |after| == |before| - 1)
  {
    hide *;
    ClosedSteps(m, sha, input, objects);
    PassOfOwnSteps(m, sha, input, objects);
    var (w, v) := StepsOf(m, sha, input, objects);
    if v == Stop { ProperSubsetSmaller(Behind(m, sha, w.objects), Behind(m, sha, objects)); }
  }

  lemma ProperSubsetSmaller(a: set<string>, b: set<string>)
    requires a < b
    ensures |a| < |b|
  {
    assert b == a + (b - a);
    var x :| x in b - a;
    assert |b| == |a| + |b - a|;
  }

  // Runs

  /** Everything desired is stored with its desired hash, and nothing else carries the cluster's
      labels. */
  ghost predicate Tidy(m: Druid, sha: Sha, objects: Objects) {
    AllCurrent(m, sha, objects) && forall id :: Owned(m, sha, id, objects) ==> id in Wanted(m, sha)
  }

  /** Steps over up-to-date objects change nothing, whatever fails. */
  lemma {:induction false} CurrentStepsSilent(gate: Gate, plan: seq<Step>, ans: nat -> Answers, w: World)
    requires PlanCurrent(plan, |plan|, w.objects)
    ensures var w' := RunSteps(gate, plan, ans, w).0;
            w'.objects == w.objects && w'.log == w.log && w'.deleted == w.deleted
  {
    if plan != [] {
      StepFrame(gate, plan[0], ans, w);
      CurrentStepSilent(gate, plan[0], ans, w);
      var (w1, v) := DoStep(gate, plan[0], ans, w);
      hide DoStep;
      assert forall i :: 0 <= i < |plan[1..]| ==> plan[1..][i] == plan[i + 1];
      if v == Continue { CurrentStepsSilent(gate, plan[1..], ans, w1); }
    }
  }

  /** Calm steps over ready workloads that are up to date all go on. */
  lemma {:induction false} CurrentStepsGoOn(plan: seq<Step>, ans: nat -> Answers, w: World)
    requires Calm(ans) && ReadyFrom(plan, 0, w.objects) && PlanCurrent(plan, |plan|, w.objects)
    ensures RunSteps(ROLLING, plan, ans, w).1 == Continue
  {
    if plan != [] {
      CalmStep(plan[0], ans, w);
      CurrentStepSilent(ROLLING, plan[0], ans, w);
      hide DoStep, ReadinessOf;
      assert forall i :: 0 <= i < |plan[1..]| ==> plan[1..][i] == plan[i + 1];
      CurrentStepsGoOn(plan[1..], ans, DoStep(ROLLING, plan[0], ans, w).0);
    }
  }

  lemma CurrentStepSilent(gate: Gate, s: Step, ans: nat -> Answers, w: World)
    requires s.Finalizers? || Current(s.d, w.objects)
    ensures var w' := DoStep(gate, s, ans, w).0; w'.objects == w.objects && w'.log == w.log
  {
  }

  /** A pass that creates, updates and deletes nothing. */
  ghost predicate Silent(m: Druid, sha: Sha, input: PassInput, objects: Objects)
    requires ValidInput(m, sha, input)
  {
    var w := Reconciled(m, sha, input, objects).0;
    w.objects == objects && w.log == [] && w.deleted == {}
  }

  /** A pass that completes and changes nothing. */
  ghost predicate Quiet(m: Druid, sha: Sha, input: PassInput, objects: Objects)
    requires ValidInput(m, sha, input)
  {
    Reconciled(m, sha, input, objects).1 == Completed && Silent(m, sha, input, objects)
  }

  lemma TidySteps(m: Druid, sha: Sha, input: PassInput, objects: Objects)
    requires SteadyInput(m, sha, input) && AllCurrent(m, sha, objects)
    ensures var (w, v) := StepsOf(m, sha, input, objects);
            && w.objects == objects && w.log == [] && w.deleted == {}
            && (v == Continue ==> w.names == Wanted(m, sha))
  {
    hide OwnPlan, AllCurrent, Wanted, RunSteps, PlanCurrent, Applied, PlansAs;
    NamesAreWanted(m, sha, m.commonConfig, input, objects);
    CurrentPlan(m, sha, input.iter, objects);
    CurrentStepsSilent(GateOf(m), OwnPlan(m, sha, m.commonConfig, input.iter), input.ans, Start(objects));
  }

  lemma TidyStepsGoOn(m: Druid, sha: Sha, input: PassInput, objects: Objects)
    requires GateOf(m) == ROLLING && CalmInput(m, sha, input) && Healthy(m, sha, objects) && AllCurrent(m, sha, objects)
    ensures StepsOf(m, sha, input, objects).1 == Continue
  {
    hide OwnPlan, Known, RollOf, AllCurrent, RunSteps, WellKinded, ReadyFrom, PlanCurrent, PresentFrom, PlansAs;
    hide RollsRanked, RollsDistinct, RollsFrom, Healthy, Applied, Calm;
    var plan := OwnPlan(m, sha, m.commonConfig, input.iter);
    OwnPlanRolls(m, sha, m.commonConfig, input.iter);
    PlanReady(m, sha, plan, objects);
    CurrentPlan(m, sha, input.iter, objects);
    CurrentStepsGoOn(plan, input.ans, Start(objects));
  }

  lemma NothingDoomed(m: Druid, sha: Sha, sa: SweepAnswers, w: World)
    requires w.names == Wanted(m, sha) && forall id :: Owned(m, sha, id, w.objects) ==> id in Wanted(m, sha)
    ensures Doomed(COLLECTED, ClusterLabels(m), sa, w) == {}
  {
    hide Wanted, Selected, ClusterLabels;
    forall id | id in w.objects && id.kind in COLLECTED && id in Selected(id.kind, ClusterLabels(m), w.objects)
      ensures id in w.names
    {
      assert Owned(m, sha, id, w.objects);
    }
  }

  /** A store that holds exactly what is desired is left alone by every pass, whatever fails. */
  lemma TidyIsSilent(m: Druid, sha: Sha, input: PassInput, objects: Objects)
    requires SteadyInput(m, sha, input) && Tidy(m, sha, objects)
    ensures Silent(m, sha, input, objects)
  {
    hide OwnSteps, ValidSpec, Doomed, Wanted, Applied, ClusterLabels, AllCurrent, Pass, PlansAs;
    TidySteps(m, sha, input, objects);
    var (w, v) := StepsOf(m, sha, input, objects);
    if v == Continue { NothingDoomed(m, sha, input.sa, w); }
  }

  /** And a calm pass over ready workloads completes on it. */
  lemma TidyIsQuiet(m: Druid, sha: Sha, input: PassInput, objects: Objects)
    requires GateOf(m) == ROLLING && ValidSpec(m) && CalmInput(m, sha, input)
    requires Healthy(m, sha, objects) && Tidy(m, sha, objects)
    ensures Quiet(m, sha, input, objects)
  {
    hide StepsOf, Healthy, ValidSpec, Applied, Calm, Pass, Silent, PlansAs, Sweep, ClusterLabels;
    TidyIsSilent(m, sha, input, objects);
    TidyStepsGoOn(m, sha, input, objects);
    ContinueMeansCompleted(m, sha, input, objects);
  }

  lemma CompletedIsTidy(m: Druid, sha: Sha, input: PassInput, objects: Objects)
    requires SteadyInput(m, sha, input) && input.sa == CALM_SWEEP
    requires NoConflict(m, sha) && Injective(sha) && Honest(sha, Wanted(m, sha), objects)
    requires Reconciled(m, sha, input, objects).1 == Completed
    ensures Tidy(m, sha, Reconciled(m, sha, input, objects).0.objects)
    ensures Honest(sha, Wanted(m, sha), Reconciled(m, sha, input, objects).0.objects)
  {
    CompletedPassIsExact(m, sha, input, objects);
    var w := Reconciled(m, sha, input, objects).0;
    hide Reconciled, Wanted, Selected, NoConflict, Honest, AllCurrent, OnlyGarbageGone;
    forall id | Owned(m, sha, id, w.objects) ensures id in Wanted(m, sha) {
      assert Stuck(m, sha, id.kind, CALM_SWEEP, objects) == {};
    }
  }

  lemma EnvironmentKeepsTidy(m: Druid, sha: Sha, a: Objects, b: Objects)
    requires Tidy(m, sha, a) && Environment(m, sha, a, b)
    ensures Tidy(m, sha, b)
  {
    hide Wanted, Selected, DesiredStep;
    forall s | DesiredStep(m, sha, s) && !s.Finalizers? ensures Current(s.d, b) {
      DesiredWellStamped(m, sha, s);
      assert Owned(m, sha, s.d.body.id, a);
    }
    forall id | Owned(m, sha, id, b) ensures id in Wanted(m, sha) {
      OwnedEitherSide(m, sha, id, a, b);
    }
  }

  lemma OwnedEitherSide(m: Druid, sha: Sha, id: Id, a: Objects, b: Objects)
    requires Environment(m, sha, a, b) && Owned(m, sha, id, b)
    ensures Owned(m, sha, id, a)
  {
    hide Wanted, Matches;
  }

  lemma EnvironmentKeepsBehind(m: Druid, sha: Sha, a: Objects, b: Objects)
    requires Environment(m, sha, a, b)
    ensures Behind(m, sha, a) == Behind(m, sha, b)
  {
    hide Workload, Known, Environment;
    forall k | k in KnownKeys(m) ensures Current(WorkloadOf(m, sha, k), a) <==> Current(WorkloadOf(m, sha, k), b) {
      EnvironmentKeepsCurrent(m, sha, k, a, b);
    }
  }

  // No pass loses ground

  lemma {:induction false} RollStaysCurrent(gate: Gate, plan: seq<Step>, k: nat, ans: nat -> Answers, w: World, i: nat)
    requires k <= |plan| && WellKinded(plan) && RollsDistinct(plan)
    requires i < |plan| && plan[i].Roll? && Current(plan[i].d, w.objects)
    ensures Current(plan[i].d, RunSteps(gate, plan[k..], ans, w).0.objects)
    decreases |plan| - k
  {
    if k < |plan| {
      assert plan[k..][0] == plan[k] && plan[k..][1..] == plan[k + 1..];
      StepFrame(gate, plan[k], ans, w);
      hide DoStep;
      var (w1, v) := DoStep(gate, plan[k], ans, w);
      assert i != k ==> plan[i].d.body.id !in StepId(plan[k]);
      if v == Continue { RollStaysCurrent(gate, plan, k + 1, ans, w1, i); }
    }
  }

  lemma StepsLoseNothing(m: Druid, sha: Sha, applied: Files, input: PassInput, objects: Objects)
    requires Enumerates(input.iter, m.nodes.Keys)
    ensures Behind(m, sha, OwnSteps(m, sha, applied, input, objects).0.objects) <= Behind(m, sha, objects)
  {
    OwnPlanRolls(m, sha, applied, input.iter);
    var plan := OwnPlan(m, sha, applied, input.iter);
    hide OwnPlan, Rank, Workload, Known, RunSteps, Current, WellKinded, RollsDistinct;
    assert plan[0..] == plan;
    forall k | k in KnownKeys(m) && Current(WorkloadOf(m, sha, k), objects)
      ensures Current(WorkloadOf(m, sha, k), RunSteps(GateOf(m), plan, input.ans, Start(objects)).0.objects)
    {
      var i: nat :| i < |plan| && plan[i] == RollOf(m, sha, k);
      RollStaysCurrent(GateOf(m), plan, 0, input.ans, Start(objects), i);
    }
  }

  /** Whatever fails and wherever it stops, no pass makes an up-to-date workload stale. */
  lemma BehindNeverGrows(m: Druid, sha: Sha, input: PassInput, objects: Objects)
    requires ValidInput(m, sha, input)
    ensures Behind(m, sha, Reconciled(m, sha, input, objects).0.objects) <= Behind(m, sha, objects)
  {
    hide OwnSteps, Sweep, Behind, ValidSpec, Wanted, ClusterLabels, Applied, PlansAs, Pass;
    StepsLoseNothing(m, sha, Applied(input), input, objects);
    NamesAreWanted(m, sha, Applied(input), input, objects);
    var (w, v) := OwnSteps(m, sha, Applied(input), input, objects);
    if v == Continue { CompletedSweepKeepsBehind(m, sha, input.sa, w); }
  }

  // Convergence

  /** Rolling passes that all desire what `m` says and apply it, with any failures, unready workloads and
      early exits. */
  ghost predicate SteadyRun(m: Druid, sha: Sha, states: seq<Objects>, inputs: seq<PassInput>) {
    GateOf(m) == ROLLING && ValidSpec(m) && IsRun(m, sha, states, inputs) && AllSteady(m, sha, inputs)
  }

  ghost predicate AllSteady(m: Druid, sha: Sha, inputs: seq<PassInput>) {
    inputs != [] ==> SteadyInput(m, sha, inputs[|inputs| - 1]) && AllSteady(m, sha, inputs[..|inputs| - 1])
  }

  lemma {:induction false} SteadyAt(m: Druid, sha: Sha, inputs: seq<PassInput>, i: nat)
    requires AllSteady(m, sha, inputs) && i < |inputs|
    ensures SteadyInput(m, sha, inputs[i])
  {
    hide SteadyInput;
    if i < |inputs| - 1 { SteadyAt(m, sha, inputs[..|inputs| - 1], i); }
  }

  /** A pass that meets no API failure and finds every stored workload fully deployed. */
  ghost predicate Good(m: Druid, sha: Sha, states: seq<Objects>, inputs: seq<PassInput>, i: nat)
    requires |states| == |inputs| + 1 && i < |inputs|
  {
    CalmInput(m, sha, inputs[i]) && Healthy(m, sha, states[i])
  }

  /** The number of good passes from `i` up to `j`. */
  ghost function GoodPasses(m: Druid, sha: Sha, states: seq<Objects>, inputs: seq<PassInput>, i: nat, j: nat): nat
    requires |states| == |inputs| + 1 && i <= j <= |inputs|
    decreases j - i
  {
    if i == j then 0
    else (if Good(m, sha, states, inputs, i) then 1 else 0) + GoodPasses(m, sha, states, inputs, i + 1, j)
  }

  ghost predicate CompletesAt(m: Druid, sha: Sha, states: seq<Objects>, inputs: seq<PassInput>, c: nat)
    requires IsRun(m, sha, states, inputs)
  {
    c < |inputs| && ValidInput(m, sha, inputs[c]) && Reconciled(m, sha, inputs[c], states[c]).1 == Completed
  }

  /** What a run says of its pass `i`. */
  lemma RunFacts(m: Druid, sha: Sha, states: seq<Objects>, inputs: seq<PassInput>, i: nat)
    requires SteadyRun(m, sha, states, inputs) && i < |inputs|
    ensures IsRun(m, sha, states, inputs) && |states| == |inputs| + 1 && GateOf(m) == ROLLING && ValidSpec(m)
    ensures SteadyInput(m, sha, inputs[i]) && ValidInput(m, sha, inputs[i])
    ensures Environment(m, sha, Reconciled(m, sha, inputs[i], states[i]).0.objects, states[i + 1])
  {
    hide PlansAs, ValidSpec, Environment, Reconciled, Applied, Enumerates;
    SteadyAt(m, sha, inputs, i);
    RunLeadsOn(m, sha, states, inputs, i);
  }

  lemma RunLength(m: Druid, sha: Sha, states: seq<Objects>, inputs: seq<PassInput>)
    requires SteadyRun(m, sha, states, inputs)
    ensures IsRun(m, sha, states, inputs) && |states| == |inputs| + 1
  {
    hide PlansAs, ValidSpec, LeadsOn, AllSteady;
  }

  /** A good pass completes or lowers the number of workloads behind. */
  lemma GoodOutcome(m: Druid, sha: Sha, states: seq<Objects>, inputs: seq<PassInput>, i: nat)
    requires IsRun(m, sha, states, inputs) && i < |inputs| && GateOf(m) == ROLLING && ValidSpec(m)
    requires Good(m, sha, states, inputs, i)
    ensures ValidInput(m, sha, inputs[i])
    ensures var (w, out) := Reconciled(m, sha, inputs[i], states[i]);
            var before, after := Behind(m, sha, states[i]), Behind(m, sha, w.objects);
            && (CompletesAt(m, sha, states, inputs, i) <==> out == Completed)
            && (out == Completed ==> after == {}) && (out != Completed ==> out == Waiting && |after| < |before|)
            && (AllPresent(m, sha, states[i]) ==> (out == Completed <==> before == {}))
            && (AllPresent(m, sha, states[i]) && out == Waiting ==> |after| == |before| - 1)
  {
    hide Reconciled, Behind, AllPresent, Healthy, Calm, PlansAs, ValidSpec, LeadsOn, Applied;
    CalmPass(m, sha, inputs[i], states[i]);
  }

  /** The numbers of workloads behind before and after one pass of a run. */
  lemma RunStep(m: Druid, sha: Sha, states: seq<Objects>, inputs: seq<PassInput>, i: nat)
    requires SteadyRun(m, sha, states, inputs) && i < |inputs|
    ensures |Behind(m, sha, states[i + 1])| <= |Behind(m, sha, states[i])|
    ensures Good(m, sha, states, inputs, i) && !CompletesAt(m, sha, states, inputs, i) ==>
              |Behind(m, sha, states[i + 1])| < |Behind(m, sha, states[i])|
  {
    hide *;
    RunFacts(m, sha, states, inputs, i);
    var w := Reconciled(m, sha, inputs[i], states[i]).0;
    EnvironmentKeepsBehind(m, sha, w.objects, states[i + 1]);
    BehindNeverGrows(m, sha, inputs[i], states[i]);
    SubsetSmaller(Behind(m, sha, w.objects), Behind(m, sha, states[i]));
    if Good(m, sha, states, inputs, i) { GoodOutcome(m, sha, states, inputs, i); }
  }

  lemma SubsetSmaller(a: set<string>, b: set<string>)
    requires a <= b
    ensures |a| <= |b|
  {
    if a != b { ProperSubsetSmaller(a, b); }
  }

  /** The good pass `c` completes, after at most `k` good passes from `i` on. */
  ghost predicate EndsAt(m: Druid, sha: Sha, states: seq<Objects>, inputs: seq<PassInput>, i: nat, k: nat, c: nat)
    requires IsRun(m, sha, states, inputs)
  {
    && i <= c < |inputs| && Good(m, sha, states, inputs, c) && CompletesAt(m, sha, states, inputs, c)
    && GoodPasses(m, sha, states, inputs, i, c) <= k
  }

  lemma EndsNow(m: Druid, sha: Sha, states: seq<Objects>, inputs: seq<PassInput>, i: nat, k: nat)
    requires IsRun(m, sha, states, inputs) && |states| == |inputs| + 1 && i < |inputs|
    requires Good(m, sha, states, inputs, i) && CompletesAt(m, sha, states, inputs, i)
    ensures EndsAt(m, sha, states, inputs, i, k, i)
  {
    hide Good, CompletesAt, IsRun;
  }

  lemma EndsLater(m: Druid, sha: Sha, states: seq<Objects>, inputs: seq<PassInput>, i: nat, k: nat, k1: nat, c: nat)
    requires IsRun(m, sha, states, inputs) && |states| == |inputs| + 1 && i < |inputs|
    requires EndsAt(m, sha, states, inputs, i + 1, k1, c) && k1 <= k && (Good(m, sha, states, inputs, i) ==> k1 < k)
    ensures EndsAt(m, sha, states, inputs, i, k, c)
  {
    hide Good, CompletesAt, IsRun;
  }

  lemma FewerGoodPasses(m: Druid, sha: Sha, states: seq<Objects>, inputs: seq<PassInput>, i: nat)
    requires |states| == |inputs| + 1 && i <= |inputs| && 0 < GoodPasses(m, sha, states, inputs, i, |inputs|)
    ensures i < |inputs|
    ensures GoodPasses(m, sha, states, inputs, i, |inputs|) ==
            (if Good(m, sha, states, inputs, i) then 1 else 0) + GoodPasses(m, sha, states, inputs, i + 1, |inputs|)
  {
    hide Good;
  }

  /** From `i` on, some good pass completes before more good passes were made than workloads were behind. */
  lemma {:induction false} CompletesWithin(m: Druid, sha: Sha, states: seq<Objects>, inputs: seq<PassInput>, i: nat)
    requires SteadyRun(m, sha, states, inputs) && i <= |inputs|
    requires |Behind(m, sha, states[i])| < GoodPasses(m, sha, states, inputs, i, |inputs|)
    ensures exists c :: EndsAt(m, sha, states, inputs, i, |Behind(m, sha, states[i])|, c)
    decreases |inputs| - i
  {
    hide *;
    RunLength(m, sha, states, inputs);
    FewerGoodPasses(m, sha, states, inputs, i);
    var k := |Behind(m, sha, states[i])|;
    if Good(m, sha, states, inputs, i) && CompletesAt(m, sha, states, inputs, i) {
      EndsNow(m, sha, states, inputs, i, k);
    } else {
      RunStep(m, sha, states, inputs, i);
      CompletesWithin(m, sha, states, inputs, i + 1);
      var k1 := |Behind(m, sha, states[i + 1])|;
      var c: nat :| EndsAt(m, sha, states, inputs, i + 1, k1, c);
      EndsLater(m, sha, states, inputs, i, k, k1, c);
    }
  }

  lemma EnvironmentKeepsHonest(m: Druid, sha: Sha, a: Objects, b: Objects)
    requires Environment(m, sha, a, b) && Honest(sha, Wanted(m, sha), a)
    ensures Honest(sha, Wanted(m, sha), b)
  {
    hide Wanted, Selected;
    forall id | id in Wanted(m, sha) && id in b && b[id].stamp.Some? ensures OwnStamp(sha, id, b[id]) {
      assert Owned(m, sha, id, b);
      assert id in a && SameButStatus(a[id], b[id]) && OwnStamp(sha, id, a[id]);
      var body :| StoredAs(body, id, a[id]) && a[id].stamp.value == sha(body);
      assert StoredAs(body, id, b[id]);
    }
  }

  /** Desired names keep honest annotations along a run. */
  lemma {:induction false} RunHonest(m: Druid, sha: Sha, states: seq<Objects>, inputs: seq<PassInput>, i: nat)
    requires SteadyRun(m, sha, states, inputs) && i < |states| && Honest(sha, Wanted(m, sha), states[0])
    ensures Honest(sha, Wanted(m, sha), states[i])
  {
    hide *;
    RunLength(m, sha, states, inputs);
    if i > 0 {
      RunFacts(m, sha, states, inputs, i - 1);
      RunHonest(m, sha, states, inputs, i - 1);
      PassHonest(m, sha, inputs[i - 1], states[i - 1]);
      EnvironmentKeepsHonest(m, sha, Reconciled(m, sha, inputs[i - 1], states[i - 1]).0.objects, states[i]);
    }
  }

  lemma PassHonest(m: Druid, sha: Sha, input: PassInput, objects: Objects)
    requires SteadyInput(m, sha, input) && Honest(sha, Wanted(m, sha), objects)
    ensures Honest(sha, Wanted(m, sha), Reconciled(m, sha, input, objects).0.objects)
  {
    hide StepsOf, Reconciled, Wanted, Applied;
    StepsHonest(m, sha, input, objects);
    PassLeavesLess(m, sha, input, objects);
  }

  lemma GoodCompletion(m: Druid, sha: Sha, states: seq<Objects>, inputs: seq<PassInput>, c: nat)
    requires IsRun(m, sha, states, inputs) && c < |inputs|
    requires Good(m, sha, states, inputs, c) && CompletesAt(m, sha, states, inputs, c)
    ensures inputs[c].sa == CALM_SWEEP && ValidInput(m, sha, inputs[c])
    ensures Reconciled(m, sha, inputs[c], states[c]).1 == Completed
  {
    hide Reconciled, Healthy, Calm, PlansAs, LeadsOn, Applied;
  }

  /** A good pass that completes leaves a tidy store behind it. */
  lemma TidyAfter(m: Druid, sha: Sha, states: seq<Objects>, inputs: seq<PassInput>, c: nat)
    requires SteadyRun(m, sha, states, inputs) && NoConflict(m, sha) && Injective(sha)
    requires c < |inputs| && Good(m, sha, states, inputs, c) && CompletesAt(m, sha, states, inputs, c)
    requires Honest(sha, Wanted(m, sha), states[c])
    ensures Tidy(m, sha, states[c + 1])
  {
    hide *;
    RunFacts(m, sha, states, inputs, c);
    GoodCompletion(m, sha, states, inputs, c);
    CompletedIsTidy(m, sha, inputs[c], states[c]);
    EnvironmentKeepsTidy(m, sha, Reconciled(m, sha, inputs[c], states[c]).0.objects, states[c + 1]);
  }

  lemma SilentKeepsStore(m: Druid, sha: Sha, input: PassInput, objects: Objects)
    requires ValidInput(m, sha, input) && Silent(m, sha, input, objects)
    ensures Reconciled(m, sha, input, objects).0.objects == objects
  {
    hide Reconciled, ValidInput;
  }

  lemma GoodMeans(m: Druid, sha: Sha, states: seq<Objects>, inputs: seq<PassInput>, i: nat)
    requires |states| == |inputs| + 1 && i < |inputs| && Good(m, sha, states, inputs, i)
    ensures CalmInput(m, sha, inputs[i]) && Healthy(m, sha, states[i])
  {
    hide CalmInput, Healthy;
  }

  /** A tidy store stays tidy; every pass over it is silent, and every good one quiet. */
  lemma TidyStep(m: Druid, sha: Sha, states: seq<Objects>, inputs: seq<PassInput>, j: nat)
    requires SteadyRun(m, sha, states, inputs) && j < |inputs| && Tidy(m, sha, states[j])
    ensures ValidInput(m, sha, inputs[j]) && Silent(m, sha, inputs[j], states[j]) && Tidy(m, sha, states[j + 1])
    ensures Good(m, sha, states, inputs, j) ==> Quiet(m, sha, inputs[j], states[j])
  {
    hide *;
    RunFacts(m, sha, states, inputs, j);
    TidyIsSilent(m, sha, inputs[j], states[j]);
    SilentKeepsStore(m, sha, inputs[j], states[j]);
    if Good(m, sha, states, inputs, j) {
      GoodMeans(m, sha, states, inputs, j);
      TidyIsQuiet(m, sha, inputs[j], states[j]);
    }
    EnvironmentKeepsTidy(m, sha, states[j], states[j + 1]);
  }

  /** A tidy store stays tidy along the rest of the run. */
  lemma {:induction false} TidyFrom(m: Druid, sha: Sha, states: seq<Objects>, inputs: seq<PassInput>, i: nat, j: nat)
    requires SteadyRun(m, sha, states, inputs) && i <= j < |states| && Tidy(m, sha, states[i])
    ensures Tidy(m, sha, states[j])
  {
    hide *;
    RunLength(m, sha, states, inputs);
    if i < j {
      TidyFrom(m, sha, states, inputs, i, j - 1);
      TidyStep(m, sha, states, inputs, j - 1);
    }
  }

  /** The pass `c` ends the rollout: it completes after at most `k` good passes, every later pass creates,
      updates and deletes nothing whatever fails, and every later good pass completes. */
  ghost predicate Settles(m: Druid, sha: Sha, states: seq<Objects>, inputs: seq<PassInput>, k: nat, c: nat)
    requires IsRun(m, sha, states, inputs)
  {
    && c < |inputs| && CompletesAt(m, sha, states, inputs, c) && GoodPasses(m, sha, states, inputs, 0, c) <= k
    && forall j :: c < j < |inputs| ==>
         && ValidInput(m, sha, inputs[j]) && Silent(m, sha, inputs[j], states[j])
         && (Good(m, sha, states, inputs, j) ==> Quiet(m, sha, inputs[j], states[j]))
  }

  lemma EndsWell(m: Druid, sha: Sha, states: seq<Objects>, inputs: seq<PassInput>, k: nat, c: nat)
    requires IsRun(m, sha, states, inputs) && EndsAt(m, sha, states, inputs, 0, k, c)
    ensures c < |inputs| && Good(m, sha, states, inputs, c) && CompletesAt(m, sha, states, inputs, c)
    ensures GoodPasses(m, sha, states, inputs, 0, c) <= k
  {
    hide Good, CompletesAt, LeadsOn, GoodPasses;
  }

  lemma TidyEnd(m: Druid, sha: Sha, states: seq<Objects>, inputs: seq<PassInput>, k: nat, c: nat)
    requires SteadyRun(m, sha, states, inputs) && NoConflict(m, sha) && Injective(sha)
    requires Honest(sha, Wanted(m, sha), states[0]) && EndsAt(m, sha, states, inputs, 0, k, c)
    ensures c < |inputs| && Tidy(m, sha, states[c + 1])
  {
    hide *;
    RunLength(m, sha, states, inputs);
    EndsWell(m, sha, states, inputs, k, c);
    RunHonest(m, sha, states, inputs, c);
    TidyAfter(m, sha, states, inputs, c);
  }

  lemma TidySettles(m: Druid, sha: Sha, states: seq<Objects>, inputs: seq<PassInput>, k: nat, c: nat)
    requires SteadyRun(m, sha, states, inputs) && EndsAt(m, sha, states, inputs, 0, k, c)
    requires c < |inputs| && Tidy(m, sha, states[c + 1])
    ensures Settles(m, sha, states, inputs, k, c)
  {
    hide SteadyRun, IsRun, Tidy, Good, CompletesAt, GoodPasses, Silent, Quiet, ValidInput, EndsAt;
    RunLength(m, sha, states, inputs);
    EndsWell(m, sha, states, inputs, k, c);
    forall j | c < j < |inputs|
      ensures ValidInput(m, sha, inputs[j]) && Silent(m, sha, inputs[j], states[j])
      ensures Good(m, sha, states, inputs, j) ==> Quiet(m, sha, inputs[j], states[j])
    {
      TidyFrom(m, sha, states, inputs, c + 1, j);
      TidyStep(m, sha, states, inputs, j);
    }
  }

  /** The rollout converges: from k workloads behind, with any failed and waiting passes in between, of
      k+1 good passes one completes, and that settles it. */
  lemma RolloutConverges(m: Druid, sha: Sha, states: seq<Objects>, inputs: seq<PassInput>)
    requires SteadyRun(m, sha, states, inputs) && NoConflict(m, sha) && Injective(sha)
    requires Honest(sha, Wanted(m, sha), states[0])
    requires |Behind(m, sha, states[0])| < GoodPasses(m, sha, states, inputs, 0, |inputs|)
    ensures exists c :: Settles(m, sha, states, inputs, |Behind(m, sha, states[0])|, c)
  {
    hide *;
    RunLength(m, sha, states, inputs);
    CompletesWithin(m, sha, states, inputs, 0);
    var k := |Behind(m, sha, states[0])|;
    var c: nat :| EndsAt(m, sha, states, inputs, 0, k, c);
    TidyEnd(m, sha, states, inputs, k, c);
    TidySettles(m, sha, states, inputs, k, c);
  }

  lemma {:induction false} SilentMeansCurrent(gate: Gate, plan: seq<Step>, ans: nat -> Answers, w: World)
    requires RunSteps(gate, plan, ans, w).1 == Continue && RunSteps(gate, plan, ans, w).0.log == w.log
    ensures PlanCurrent(plan, |plan|, w.objects)
  {
    if plan != [] {
      var s := plan[0];
      var (w1, v) := DoStep(gate, s, ans, w);
      StepFrame(gate, s, ans, w);
      StepLog(gate, s, ans, w);
      LogGrows(gate, plan[1..], ans, w1);
      hide DoStep;
      SilentMeansCurrent(gate, plan[1..], ans, w1);
      assert forall i :: 1 <= i < |plan| ==> plan[i] == plan[1..][i - 1];
    }
  }

  lemma {:induction false} LogGrows(gate: Gate, plan: seq<Step>, ans: nat -> Answers, w: World)
    ensures w.log <= RunSteps(gate, plan, ans, w).0.log
  {
    if plan != [] {
      StepLog(gate, plan[0], ans, w);
      hide DoStep;
      var (w1, v) := DoStep(gate, plan[0], ans, w);
      if v == Continue { LogGrows(gate, plan[1..], ans, w1); }
    }
  }

  /** And only then: a resource whose desired objects conflict has no quiet pass, whatever is stored. */
  lemma QuietMeansNoConflict(m: Druid, sha: Sha, input: PassInput, objects: Objects)
    requires SteadyInput(m, sha, input) && Quiet(m, sha, input, objects)
    ensures AllCurrent(m, sha, objects) && NoConflict(m, sha)
  {
    hide OwnPlan, RunSteps, Applied, NoConflict, ValidSpec, Doomed, AllCurrent, PlanCurrent;
    CompletedMeansContinue(m, sha, input, objects);
    SilentMeansCurrent(GateOf(m), OwnPlan(m, sha, m.commonConfig, input.iter), input.ans, Start(objects));
    CurrentPlan(m, sha, input.iter, objects);
    CurrentMeansNoConflict(m, sha, objects);
  }

  /** Workloads that are stored stay stored along any run. */
  lemma {:induction false} PresentAlongRun(m: Druid, sha: Sha, states: seq<Objects>, inputs: seq<PassInput>, i: nat)
    requires SteadyRun(m, sha, states, inputs) && i < |states| && AllPresent(m, sha, states[0])
    ensures AllPresent(m, sha, states[i])
  {
    hide *;
    RunLength(m, sha, states, inputs);
    if i > 0 {
      RunFacts(m, sha, states, inputs, i - 1);
      PresentAlongRun(m, sha, states, inputs, i - 1);
      PresenceKept(m, sha, inputs[i - 1], states[i - 1]);
      EnvironmentKeepsPresence(m, sha, Reconciled(m, sha, inputs[i - 1], states[i - 1]).0.objects, states[i]);
    }
  }

  /** With no workload missing at the start, every good pass of a run moves exactly one workload and waits,
      or completes if none is behind. */
  lemma GoodPassMovesOne(m: Druid, sha: Sha, states: seq<Objects>, inputs: seq<PassInput>, i: nat)
    requires SteadyRun(m, sha, states, inputs) && AllPresent(m, sha, states[0])
    requires i < |inputs| && Good(m, sha, states, inputs, i)
    ensures ValidInput(m, sha, inputs[i])
    ensures var before, after := |Behind(m, sha, states[i])|, |Behind(m, sha, states[i + 1])|;
            var out := Reconciled(m, sha, inputs[i], states[i]).1;
            if before == 0 then out == Completed && after == 0 else out == Waiting && after == before - 1
  {
    hide *;
    RunFacts(m, sha, states, inputs, i);
    PresentAlongRun(m, sha, states, inputs, i);
    GoodOutcome(m, sha, states, inputs, i);
    EnvironmentKeepsBehind(m, sha, Reconciled(m, sha, inputs[i], states[i]).0.objects, states[i + 1]);
  }

  ghost predicate AllGood(m: Druid, sha: Sha, states: seq<Objects>, inputs: seq<PassInput>) {
    |states| == |inputs| + 1 && forall j :: 0 <= j < |inputs| ==> Good(m, sha, states, inputs, j)
  }

  lemma AllGoodAt(m: Druid, sha: Sha, states: seq<Objects>, inputs: seq<PassInput>, i: nat)
    requires AllGood(m, sha, states, inputs) && i < |inputs|
    ensures |states| == |inputs| + 1 && Good(m, sha, states, inputs, i)
  {
    hide Good;
  }

  lemma {:induction false} BehindCounts(m: Druid, sha: Sha, states: seq<Objects>, inputs: seq<PassInput>, i: nat)
    requires SteadyRun(m, sha, states, inputs) && AllPresent(m, sha, states[0])
    requires AllGood(m, sha, states, inputs)
    requires i <= |Behind(m, sha, states[0])| && i <= |inputs|
    ensures |Behind(m, sha, states[i])| == |Behind(m, sha, states[0])| - i
  {
    hide *;
    if i > 0 {
      AllGoodAt(m, sha, states, inputs, i - 1);
      BehindCounts(m, sha, states, inputs, i - 1);
      GoodPassMovesOne(m, sha, states, inputs, i - 1);
    }
  }

  /** So with good passes only, the first k move one workload each and wait, and pass k+1 completes. */
  lemma OneWorkloadPerPass(m: Druid, sha: Sha, states: seq<Objects>, inputs: seq<PassInput>, i: nat)
    requires SteadyRun(m, sha, states, inputs) && AllPresent(m, sha, states[0])
    requires AllGood(m, sha, states, inputs)
    requires i <= |Behind(m, sha, states[0])| && i < |inputs|
    ensures |Behind(m, sha, states[i])| == |Behind(m, sha, states[0])| - i
    ensures ValidInput(m, sha, inputs[i])
    ensures Reconciled(m, sha, inputs[i], states[i]).1 == if i < |Behind(m, sha, states[0])| then Waiting else Completed
  {
    hide *;
    AllGoodAt(m, sha, states, inputs, i);
    RunFacts(m, sha, states, inputs, i);
    BehindCounts(m, sha, states, inputs, i);
    GoodPassMovesOne(m, sha, states, inputs, i);
  }

  lemma EnvironmentKeepsPresence(m: Druid, sha: Sha, a: Objects, b: Objects)
    requires Environment(m, sha, a, b) && AllPresent(m, sha, a)
    ensures AllPresent(m, sha, b)
  {
    hide Workload, Known, Wanted;
    forall k | k in KnownKeys(m) ensures WorkloadOf(m, sha, k).body.id in b {
      WorkloadsWanted(m, sha, k);
      assert Owned(m, sha, WorkloadOf(m, sha, k).body.id, a);
    }
  }

  lemma {:induction false} StepsKeepPresence(gate: Gate, steps: seq<Step>, ans: nat -> Answers, w: World, id: Id)
    requires id in w.objects
    ensures id in RunSteps(gate, steps, ans, w).0.objects
  {
    if steps != [] {
      StepFrame(gate, steps[0], ans, w);
      var (w1, v) := DoStep(gate, steps[0], ans, w);
      if v == Continue { StepsKeepPresence(gate, steps[1..], ans, w1, id); }
    }
  }

  lemma StepsKeepAllPresent(m: Druid, sha: Sha, input: PassInput, objects: Objects)
    requires ValidInput(m, sha, input) && AllPresent(m, sha, objects)
    ensures AllPresent(m, sha, OwnSteps(m, sha, Applied(input), input, objects).0.objects)
  {
    hide OwnPlan, Workload, Known, RunSteps, Applied;
    var plan := OwnPlan(m, sha, Applied(input), input.iter);
    forall k | k in KnownKeys(m)
      ensures WorkloadOf(m, sha, k).body.id in RunSteps(GateOf(m), plan, input.ans, Start(objects)).0.objects
    {
      StepsKeepPresence(GateOf(m), plan, input.ans, Start(objects), WorkloadOf(m, sha, k).body.id);
    }
  }

  lemma SweepKeepsPresence(m: Druid, sha: Sha, sa: SweepAnswers, w: World)
    requires w.names == Wanted(m, sha) && AllPresent(m, sha, w.objects)
    ensures AllPresent(m, sha, Sweep(COLLECTED, ClusterLabels(m), sa, w).objects)
  {
    SweepKeepsNames(COLLECTED, ClusterLabels(m), sa, w);
    hide Workload, Known, Wanted, Sweep;
    forall k | k in KnownKeys(m) ensures WorkloadOf(m, sha, k).body.id in Wanted(m, sha) {
      WorkloadsWanted(m, sha, k);
    }
  }

  lemma PresenceKept(m: Druid, sha: Sha, input: PassInput, objects: Objects)
    requires ValidInput(m, sha, input) && AllPresent(m, sha, objects)
    ensures AllPresent(m, sha, Reconciled(m, sha, input, objects).0.objects)
  {
    hide OwnSteps, Wanted, ValidSpec, AllPresent, Sweep, ClusterLabels, Applied;
    NamesAreWanted(m, sha, Applied(input), input, objects);
    StepsKeepAllPresent(m, sha, input, objects);
    var (w, v) := OwnSteps(m, sha, Applied(input), input, objects);
    if v == Continue { SweepKeepsPresence(m, sha, input.sa, w); }
  }
}
