/** What a completed pass leaves behind, for every pattern of failed lists and deletes. */
module Exactness {
  import opened Basics
  import opened Cluster
  import opened Deploy
  import opened Ordering
  import opened Plans
  import opened Rollout
  import opened SortStrings

  /** `b` is stored as `o`; the hash annotation is replaced. */
  predicate StoredAs(b: Body, id: Id, o: Object) {
    b.id == id && b.labels == o.labels && b.annotations - {HASH} == o.annotations && b.content == o.content
  }

  /** Under the names `ids`, every hash annotation is the hash of the object that carries it, as it was
      when it was hashed. */
  ghost predicate Honest(sha: Sha, ids: set<Id>, objects: Objects) {
    forall id :: id in ids && id in objects && objects[id].stamp.Some? ==> OwnStamp(sha, id, objects[id])
  }

  ghost predicate OwnStamp(sha: Sha, id: Id, o: Object)
    requires o.stamp.Some?
  {
    exists b :: StoredAs(b, id, o) && o.stamp.value == sha(b)
  }

  ghost predicate Injective(sha: Sha) { forall a, b :: sha(a) == sha(b) ==> a == b }

  /** All desired objects are stored with their desired hash. */
  ghost predicate AllCurrent(m: Druid, sha: Sha, objects: Objects) {
    forall s :: DesiredStep(m, sha, s) && !s.Finalizers? ==> Current(s.d, objects)
  }

  /** Desired objects under one name carry one hash. */
  ghost predicate NoConflict(m: Druid, sha: Sha) {
    forall s, t :: DesiredStep(m, sha, s) && DesiredStep(m, sha, t) && !s.Finalizers? && !t.Finalizers? ==>
      s.d.body.id == t.d.body.id ==> s.d.stamp == t.d.stamp
  }

  ghost predicate Agrees(plan: seq<Step>) {
    forall i, j :: 0 <= i < |plan| && 0 <= j < |plan| && !plan[i].Finalizers? && !plan[j].Finalizers? ==>
      plan[i].d.body.id == plan[j].d.body.id ==> plan[i].d.stamp == plan[j].d.stamp
  }

  lemma PlanAgrees(m: Druid, sha: Sha, iter: seq<string>)
    requires Enumerates(iter, m.nodes.Keys)
    ensures NoConflict(m, sha) ==> Agrees(OwnPlan(m, sha, m.commonConfig, iter))
  {
    OwnPlanSteps(m, sha, iter);
    var plan := OwnPlan(m, sha, m.commonConfig, iter);
    hide OwnPlan, DesiredStep;
    if NoConflict(m, sha) {
      forall i, j | 0 <= i < |plan| && 0 <= j < |plan| && !plan[i].Finalizers? && !plan[j].Finalizers? &&
                    plan[i].d.body.id == plan[j].d.body.id
        ensures plan[i].d.stamp == plan[j].d.stamp
      {
        assert plan[i] in plan && plan[j] in plan;
      }
    }
  }

  /** A store can hold everything desired only if nothing conflicts. */
  lemma CurrentMeansNoConflict(m: Druid, sha: Sha, objects: Objects)
    requires AllCurrent(m, sha, objects)
    ensures NoConflict(m, sha)
  {
    hide DesiredStep;
  }

  ghost predicate PlanCurrent(plan: seq<Step>, k: nat, objects: Objects)
    requires k <= |plan|
  {
    forall i :: 0 <= i < k && !plan[i].Finalizers? ==> Current(plan[i].d, objects)
  }

  lemma CurrentPlan(m: Druid, sha: Sha, iter: seq<string>, objects: Objects)
    requires Enumerates(iter, m.nodes.Keys)
    ensures var plan := OwnPlan(m, sha, m.commonConfig, iter);
            AllCurrent(m, sha, objects) <==> PlanCurrent(plan, |plan|, objects)
  {
    hide OwnPlan, DesiredStep, Current;
    OwnPlanSteps(m, sha, iter);
    var plan := OwnPlan(m, sha, m.commonConfig, iter);
    if AllCurrent(m, sha, objects) {
      forall i | 0 <= i < |plan| && !plan[i].Finalizers? ensures Current(plan[i].d, objects) {
        assert plan[i] in plan;
      }
    }
    if PlanCurrent(plan, |plan|, objects) {
      forall s | DesiredStep(m, sha, s) && !s.Finalizers? ensures Current(s.d, objects) {
        var i :| 0 <= i < |plan| && plan[i] == s;
      }
    }
  }

  /** Steps that do not conflict and all go on leave every object current. */
  lemma {:induction false} CompletedCurrent(gate: Gate, plan: seq<Step>, k: nat, ans: nat -> Answers, w: World)
    requires k <= |plan| && Agrees(plan) && PlanCurrent(plan, k, w.objects)
    ensures var (w', v) := RunSteps(gate, plan[k..], ans, w); v == Continue ==> PlanCurrent(plan, |plan|, w'.objects)
    decreases |plan| - k
  {
    if k < |plan| {
      var s := plan[k];
      assert plan[k..][0] == s && plan[k..][1..] == plan[k + 1..];
      var (w1, v) := DoStep(gate, s, ans, w);
      StepFrame(gate, s, ans, w);
      hide DoStep;
      if v == Continue {
        forall i | 0 <= i < k && !plan[i].Finalizers? ensures Current(plan[i].d, w1.objects) {
          assert !s.Finalizers? && plan[i].d.body.id == s.d.body.id ==> plan[i].d.stamp == s.d.stamp;
        }
        CompletedCurrent(gate, plan, k + 1, ans, w1);
      }
    }
  }

  /** Stamped with the hash of what will be stored. */
  predicate OwnHash(sha: Sha, d: Desired) { d.stamp == sha(d.body) }

  lemma StoredStamp(sha: Sha, d: Desired, status: Status)
    requires OwnHash(sha, d)
    ensures OwnStamp(sha, d.body.id, Stored(d, status))
  {
    assert StoredAs(d.body, d.body.id, Stored(d, status));
  }

  lemma HonestStep(sha: Sha, ids: set<Id>, gate: Gate, s: Step, ans: nat -> Answers, w: World)
    requires Honest(sha, ids, w.objects) && (s.Finalizers? || OwnHash(sha, s.d))
    ensures Honest(sha, ids, DoStep(gate, s, ans, w).0.objects)
  {
    if !s.Finalizers? {
      forall status { StoredStamp(sha, s.d, status); }
    }
    hide ReadinessOf, OwnStamp;
  }

  /** No pass ever stores an object under a hash that is not its own. */
  lemma {:induction false} HonestKept(sha: Sha, ids: set<Id>, gate: Gate, steps: seq<Step>, ans: nat -> Answers,
        w: World)
    requires Honest(sha, ids, w.objects) && forall s :: s in steps ==> s.Finalizers? || OwnHash(sha, s.d)
    ensures Honest(sha, ids, RunSteps(gate, steps, ans, w).0.objects)
  {
    if steps != [] {
      HonestStep(sha, ids, gate, steps[0], ans, w);
      var (w1, v) := DoStep(gate, steps[0], ans, w);
      if v == Continue { HonestKept(sha, ids, gate, steps[1..], ans, w1); }
    }
  }

  /** Steps never touch an object that is not one of theirs, and never delete. */
  lemma {:induction false} StepsFrame(gate: Gate, steps: seq<Step>, ans: nat -> Answers, w: World)
    ensures var w' := RunSteps(gate, steps, ans, w).0;
            && (forall id :: id !in StepIds(steps) ==> (id in w'.objects <==> id in w.objects))
            && (forall id :: id !in StepIds(steps) && id in w.objects ==> w'.objects[id] == w.objects[id])
            && w'.deleted == w.deleted
  {
    if steps != [] {
      StepFrame(gate, steps[0], ans, w);
      var (w1, v) := DoStep(gate, steps[0], ans, w);
      assert steps == [steps[0]] + steps[1..];
      StepIdsConcat([steps[0]], steps[1..]);
      assert StepIds([steps[0]]) == StepId(steps[0]) by { OneStepIds(steps[0]); }
      hide DoStep;
      if v == Continue { StepsFrame(gate, steps[1..], ans, w1); }
    }
  }

  lemma OneStepIds(s: Step)
    ensures StepIds([s]) == StepId(s)
  {
    assert [s][0] == s;
  }

  /** With honest annotations and an injective hash, a current object has its desired labels. */
  lemma CurrentHasLabels(m: Druid, sha: Sha, s: Step, objects: Objects)
    requires Honest(sha, Wanted(m, sha), objects) && Injective(sha)
    requires DesiredStep(m, sha, s) && !s.Finalizers? && Current(s.d, objects)
    ensures SameButStatus(objects[s.d.body.id], Stored(s.d, objects[s.d.body.id].status))
    ensures s.d.body.id in Selected(s.d.body.id.kind, ClusterLabels(m), objects)
  {
    hide DesiredStep, Matches, Wanted, ClusterLabels;
    DesiredWellStamped(m, sha, s);
    var id := s.d.body.id;
    assert OwnStamp(sha, id, objects[id]);
    var b :| StoredAs(b, id, objects[id]) && objects[id].stamp.value == sha(b);
    assert b == s.d.body;
  }

  function OfKind(k: Kind, ids: set<Id>): set<Id> { set id | id in ids && id.kind == k }

  /** Unwanted objects that the sweep could not list or could not delete. */
  function Stuck(m: Druid, sha: Sha, k: Kind, sa: SweepAnswers, objects: Objects): set<Id> {
    set id | && id in Selected(k, ClusterLabels(m), objects) && id !in Wanted(m, sha)
             && (k in sa.listFails || id in sa.deleteFails)
  }

  /** Names are wanted exactly when some desired object has them. */
  lemma WantedHasStep(m: Druid, sha: Sha, id: Id)
    requires id in Wanted(m, sha)
    ensures exists s :: DesiredStep(m, sha, s) && !s.Finalizers? && s.d.body.id == id
  {
    if id == CommonConfig(m).id {
      var s := Apply(Stamped(sha, CommonConfig(m)));
      hide CommonConfig, NodeStep;
      assert DesiredStep(m, sha, s) && s.d.body.id == id;
    } else {
      hide NodeIds, Known, CommonConfig, NodeSteps;
      var key :| key in KnownKeys(m) && id in NodeIds(m, sha, key);
      NodeIdHasStep(m, sha, key, id);
      var s: Step :| s in NodeSteps(m, sha, key, m.nodes[key]) && !s.Finalizers? && s.d.body.id == id;
      assert NodeStep(m, sha, KnownKeys(m), s);
      assert DesiredStep(m, sha, s);
    }
  }

  lemma NodeIdHasStep(m: Druid, sha: Sha, key: string, id: Id)
    requires key in m.nodes && id in NodeIds(m, sha, key)
    ensures exists s :: s in NodeSteps(m, sha, key, m.nodes[key]) && !s.Finalizers? && s.d.body.id == id
  {
    hide NodeSteps;
    var steps := NodeSteps(m, sha, key, m.nodes[key]);
    var i :| 0 <= i < |steps| && id in StepId(steps[i]);
    assert steps[i] in steps;
  }

  /** Both readings of the referenced maps give the common configuration `m` stands for. */
  ghost predicate SteadyInput(m: Druid, sha: Sha, input: PassInput) {
    ValidInput(m, sha, input) && Applied(input) == m.commonConfig
  }

  function StepsOf(m: Druid, sha: Sha, input: PassInput, objects: Objects): (World, Verdict)
    requires forall k :: k in input.iter ==> k in m.nodes
  {
    OwnSteps(m, sha, m.commonConfig, input, objects)
  }

  lemma StepsCurrent(m: Druid, sha: Sha, input: PassInput, objects: Objects)
    requires SteadyInput(m, sha, input) && NoConflict(m, sha) && StepsOf(m, sha, input, objects).1 == Continue
    ensures AllCurrent(m, sha, StepsOf(m, sha, input, objects).0.objects)
  {
    hide OwnPlan, RunSteps, Applied, NoConflict, AllCurrent, Agrees;
    var plan := OwnPlan(m, sha, m.commonConfig, input.iter);
    PlanAgrees(m, sha, input.iter);
    assert plan[0..] == plan;
    CompletedCurrent(GateOf(m), plan, 0, input.ans, Start(objects));
    CurrentPlan(m, sha, input.iter, RunSteps(GateOf(m), plan, input.ans, Start(objects)).0.objects);
  }

  lemma StepsHonest(m: Druid, sha: Sha, input: PassInput, objects: Objects)
    requires SteadyInput(m, sha, input) && Honest(sha, Wanted(m, sha), objects)
    ensures Honest(sha, Wanted(m, sha), StepsOf(m, sha, input, objects).0.objects)
  {
    var plan := OwnPlan(m, sha, m.commonConfig, input.iter);
    OwnPlanSteps(m, sha, input.iter);
    hide OwnPlan, DesiredStep, RunSteps, Applied, Wanted;
    forall s | s in plan ensures s.Finalizers? || OwnHash(sha, s.d) {
      if !s.Finalizers? { DesiredWellStamped(m, sha, s); }
    }
    HonestKept(sha, Wanted(m, sha), GateOf(m), plan, input.ans, Start(objects));
  }

  /** The steps touch wanted names only. */
  ghost predicate OthersUntouched(m: Druid, sha: Sha, before: Objects, after: Objects) {
    forall id :: id !in Wanted(m, sha) ==> (id in after <==> id in before) && (id in before ==> after[id] == before[id])
  }

  lemma StepsTouchWanted(m: Druid, sha: Sha, input: PassInput, objects: Objects)
    requires SteadyInput(m, sha, input)
    ensures var w := StepsOf(m, sha, input, objects).0; OthersUntouched(m, sha, objects, w.objects) && w.deleted == {}
  {
    hide OwnPlan, RunSteps, Wanted, Applied, CommonFiles;
    OwnPlanIds(m, sha, m.commonConfig, input.iter);
    FrameOf(GateOf(m), OwnPlan(m, sha, m.commonConfig, input.iter), input.ans, objects, Wanted(m, sha));
  }

  lemma FrameOf(gate: Gate, plan: seq<Step>, ans: nat -> Answers, objects: Objects, ids: set<Id>)
    requires StepIds(plan) == ids
    ensures var w := RunSteps(gate, plan, ans, Start(objects)).0;
            && w.deleted == {}
            && (forall id :: id !in ids ==> (id in w.objects <==> id in objects))
            && (forall id :: id !in ids && id in objects ==> w.objects[id] == objects[id])
  {
    StepsFrame(gate, plan, ans, Start(objects));
    hide RunSteps;
  }

  /** Every wanted name is stored with the cluster's labels. */
  ghost predicate AllSelected(m: Druid, sha: Sha, objects: Objects) {
    forall id :: id in Wanted(m, sha) ==> id in objects && id in Selected(id.kind, ClusterLabels(m), objects)
  }

  lemma CurrentIsSelected(m: Druid, sha: Sha, objects: Objects)
    requires Injective(sha) && Honest(sha, Wanted(m, sha), objects) && AllCurrent(m, sha, objects)
    ensures AllSelected(m, sha, objects)
  {
    hide DesiredStep, Wanted, Matches, ClusterLabels;
    forall id | id in Wanted(m, sha) ensures id in objects && id in Selected(id.kind, ClusterLabels(m), objects) {
      WantedHasStep(m, sha, id);
      var s: Step :| DesiredStep(m, sha, s) && !s.Finalizers? && s.d.body.id == id;
      CurrentHasLabels(m, sha, s, objects);
    }
  }

  /** The state after the steps of a completed pass, before the sweep. */
  lemma StepsExact(m: Druid, sha: Sha, input: PassInput, objects: Objects)
    requires SteadyInput(m, sha, input) && NoConflict(m, sha) && Injective(sha) && Honest(sha, Wanted(m, sha), objects)
    requires StepsOf(m, sha, input, objects).1 == Continue
    ensures var w := StepsOf(m, sha, input, objects).0;
            && w.names == Wanted(m, sha) && w.deleted == {}
            && AllCurrent(m, sha, w.objects) && Honest(sha, Wanted(m, sha), w.objects)
            && AllSelected(m, sha, w.objects) && OthersUntouched(m, sha, objects, w.objects)
  {
    StepsCurrent(m, sha, input, objects);
    StepsHonest(m, sha, input, objects);
    StepsTouchWanted(m, sha, input, objects);
    NamesAreWanted(m, sha, m.commonConfig, input, objects);
    hide OwnSteps, AllCurrent, Honest, Wanted, NoConflict, AllSelected, OthersUntouched;
    CurrentIsSelected(m, sha, StepsOf(m, sha, input, objects).0.objects);
  }

  lemma CompletedMeansContinue(m: Druid, sha: Sha, input: PassInput, objects: Objects)
    requires SteadyInput(m, sha, input) && Reconciled(m, sha, input, objects).1 == Completed
    ensures StepsOf(m, sha, input, objects).1 == Continue
    ensures Reconciled(m, sha, input, objects).0 ==
            Sweep(COLLECTED, ClusterLabels(m), input.sa, StepsOf(m, sha, input, objects).0)
  {
    hide OwnSteps, Sweep, ValidSpec, Applied, CommonFiles, ClusterLabels;
  }

  lemma ContinueMeansCompleted(m: Druid, sha: Sha, input: PassInput, objects: Objects)
    requires SteadyInput(m, sha, input) && ValidSpec(m) && StepsOf(m, sha, input, objects).1 == Continue
    ensures Reconciled(m, sha, input, objects) ==
            (Sweep(COLLECTED, ClusterLabels(m), input.sa, StepsOf(m, sha, input, objects).0), Completed)
  {
    hide OwnSteps, Sweep, ValidSpec, Applied, CommonFiles, ClusterLabels;
  }

  predicate Within(a: Objects, b: Objects) { forall id :: id in a ==> id in b && a[id] == b[id] }

  /** Nothing is stored after a pass but what was there before or after its steps. */
  lemma PassLeavesLess(m: Druid, sha: Sha, input: PassInput, objects: Objects)
    requires SteadyInput(m, sha, input)
    ensures var after := Reconciled(m, sha, input, objects).0.objects;
            after == objects || Within(after, StepsOf(m, sha, input, objects).0.objects)
  {
    hide OwnSteps, ValidSpec, Applied, CommonFiles, ClusterLabels, Doomed;
  }

  /** Only unwanted objects with the cluster's labels are deleted; all other unwanted ones stay. */
  ghost predicate OnlyGarbageGone(m: Druid, sha: Sha, before: Objects, w: World) {
    && (forall id :: id in w.deleted ==> id in Selected(id.kind, ClusterLabels(m), before) && id !in Wanted(m, sha))
    && (forall id :: id in before && id !in Wanted(m, sha) && id !in w.deleted ==>
          id in w.objects && w.objects[id] == before[id])
    && (forall id :: id in w.objects ==> id in before || id in Wanted(m, sha))
  }

  /** A completed pass is exact: per collected kind, the objects carrying the cluster's labels are the
      desired ones and those whose list or delete failed; every desired object has its desired hash;
      nothing else in the store changed, and only objects with the cluster's labels were deleted. */
  lemma CompletedPassIsExact(m: Druid, sha: Sha, input: PassInput, objects: Objects)
    requires SteadyInput(m, sha, input) && NoConflict(m, sha) && Injective(sha) && Honest(sha, Wanted(m, sha), objects)
    requires Reconciled(m, sha, input, objects).1 == Completed
    ensures var w := Reconciled(m, sha, input, objects).0;
            && (forall k :: k in COLLECTED ==>
                  Selected(k, ClusterLabels(m), w.objects) ==
                  OfKind(k, Wanted(m, sha)) + Stuck(m, sha, k, input.sa, objects))
            && AllCurrent(m, sha, w.objects) && Honest(sha, Wanted(m, sha), w.objects)
            && OnlyGarbageGone(m, sha, objects, w)
  {
    CompletedMeansContinue(m, sha, input, objects);
    StepsExact(m, sha, input, objects);
    var w1 := StepsOf(m, sha, input, objects).0;
    hide Reconciled, StepsOf, Wanted, Matches, NoConflict, DesiredStep, ClusterLabels;
    SweptSelected(m, sha, input.sa, objects, w1);
    SweepKeepsCurrent(m, sha, input.sa, w1);
  }

  lemma SweepKeepsCurrent(m: Druid, sha: Sha, sa: SweepAnswers, w: World)
    requires w.names == Wanted(m, sha)
    ensures var after := Sweep(COLLECTED, ClusterLabels(m), sa, w).objects;
            && (AllCurrent(m, sha, after) <==> AllCurrent(m, sha, w.objects))
            && (Honest(sha, Wanted(m, sha), w.objects) ==> Honest(sha, Wanted(m, sha), after))
  {
    SweepKeepsNames(COLLECTED, ClusterLabels(m), sa, w);
    hide Sweep, Wanted, DesiredStep;
    forall s | DesiredStep(m, sha, s) && !s.Finalizers? ensures s.d.body.id in Wanted(m, sha) {
      DesiredWellStamped(m, sha, s);
    }
  }

  /** A completed pass leaves every desired object at its desired hash exactly if no two of them ask for
      different objects under one name. */
  lemma SettlesExactly(m: Druid, sha: Sha, input: PassInput, objects: Objects)
    requires SteadyInput(m, sha, input) && Reconciled(m, sha, input, objects).1 == Completed
    ensures AllCurrent(m, sha, Reconciled(m, sha, input, objects).0.objects) <==> NoConflict(m, sha)
  {
    CompletedMeansContinue(m, sha, input, objects);
    var w := StepsOf(m, sha, input, objects).0;
    NamesAreWanted(m, sha, m.commonConfig, input, objects);
    SweepKeepsCurrent(m, sha, input.sa, w);
    if NoConflict(m, sha) { StepsCurrent(m, sha, input, objects); }
    hide Reconciled, StepsOf, AllCurrent, NoConflict;
    var after := Reconciled(m, sha, input, objects).0.objects;
    if AllCurrent(m, sha, after) { CurrentMeansNoConflict(m, sha, after); }
  }

  lemma SweptSelected(m: Druid, sha: Sha, sa: SweepAnswers, objects: Objects, w: World)
    requires w.names == Wanted(m, sha) && w.deleted == {}
    requires AllSelected(m, sha, w.objects) && OthersUntouched(m, sha, objects, w.objects)
    ensures var after := Sweep(COLLECTED, ClusterLabels(m), sa, w);
            && (forall k :: k in COLLECTED ==>
                  Selected(k, ClusterLabels(m), after.objects) ==
                  OfKind(k, Wanted(m, sha)) + Stuck(m, sha, k, sa, objects))
            && OnlyGarbageGone(m, sha, objects, after)
  {
    hide Wanted, Matches, ClusterLabels;
    var after := Sweep(COLLECTED, ClusterLabels(m), sa, w);
    forall k, id | k in COLLECTED
      ensures id in Selected(k, ClusterLabels(m), after.objects) <==>
              id in OfKind(k, Wanted(m, sha)) + Stuck(m, sha, k, sa, objects)
    {
    }
  }

  /** When the sweep meets no failure, the report of a completed pass is, for every collected kind, the
      sorted list of the desired names. */
  lemma ReportIsDesiredNames(m: Druid, sha: Sha, input: PassInput, objects: Objects, report: map<Kind, seq<string>>,
        k: Kind)
    requires SteadyInput(m, sha, input) && NoConflict(m, sha) && Injective(sha) && Honest(sha, Wanted(m, sha), objects)
    requires StepsOf(m, sha, input, objects).1 == Continue && k in COLLECTED
    requires ReportOk(report, COLLECTED, ClusterLabels(m), SweepAnswers({}, {}), StepsOf(m, sha, input, objects).0)
    ensures k in report && Sorted(report[k]) && NoRepeats(report[k])
    ensures forall name :: name in report[k] <==> Id(k, name) in Wanted(m, sha)
  {
    StepsExact(m, sha, input, objects);
    hide StepsOf, Wanted, Matches, NoConflict, AllCurrent, Honest, ClusterLabels;
  }
}
