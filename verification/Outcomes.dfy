/** What a pass does, told from what it is given: the stored objects, the resource and the answers. */
module Outcomes {
  import opened Basics
  import opened ChangedReading
  import opened Cluster
  import opened ConfigChange
  import opened Deploy
  import opened Ordering
  import opened Plans
  import opened Sharing

  // One step

  predicate Missing(d: Desired, objects: Objects) { d.body.id !in objects }

  /** Stored, with another hash or none. */
  predicate Stale(d: Desired, objects: Objects) {
    d.body.id in objects && objects[d.body.id].stamp != Some(d.stamp)
  }

  /** A StatefulSet with one revision and all current replicas ready; a Deployment whose first condition is
      neither a failure nor a stalled rollout, with all replicas ready. */
  predicate FullyDeployed(st: Status) {
    match st
    case StatefulSetStatus(current, update, currentReplicas, readyReplicas) =>
      current == update && currentReplicas == readyReplicas
    case DeploymentStatus(conditions, readyReplicas, replicas) =>
      && conditions != [] && conditions[0].ctype != "ReplicaFailure" && readyReplicas == replicas
      && (conditions[0].ctype == "Progressing" ==> conditions[0].status == "True")
    case NoStatus => false
  }

  predicate ReportsFailure(st: Status) {
    st.DeploymentStatus? && st.conditions != [] && st.conditions[0].ctype == "ReplicaFailure"
  }

  /** After the step the workload counts as deployed: a StatefulSet does as soon as it is created. */
  predicate CountsAsDeployed(d: Desired, objects: Objects) {
    if d.body.id in objects then FullyDeployed(objects[d.body.id].status) else d.body.id.kind == StatefulSet
  }

  /** The step ends the pass with an error. */
  predicate StepFails(gate: Gate, s: Step, a: Answers, objects: Objects) {
    match s
    case Finalizers(patch) => patch && a.writeFails
    case Apply(d) => a.getFails || ((Missing(d, objects) || Stale(d, objects)) && a.writeFails)
    case Roll(d, _) =>
      || a.getFails || ((Missing(d, objects) || Stale(d, objects)) && a.writeFails)
      || (&& gate.rolling && gate.guarded && !Stale(d, objects)
          && (a.checkFails || (d.body.id in objects && ReportsFailure(objects[d.body.id].status))))
  }

  /** The step makes the pass wait, unless it fails. */
  predicate StepWaits(gate: Gate, s: Step, objects: Objects) {
    s.Roll? && gate.rolling && (Stale(s.d, objects) || (gate.guarded && !CountsAsDeployed(s.d, objects)))
  }

  predicate StepWrites(s: Step, a: Answers, objects: Objects) {
    !s.Finalizers? && !a.getFails && !a.writeFails && (Missing(s.d, objects) || Stale(s.d, objects))
  }

  /** The object as it is written: the hash annotation replaced, and a stored status kept. */
  predicate WrittenAs(d: Desired, objects: Objects, o: Object) {
    && o.labels == d.body.labels && o.content == d.body.content && o.stamp == Some(d.stamp)
    && o.annotations == d.body.annotations - {HASH}
    && (d.body.id in objects ==> o.status == objects[d.body.id].status)
    && (d.body.id !in objects ==> (FullyDeployed(o.status) <==> d.body.id.kind == StatefulSet))
  }

  function WriteOf(d: Desired, objects: Objects): Event {
    if d.body.id in objects then Updated(d.body.id) else Created(d.body.id)
  }

  predicate RightKind(s: Step) { s.Roll? ==> IsWorkload(s.d.body.id.kind) }

  lemma StepExactly(gate: Gate, s: Step, ans: nat -> Answers, w: World)
    requires RightKind(s)
    ensures var a := ans(w.answered);
            var (w', v) := DoStep(gate, s, ans, w);
            && v == (if StepFails(gate, s, a, w.objects) then Fail
                     else if StepWaits(gate, s, w.objects) then Stop else Continue)
            && w'.names == w.names + StepId(s) && w'.deleted == w.deleted && w'.answered == w.answered + 1
            && (if StepWrites(s, a, w.objects)
                then && s.d.body.id in w'.objects && WrittenAs(s.d, w.objects, w'.objects[s.d.body.id])
                     && w'.objects - {s.d.body.id} == w.objects - {s.d.body.id}
                     && w'.log == w.log + [WriteOf(s.d, w.objects)]
                else w'.objects == w.objects && w'.log == w.log)
  {
  }

  // Steps under distinct names

  /** The writes of the first `k` steps, in order. */
  function WritesOf(plan: seq<Step>, ans: nat -> Answers, objects: Objects, k: nat): seq<Event>
    requires k <= |plan|
  {
    if k == 0 then [] else
      WritesOf(plan, ans, objects, k - 1) +
      if StepWrites(plan[k - 1], ans(k - 1), objects) then [WriteOf(plan[k - 1].d, objects)] else []
  }

  /** Step `i` is among the first `k` and writes the object `id`. */
  predicate WritesTo(plan: seq<Step>, ans: nat -> Answers, objects: Objects, k: nat, i: nat, id: Id) {
    i < k <= |plan| && StepWrites(plan[i], ans(i), objects) && plan[i].d.body.id == id
  }

  /** Every object is as the step that writes it makes it, and else as it was. */
  ghost predicate StoreAfter(plan: seq<Step>, ans: nat -> Answers, objects: Objects, k: nat, after: Objects)
    requires k <= |plan|
  {
    && (forall i: nat, id :: WritesTo(plan, ans, objects, k, i, id) ==>
          id in after && WrittenAs(plan[i].d, objects, after[id]))
    && forall id :: Unwritten(plan, ans, objects, k, id) ==> SameAt(id, objects, after)
  }

  ghost predicate Unwritten(plan: seq<Step>, ans: nat -> Answers, objects: Objects, k: nat, id: Id) {
    forall i: nat :: !WritesTo(plan, ans, objects, k, i, id)
  }

  predicate SameAt(id: Id, a: Objects, b: Objects) {
    (id in a <==> id in b) && (id in a ==> a[id] == b[id])
  }

  /** What the first `k` steps leave behind, all of them told from the objects the pass starts from. */
  ghost predicate AfterSteps(plan: seq<Step>, ans: nat -> Answers, objects: Objects, k: nat, w: World)
    requires k <= |plan|
  {
    && StoreAfter(plan, ans, objects, k, w.objects) && w.log == WritesOf(plan, ans, objects, k)
    && w.names == StepIds(plan[..k]) && w.deleted == {} && w.answered == k
  }

  predicate AllRightKind(plan: seq<Step>) { forall i :: 0 <= i < |plan| ==> RightKind(plan[i]) }

  /** An object that no earlier step names is found as it was at the start. */
  lemma FoundAsStarted(plan: seq<Step>, ans: nat -> Answers, objects: Objects, k: nat, after: Objects)
    requires IdsDistinct(plan) && k < |plan| && !plan[k].Finalizers? && StoreAfter(plan, ans, objects, k, after)
    ensures SameAt(plan[k].d.body.id, objects, after)
  {
    hide WrittenAs, Missing, Stale;
  }

  lemma StoreOneMore(gate: Gate, plan: seq<Step>, ans: nat -> Answers, objects: Objects, k: nat, w: World)
    requires IdsDistinct(plan) && AllRightKind(plan) && k < |plan| && w.answered == k
    requires StoreAfter(plan, ans, objects, k, w.objects)
    ensures StoreAfter(plan, ans, objects, k + 1, DoStep(gate, plan[k], ans, w).0.objects)
    ensures DoStep(gate, plan[k], ans, w).0.log == w.log +
            if StepWrites(plan[k], ans(k), objects) then [WriteOf(plan[k].d, objects)] else []
    ensures DoStep(gate, plan[k], ans, w).1 ==
            if StepFails(gate, plan[k], ans(k), objects) then Fail
            else if StepWaits(gate, plan[k], objects) then Stop else Continue
  {
    var s, w' := plan[k], DoStep(gate, plan[k], ans, w).0;
    StepExactly(gate, s, ans, w);
    if !s.Finalizers? { FoundAsStarted(plan, ans, objects, k, w.objects); }
    hide DoStep, FullyDeployed, ReportsFailure;
    assert StepWrites(s, ans(k), w.objects) <==> StepWrites(s, ans(k), objects);
    assert StepFails(gate, s, ans(k), w.objects) <==> StepFails(gate, s, ans(k), objects);
    assert StepWaits(gate, s, w.objects) <==> StepWaits(gate, s, objects);
    hide StepFails, StepWaits;
    forall i: nat, id | WritesTo(plan, ans, objects, k + 1, i, id)
      ensures id in w'.objects && WrittenAs(plan[i].d, objects, w'.objects[id])
    {
      if i < k {
        assert WritesTo(plan, ans, objects, k, i, id);
        assert StepWrites(s, ans(k), objects) ==> id != s.d.body.id;
        ElsewhereSame(w, w', s, id);
      }
    }
    forall id | Unwritten(plan, ans, objects, k + 1, id) ensures SameAt(id, objects, w'.objects) {
      forall i: nat ensures !WritesTo(plan, ans, objects, k, i, id) {
        assert !WritesTo(plan, ans, objects, k + 1, i, id);
      }
      assert Unwritten(plan, ans, objects, k, id);
      assert !WritesTo(plan, ans, objects, k + 1, k, id);
      ElsewhereSame(w, w', s, id);
    }
  }

  lemma ElsewhereSame(w: World, w': World, s: Step, id: Id)
    requires w'.objects == w.objects
             || (!s.Finalizers? && id != s.d.body.id && w'.objects - {s.d.body.id} == w.objects - {s.d.body.id})
    ensures SameAt(id, w.objects, w'.objects)
  {
    if w'.objects != w.objects {
      assert id in w.objects <==> id in w.objects - {s.d.body.id};
      assert id in w'.objects <==> id in w'.objects - {s.d.body.id};
      assert id in w.objects ==> (w.objects - {s.d.body.id})[id] == w.objects[id];
      assert id in w'.objects ==> (w'.objects - {s.d.body.id})[id] == w'.objects[id];
    }
  }

  lemma StepIdsOneMore(plan: seq<Step>, k: nat)
    requires k < |plan|
    ensures StepIds(plan[..k + 1]) == StepIds(plan[..k]) + StepId(plan[k])
  {
    assert plan[..k + 1] == plan[..k] + [plan[k]];
    StepIdsConcat(plan[..k], [plan[k]]);
    assert [plan[k]][..0] == [];
  }

  /** Step `k` neither fails nor waits. */
  predicate GoesOn(gate: Gate, plan: seq<Step>, ans: nat -> Answers, objects: Objects, k: nat)
    requires k < |plan|
  {
    !StepFails(gate, plan[k], ans(k), objects) && !StepWaits(gate, plan[k], objects)
  }

  lemma {:induction false} PrefixExactly(gate: Gate, plan: seq<Step>, ans: nat -> Answers, objects: Objects, k: nat)
    requires IdsDistinct(plan) && AllRightKind(plan) && k <= |plan|
    requires forall i: nat :: i < k ==> GoesOn(gate, plan, ans, objects, i)
    ensures var (w, v) := RunSteps(gate, plan[..k], ans, Start(objects));
            v == Continue && AfterSteps(plan, ans, objects, k, w)
  {
    hide DoStep, WrittenAs, StepFails, StepWaits, StepWrites;
    if k > 0 {
      PrefixExactly(gate, plan, ans, objects, k - 1);
      assert GoesOn(gate, plan, ans, objects, k - 1);
      OneMoreStep(gate, plan, ans, objects, k - 1);
    } else {
      assert plan[..0] == [];
    }
  }

  lemma OneMoreStep(gate: Gate, plan: seq<Step>, ans: nat -> Answers, objects: Objects, k: nat)
    requires IdsDistinct(plan) && AllRightKind(plan) && k < |plan|
    requires var (w, v) := RunSteps(gate, plan[..k], ans, Start(objects));
             v == Continue && AfterSteps(plan, ans, objects, k, w)
    ensures var (w, v) := RunSteps(gate, plan[..k + 1], ans, Start(objects));
            && AfterSteps(plan, ans, objects, k + 1, w)
            && v == if StepFails(gate, plan[k], ans(k), objects) then Fail
                    else if StepWaits(gate, plan[k], objects) then Stop else Continue
  {
    hide DoStep, StoreAfter, StepFails, StepWaits, StepWrites, StepIds, IdsDistinct;
    var w := RunSteps(gate, plan[..k], ans, Start(objects)).0;
    assert plan[..k + 1] == plan[..k] + [plan[k]];
    RunConcat(gate, plan[..k], [plan[k]], ans, Start(objects));
    RunOne(gate, plan[k], ans, w);
    StoreOneMore(gate, plan, ans, objects, k, w);
    StepIdsOneMore(plan, k);
    assert RightKind(plan[k]);
    StepExactly(gate, plan[k], ans, w);
  }

  /** The steps from `n` on are not reached, except step `n` itself, which does not let the pass go on. */
  ghost predicate EndsAtStep(gate: Gate, plan: seq<Step>, ans: nat -> Answers, objects: Objects, n: nat) {
    && n <= |plan| && (forall i: nat :: i < n ==> GoesOn(gate, plan, ans, objects, i))
    && (n < |plan| ==> !GoesOn(gate, plan, ans, objects, n))
  }

  lemma {:induction false} SomeEnd(gate: Gate, plan: seq<Step>, ans: nat -> Answers, objects: Objects, k: nat)
    returns (n: nat)
    requires k <= |plan| && forall i: nat :: i < k ==> GoesOn(gate, plan, ans, objects, i)
    ensures EndsAtStep(gate, plan, ans, objects, n)
    decreases |plan| - k
  {
    hide GoesOn;
    if k == |plan| || !GoesOn(gate, plan, ans, objects, k) {
      n := k;
    } else {
      n := SomeEnd(gate, plan, ans, objects, k + 1);
    }
  }

  /** Steps under distinct names, run one after another, do what each of them would do on the objects at
      the start, up to the first that fails or waits. */
  lemma RunExactly(gate: Gate, plan: seq<Step>, ans: nat -> Answers, objects: Objects) returns (n: nat)
    requires IdsDistinct(plan) && AllRightKind(plan)
    ensures EndsAtStep(gate, plan, ans, objects, n)
    ensures var (w, v) := RunSteps(gate, plan, ans, Start(objects));
            && AfterSteps(plan, ans, objects, if n < |plan| then n + 1 else n, w)
            && v == if n == |plan| then Continue else if StepFails(gate, plan[n], ans(n), objects) then Fail else Stop
  {
    hide DoStep, AfterSteps, StepFails, StepWaits, StepWrites, IdsDistinct, AllRightKind;
    n := SomeEnd(gate, plan, ans, objects, 0);
    PrefixExactly(gate, plan, ans, objects, n);
    if n < |plan| {
      OneMoreStep(gate, plan, ans, objects, n);
      assert plan == plan[..n + 1] + plan[n + 1..];
      RunConcat(gate, plan[..n + 1], plan[n + 1..], ans, Start(objects));
    } else {
      assert plan[..n] == plan;
    }
  }

  // A pass over distinct names

  /** A completed pass removes the object: it carries the cluster's labels, no step of the pass named it,
      and the list and the delete succeed. */
  predicate Collected(m: Druid, sa: SweepAnswers, w: World, id: Id) {
    && id in w.objects && id.kind != Pvc && id !in w.names
    && "app" in w.objects[id].labels && w.objects[id].labels["app"] == "druid"
    && "druid_cr" in w.objects[id].labels && w.objects[id].labels["druid_cr"] == m.name
    && id.kind !in sa.listFails && id !in sa.deleteFails
  }

  ghost predicate CollectedFrom(m: Druid, sa: SweepAnswers, w: World, w': World) {
    && w'.log == w.log && w'.names == w.names && w'.answered == w.answered
    && (forall id :: id in w'.deleted <==> id in w.deleted || Collected(m, sa, w, id))
    && (forall id :: id in w'.objects <==> id in w.objects && !Collected(m, sa, w, id))
    && (forall id :: id in w'.objects ==> w'.objects[id] == w.objects[id])
  }

  lemma CollectedKinds(k: Kind)
    ensures k in COLLECTED <==> k != Pvc
  {
    var kinds := COLLECTED;
    assert kinds[0] == StatefulSet && kinds[1] == Deployment && kinds[2] == Hpa && kinds[3] == Ingress;
    assert kinds[4] == Pdb && kinds[5] == Service && kinds[6] == ConfigMap;
  }

  lemma SelectedExactly(m: Druid, labels: Labels)
    ensures Matches(ClusterLabels(m), labels) <==>
            && "app" in labels && labels["app"] == "druid" && "druid_cr" in labels && labels["druid_cr"] == m.name
  {
    assert "app" in ClusterLabels(m) && "druid_cr" in ClusterLabels(m);
  }

  lemma DoomedExactly(m: Druid, sa: SweepAnswers, w: World, id: Id)
    ensures id in Doomed(COLLECTED, ClusterLabels(m), sa, w) <==> Collected(m, sa, w, id)
  {
    CollectedKinds(id.kind);
    if id in w.objects { SelectedExactly(m, w.objects[id].labels); }
    hide Matches, ClusterLabels;
  }

  lemma SweepExactly(m: Druid, sa: SweepAnswers, w: World)
    ensures CollectedFrom(m, sa, w, Sweep(COLLECTED, ClusterLabels(m), sa, w))
  {
    hide Doomed, Collected, ClusterLabels;
    forall id ensures id in Doomed(COLLECTED, ClusterLabels(m), sa, w) <==> Collected(m, sa, w, id) {
      DoomedExactly(m, sa, w, id);
    }
    assert forall id :: Collected(m, sa, w, id) ==> id in w.objects by { CollectedAreStored(m, sa, w); }
  }

  lemma CollectedAreStored(m: Druid, sa: SweepAnswers, w: World)
    ensures forall id :: Collected(m, sa, w, id) ==> id in w.objects
  {
  }

  /** The pass gets to step `n` of the plan; past the last one it collects garbage. */
  ghost predicate PassEndsAt(input: PassInput, plan: seq<Step>, objects: Objects, n: nat, w: World, out: Outcome) {
    var gate := Gate(input.resource.rollingDeploy, input.resource.generation > 1);
    && EndsAtStep(gate, plan, input.ans, objects, n)
    && if n < |plan|
       then && AfterSteps(plan, input.ans, objects, n + 1, w)
            && out == if StepFails(gate, plan[n], input.ans(n), objects) then Failed else Waiting
       else out == Completed && exists x :: AfterSteps(plan, input.ans, objects, n, x)
                                            && CollectedFrom(input.resource, input.sa, x, w)
  }

  /** A whole pass told from its inputs, whatever fails, for every resource whose names are distinct: each
      object is written exactly if its step is reached, it is missing or stale, and the calls succeed; the
      pass ends at the first step that fails or waits; and one that gets past the last step removes exactly
      the labelled objects that it did not name. */
  lemma PassExactly(sha: Sha, input: PassInput, objects: Objects)
    requires Enumerates(input.iter, input.resource.nodes.Keys) && ValidSpec(input.resource)
    requires NamesDistinct(AsRead(input))
    ensures var plan := PlanOf(AsRead(input), sha, Applied(input), input.iter);
            var (w, out) := Pass(sha, input, objects);
            exists n: nat :: PassEndsAt(input, plan, objects, n, w, out)
  {
    var m := AsRead(input);
    assert m.nodes == input.resource.nodes;
    hide PlanOf, AsRead, NamesDistinct, ValidSpec, Applied, AfterSteps, EndsAtStep, StepFails, RunSteps, Sweep, Pass;
    hide ClusterLabels, CollectedFrom, WellKinded, RollsDistinct, RollsRanked, HasWorkloads, OnlyWorkloads;
    var plan, gate := PassPlan(sha, input), Gate(input.resource.rollingDeploy, input.resource.generation > 1);
    PlanIdsDistinctExactly(m, sha, Applied(input), input.iter);
    PlanRolls(m, sha, Applied(input), input.iter);
    KindsAreRight(plan);
    var n := RunExactly(gate, plan, input.ans, objects);
    EndBound(gate, plan, input.ans, objects, n);
    PassOfRun(sha, input, objects);
    var (w, out) := Pass(sha, input, objects);
    SweepExactly(input.resource, input.sa, RunSteps(gate, plan, input.ans, Start(objects)).0);
    assert PassEndsAt(input, plan, objects, n, w, out);
  }

  lemma EndBound(gate: Gate, plan: seq<Step>, ans: nat -> Answers, objects: Objects, n: nat)
    requires EndsAtStep(gate, plan, ans, objects, n)
    ensures n <= |plan|
  {
    hide GoesOn;
  }

  lemma KindsAreRight(plan: seq<Step>)
    requires WellKinded(plan)
    ensures AllRightKind(plan)
  {
  }

  // Passes whose reads and writes succeed, over any resource

  ghost predicate Answering(ans: nat -> Answers) { forall n: nat :: !ans(n).getFails && !ans(n).writeFails }

  /** The workload steps up to `k` found their objects as at the start and wrote the missing and stale ones;
      the others are still as they were. */
  ghost predicate RollsAfter(plan: seq<Step>, objects: Objects, k: nat, w: World)
    requires k <= |plan|
  {
    && (forall i :: k <= i < |plan| && plan[i].Roll? ==> SameAt(plan[i].d.body.id, objects, w.objects))
    && (forall i :: 0 <= i < |plan| && plan[i].Roll? ==>
          && (Created(plan[i].d.body.id) in w.log <==> i < k && Missing(plan[i].d, objects))
          && (Updated(plan[i].d.body.id) in w.log <==> i < k && Stale(plan[i].d, objects)))
  }

  lemma OtherRollsApart(plan: seq<Step>, k: nat)
    requires WellKinded(plan) && RollsDistinct(plan) && k < |plan|
    ensures RightKind(plan[k])
    ensures forall i :: 0 <= i < |plan| && plan[i].Roll? && i != k ==> plan[i].d.body.id !in StepId(plan[k])
  {
  }

  lemma SameAtSameVerdict(gate: Gate, s: Step, a: Answers, x: Objects, y: Objects)
    requires s.Roll? && SameAt(s.d.body.id, x, y)
    ensures StepFails(gate, s, a, x) == StepFails(gate, s, a, y) && StepWaits(gate, s, x) == StepWaits(gate, s, y)
    ensures StepWrites(s, a, x) == StepWrites(s, a, y) && WriteOf(s.d, x) == WriteOf(s.d, y)
  {
  }

  lemma RollsOneMore(gate: Gate, plan: seq<Step>, ans: nat -> Answers, objects: Objects, k: nat, w: World)
    requires WellKinded(plan) && RollsDistinct(plan) && Answering(ans) && k < |plan|
    requires RollsAfter(plan, objects, k, w) && w.answered == k
    ensures RollsAfter(plan, objects, k + 1, DoStep(gate, plan[k], ans, w).0)
    ensures plan[k].Roll? ==>
              DoStep(gate, plan[k], ans, w).1 ==
              if StepFails(gate, plan[k], ans(k), objects) then Fail
              else if StepWaits(gate, plan[k], objects) then Stop else Continue
    ensures !plan[k].Roll? ==> DoStep(gate, plan[k], ans, w).1 == Continue
    ensures DoStep(gate, plan[k], ans, w).0.answered == k + 1
  {
    var s, w' := plan[k], DoStep(gate, plan[k], ans, w).0;
    OtherRollsApart(plan, k);
    StepExactly(gate, s, ans, w);
    hide DoStep, WrittenAs, WellKinded, RollsDistinct, StepWaits;
    if s.Roll? { SameAtSameVerdict(gate, s, ans(k), objects, w.objects); }
    forall i | k + 1 <= i < |plan| && plan[i].Roll? ensures SameAt(plan[i].d.body.id, objects, w'.objects) {
      ElsewhereSame(w, w', s, plan[i].d.body.id);
    }
  }

  /** Workload step `k` neither fails nor waits. */
  predicate RollGoesOn(gate: Gate, plan: seq<Step>, ans: nat -> Answers, objects: Objects, k: nat)
    requires k < |plan|
  {
    plan[k].Roll? ==> GoesOn(gate, plan, ans, objects, k)
  }

  lemma {:induction false} RollsPrefix(gate: Gate, plan: seq<Step>, ans: nat -> Answers, objects: Objects, k: nat)
    requires WellKinded(plan) && RollsDistinct(plan) && Answering(ans) && k <= |plan|
    requires forall i: nat :: i < k ==> RollGoesOn(gate, plan, ans, objects, i)
    ensures var (w, v) := RunSteps(gate, plan[..k], ans, Start(objects));
            v == Continue && RollsAfter(plan, objects, k, w) && w.answered == k
  {
    hide DoStep, StepFails, StepWaits, RollsDistinct, WellKinded;
    if k > 0 {
      RollsPrefix(gate, plan, ans, objects, k - 1);
      assert RollGoesOn(gate, plan, ans, objects, k - 1);
      RollsStep(gate, plan, ans, objects, k - 1);
    } else {
      assert plan[..0] == [];
    }
  }

  lemma RollsStep(gate: Gate, plan: seq<Step>, ans: nat -> Answers, objects: Objects, k: nat)
    requires WellKinded(plan) && RollsDistinct(plan) && Answering(ans) && k < |plan|
    requires var (w, v) := RunSteps(gate, plan[..k], ans, Start(objects));
             v == Continue && RollsAfter(plan, objects, k, w) && w.answered == k
    ensures var (w, v) := RunSteps(gate, plan[..k + 1], ans, Start(objects));
            && RollsAfter(plan, objects, k + 1, w) && w.answered == k + 1
            && v == if !plan[k].Roll? then Continue
                    else if StepFails(gate, plan[k], ans(k), objects) then Fail
                    else if StepWaits(gate, plan[k], objects) then Stop else Continue
  {
    hide DoStep, StepFails, StepWaits, RollsAfter, RollsDistinct, WellKinded;
    var w := RunSteps(gate, plan[..k], ans, Start(objects)).0;
    assert plan[..k + 1] == plan[..k] + [plan[k]];
    RunConcat(gate, plan[..k], [plan[k]], ans, Start(objects));
    RunOne(gate, plan[k], ans, w);
    RollsOneMore(gate, plan, ans, objects, k, w);
  }

  /** The workload steps before `n` go on, and step `n` is one that does not. */
  ghost predicate RollsEndAt(gate: Gate, plan: seq<Step>, ans: nat -> Answers, objects: Objects, n: nat) {
    && n <= |plan| && (forall i: nat :: i < n ==> RollGoesOn(gate, plan, ans, objects, i))
    && (n < |plan| ==> !RollGoesOn(gate, plan, ans, objects, n))
  }

  lemma {:induction false} SomeRollsEnd(gate: Gate, plan: seq<Step>, ans: nat -> Answers, objects: Objects, k: nat)
    returns (n: nat)
    requires k <= |plan| && forall i: nat :: i < k ==> RollGoesOn(gate, plan, ans, objects, i)
    ensures RollsEndAt(gate, plan, ans, objects, n)
    decreases |plan| - k
  {
    hide RollGoesOn;
    if k == |plan| || !RollGoesOn(gate, plan, ans, objects, k) {
      n := k;
    } else {
      n := SomeRollsEnd(gate, plan, ans, objects, k + 1);
    }
  }

  lemma RollsRunExactly(gate: Gate, plan: seq<Step>, ans: nat -> Answers, objects: Objects) returns (n: nat)
    requires WellKinded(plan) && RollsDistinct(plan) && Answering(ans)
    ensures RollsEndAt(gate, plan, ans, objects, n)
    ensures var (w, v) := RunSteps(gate, plan, ans, Start(objects));
            && RollsAfter(plan, objects, if n < |plan| then n + 1 else n, w)
            && v == if n == |plan| then Continue else if StepFails(gate, plan[n], ans(n), objects) then Fail else Stop
  {
    hide DoStep, StepFails, StepWaits, RollsAfter, RollsDistinct, WellKinded;
    n := SomeRollsEnd(gate, plan, ans, objects, 0);
    RollsPrefix(gate, plan, ans, objects, n);
    if n < |plan| {
      RollsStep(gate, plan, ans, objects, n);
      assert plan == plan[..n + 1] + plan[n + 1..];
      RunConcat(gate, plan[..n + 1], plan[n + 1..], ans, Start(objects));
    } else {
      assert plan[..n] == plan;
    }
  }

  /** The plan this pass runs. */
  function PassPlan(sha: Sha, input: PassInput): seq<Step>
    requires forall k :: k in input.iter ==> k in input.resource.nodes
  {
    PlanOf(AsRead(input), sha, Applied(input), input.iter)
  }

  /** Its workload steps are the planned workloads of the known nodes. */
  lemma StepsAndKeys(sha: Sha, input: PassInput)
    requires Enumerates(input.iter, input.resource.nodes.Keys)
    ensures WellKinded(PassPlan(sha, input)) && RollsDistinct(PassPlan(sha, input))
    ensures forall i :: 0 <= i < |PassPlan(sha, input)| && PassPlan(sha, input)[i].Roll? ==>
              exists key :: StepOf(sha, input, i, key)
    ensures forall key :: key in KnownKeys(input.resource) ==> exists i :: StepOf(sha, input, i, key)
  {
    var m := AsRead(input);
    assert m.nodes == input.resource.nodes && KnownKeys(m) == KnownKeys(input.resource) by { hide Rank, CommonFiles; }
    hide PlanOf, AsRead, Known, Planned, Applied, WellKinded, HasWorkloads, RollsRanked, RollsDistinct;
    PlanRolls(m, sha, Applied(input), input.iter);
    KnownIsNode(m);
    var plan := PassPlan(sha, input);
    forall i | 0 <= i < |plan| && plan[i].Roll? ensures exists key :: StepOf(sha, input, i, key) {
      var key := KeyOfRoll(m, plan, i);
      StepIsPlanned(sha, input, plan, i, key);
      assert StepOf(sha, input, i, key);
    }
    forall key | key in KnownKeys(input.resource) ensures exists i :: StepOf(sha, input, i, key) {
      var _, p := PlannedAt(sha, input, key);
      assert StepOf(sha, input, p, key);
    }
  }

  /** Step `i` is the workload step of the node. */
  predicate StepOf(sha: Sha, input: PassInput, i: int, key: string)
    requires forall k :: k in input.iter ==> k in input.resource.nodes
  {
    && key in input.resource.nodes && key in KnownKeys(input.resource)
    && 0 <= i < |PassPlan(sha, input)| && PassPlan(sha, input)[i].Roll?
    && PassPlan(sha, input)[i].d == Planned(sha, input, key)
  }

  /** The workload steps a pass runs before it ends, and what it logs about them. */
  lemma AnsweredPass(sha: Sha, input: PassInput, objects: Objects) returns (n: nat)
    requires Enumerates(input.iter, input.resource.nodes.Keys) && ValidSpec(input.resource) && Answering(input.ans)
    ensures var plan, gate := PassPlan(sha, input), Gate(input.resource.rollingDeploy, input.resource.generation > 1);
            var (w, out) := Pass(sha, input, objects);
            && RollsEndAt(gate, plan, input.ans, objects, n) && n <= |plan|
            && LogsRolls(plan, objects, if n < |plan| then n + 1 else n, w.log)
            && out == if n == |plan| then Completed
                      else if StepFails(gate, plan[n], input.ans(n), objects) then Failed else Waiting
  {
    hide PassPlan, Pass, RunSteps, Answering, StepOf, StepFails, WellKinded, RollsDistinct, RollGoesOn, Missing, Stale;
    var plan, gate := PassPlan(sha, input), Gate(input.resource.rollingDeploy, input.resource.generation > 1);
    StepsAndKeys(sha, input);
    n := RollsRunExactly(gate, plan, input.ans, objects);
    PassOfRun(sha, input, objects);
  }

  lemma PassOfRun(sha: Sha, input: PassInput, objects: Objects)
    requires ValidSpec(input.resource) && forall k :: k in input.iter ==> k in input.resource.nodes
    ensures var gate := Gate(input.resource.rollingDeploy, input.resource.generation > 1);
            var (x, v) := RunSteps(gate, PassPlan(sha, input), input.ans, Start(objects));
            var (w, out) := Pass(sha, input, objects);
            && w.log == x.log
            && w == (if v == Continue then Sweep(COLLECTED, ClusterLabels(input.resource), input.sa, x) else x)
            && out == match v { case Continue => Completed case Stop => Waiting case Fail => Failed }
  {
    assert GateOf(AsRead(input)) == Gate(input.resource.rollingDeploy, input.resource.generation > 1);
    hide PlanOf, AsRead, ValidSpec, Applied, RunSteps, ClusterLabels, Doomed;
  }

  ghost predicate LogsRolls(plan: seq<Step>, objects: Objects, k: nat, log: seq<Event>) {
    forall i :: 0 <= i < |plan| && plan[i].Roll? ==>
      && (Created(plan[i].d.body.id) in log <==> i < k && Missing(plan[i].d, objects))
      && (Updated(plan[i].d.body.id) in log <==> i < k && Stale(plan[i].d, objects))
  }

  /** The pass creates the workload exactly if it is missing, and updates it exactly if it is stale. */
  ghost predicate Deploys(sha: Sha, input: PassInput, objects: Objects, log: seq<Event>, key: string)
    requires key in input.resource.nodes && forall k :: k in input.iter ==> k in input.resource.nodes
  {
    var d := Planned(sha, input, key);
    && (Created(d.body.id) in log <==> Missing(d, objects))
    && (Updated(d.body.id) in log <==> Stale(d, objects))
  }

  lemma AllLogged(sha: Sha, input: PassInput, objects: Objects, log: seq<Event>)
    requires Enumerates(input.iter, input.resource.nodes.Keys)
    requires LogsRolls(PassPlan(sha, input), objects, |PassPlan(sha, input)|, log)
    ensures forall key :: key in KnownKeys(input.resource) && key in input.resource.nodes ==>
              Deploys(sha, input, objects, log, key)
  {
    StepsAndKeys(sha, input);
    hide PassPlan, Planned, Known, WellKinded, RollsDistinct;
    forall key | key in KnownKeys(input.resource) && key in input.resource.nodes
      ensures Deploys(sha, input, objects, log, key)
    {
      var i :| StepOf(sha, input, i, key);
    }
  }

  /** Without rolling deploy a pass whose reads and writes succeed always completes, whatever the stored
      statuses, and deploys every workload. */
  lemma ParallelPass(sha: Sha, input: PassInput, objects: Objects)
    requires Enumerates(input.iter, input.resource.nodes.Keys) && ValidSpec(input.resource) && Answering(input.ans)
    requires !input.resource.rollingDeploy
    ensures var (w, out) := Pass(sha, input, objects);
            && out == Completed
            && forall key :: key in KnownKeys(input.resource) && key in input.resource.nodes ==>
                 Deploys(sha, input, objects, w.log, key)
  {
    hide PassPlan, Pass, Known, ValidSpec, LogsRolls, Deploys;
    var n := AnsweredPass(sha, input, objects);
    assert n == |PassPlan(sha, input)|;
    AllLogged(sha, input, objects, Pass(sha, input, objects).0.log);
  }

  /** A pass waits only under rolling deploy. */
  lemma WaitsOnlyIfRolling(sha: Sha, input: PassInput, objects: Objects)
    requires forall k :: k in input.iter ==> k in input.resource.nodes
    requires Pass(sha, input, objects).1 == Waiting
    ensures input.resource.rollingDeploy
  {
    var m := AsRead(input);
    hide PlanOf, Applied, ValidSpec;
    NoStopUnlessRolling(GateOf(m), PlanOf(m, sha, Applied(input), input.iter), input.ans, Start(objects));
  }

  lemma {:induction false} NoStopUnlessRolling(gate: Gate, plan: seq<Step>, ans: nat -> Answers, w: World)
    ensures RunSteps(gate, plan, ans, w).1 == Stop ==> gate.rolling
  {
    if plan != [] { NoStopUnlessRolling(gate, plan[1..], ans, DoStep(gate, plan[0], ans, w).0); }
  }

  /** Some known node's planned workload is stored with another hash. */
  ghost predicate SomeStale(sha: Sha, input: PassInput, objects: Objects)
    requires forall k :: k in input.iter ==> k in input.resource.nodes
  {
    exists key :: StaleAt(sha, input, objects, key)
  }

  predicate StaleAt(sha: Sha, input: PassInput, objects: Objects, key: string)
    requires forall k :: k in input.iter ==> k in input.resource.nodes
  {
    key in KnownKeys(input.resource) && key in input.resource.nodes && Stale(Planned(sha, input, key), objects)
  }

  /** The pass updates a workload that was stored before. */
  ghost predicate SomeUpdated(sha: Sha, input: PassInput, log: seq<Event>)
    requires forall k :: k in input.iter ==> k in input.resource.nodes
  {
    exists key :: UpdatedAt(sha, input, log, key)
  }

  predicate UpdatedAt(sha: Sha, input: PassInput, log: seq<Event>, key: string)
    requires forall k :: k in input.iter ==> k in input.resource.nodes
  {
    && key in KnownKeys(input.resource) && key in input.resource.nodes
    && Updated(Planned(sha, input, key).body.id) in log
  }

  /** Under rolling deploy in the first generation, a pass whose reads and writes succeed waits exactly if
      some stored workload is stale, which is exactly if it updates one; otherwise it completes and has
      created all missing workloads, whatever the stored statuses. */
  lemma FirstGenerationPass(sha: Sha, input: PassInput, objects: Objects)
    requires Enumerates(input.iter, input.resource.nodes.Keys) && ValidSpec(input.resource) && Answering(input.ans)
    requires input.resource.rollingDeploy && input.resource.generation <= 1
    ensures var (w, out) := Pass(sha, input, objects);
            && (out == Waiting || out == Completed)
            && (out == Waiting <==> SomeStale(sha, input, objects))
            && (out == Waiting <==> SomeUpdated(sha, input, w.log))
            && (out == Completed ==>
                  forall key :: key in KnownKeys(input.resource) && key in input.resource.nodes ==>
                    Deploys(sha, input, objects, w.log, key))
  {
    hide PassPlan, Pass, Known, ValidSpec, Planned, CountsAsDeployed, ReportsFailure;
    var n := AnsweredPass(sha, input, objects);
    var plan, log := PassPlan(sha, input), Pass(sha, input, objects).0.log;
    StepsAndKeys(sha, input);
    if n < |plan| {
      var key :| StepOf(sha, input, n, key);
      assert StaleAt(sha, input, objects, key) && UpdatedAt(sha, input, log, key);
    } else {
      AllLogged(sha, input, objects, log);
      NoneStale(sha, input, objects, log);
    }
  }

  lemma NoneStale(sha: Sha, input: PassInput, objects: Objects, log: seq<Event>)
    requires Enumerates(input.iter, input.resource.nodes.Keys) && Answering(input.ans)
    requires RollsEndAt(Gate(true, false), PassPlan(sha, input), input.ans, objects, |PassPlan(sha, input)|)
    requires LogsRolls(PassPlan(sha, input), objects, |PassPlan(sha, input)|, log)
    ensures !SomeStale(sha, input, objects) && !SomeUpdated(sha, input, log)
  {
    hide PassPlan, Known, Planned, CountsAsDeployed, ReportsFailure;
    StepsAndKeys(sha, input);
    var plan := PassPlan(sha, input);
    forall key | key in KnownKeys(input.resource) && key in input.resource.nodes
      ensures !StaleAt(sha, input, objects, key) && !UpdatedAt(sha, input, log, key)
    {
      var i :| StepOf(sha, input, i, key);
      assert RollGoesOn(Gate(true, false), plan, input.ans, objects, i);
    }
  }

  /** Every known node's workload is stored up to date and fully deployed, or is a missing StatefulSet. */
  ghost predicate AllDeployed(sha: Sha, input: PassInput, objects: Objects)
    requires forall k :: k in input.iter ==> k in input.resource.nodes
  {
    forall key :: key in KnownKeys(input.resource) && key in input.resource.nodes ==>
      DeployedAt(sha, input, objects, key)
  }

  predicate DeployedAt(sha: Sha, input: PassInput, objects: Objects, key: string)
    requires key in input.resource.nodes && forall k :: k in input.iter ==> k in input.resource.nodes
  {
    var d := Planned(sha, input, key);
    !Stale(d, objects) && CountsAsDeployed(d, objects)
  }

  /** Under rolling deploy in later generations, a pass whose calls succeed completes exactly if all
      workloads count as deployed, and never fails unless a Deployment reports a failure. */
  lemma LaterGenerationPass(sha: Sha, input: PassInput, objects: Objects)
    requires Enumerates(input.iter, input.resource.nodes.Keys) && ValidSpec(input.resource) && Answering(input.ans)
    requires input.resource.rollingDeploy && input.resource.generation > 1 && forall n: nat :: !input.ans(n).checkFails
    ensures var out := Pass(sha, input, objects).1;
            && (out == Completed <==> AllDeployed(sha, input, objects))
            && (out != Completed ==> out == Waiting || out == Failed)
            && (out == Failed ==> exists key :: FailureAt(sha, input, objects, key))
  {
    hide PassPlan, Pass, Known, ValidSpec, Planned, FullyDeployed, LogsRolls;
    var n := AnsweredPass(sha, input, objects);
    var plan := PassPlan(sha, input);
    StepsAndKeys(sha, input);
    if n < |plan| {
      var key :| StepOf(sha, input, n, key);
      assert !RollGoesOn(Gate(true, true), plan, input.ans, objects, n);
      NotDeployed(plan[n], input.ans(n), objects);
      assert !DeployedAt(sha, input, objects, key);
      if StepFails(Gate(true, true), plan[n], input.ans(n), objects) { assert FailureAt(sha, input, objects, key); }
    } else {
      PastAllDeployed(sha, input, objects);
    }
  }

  predicate FailureAt(sha: Sha, input: PassInput, objects: Objects, key: string)
    requires forall k :: k in input.iter ==> k in input.resource.nodes
  {
    && key in KnownKeys(input.resource) && key in input.resource.nodes
    && var id := Planned(sha, input, key).body.id; id in objects && ReportsFailure(objects[id].status)
  }

  lemma NotDeployed(s: Step, a: Answers, objects: Objects)
    requires s.Roll? && a == Answers(false, false, false)
    requires StepFails(Gate(true, true), s, a, objects) || StepWaits(Gate(true, true), s, objects)
    ensures Stale(s.d, objects) || !CountsAsDeployed(s.d, objects)
  {
  }

  lemma PastAllDeployed(sha: Sha, input: PassInput, objects: Objects)
    requires Enumerates(input.iter, input.resource.nodes.Keys)
    requires RollsEndAt(Gate(true, true), PassPlan(sha, input), input.ans, objects, |PassPlan(sha, input)|)
    ensures AllDeployed(sha, input, objects)
  {
    hide PassPlan, Known, Planned, StepFails, CountsAsDeployed;
    StepsAndKeys(sha, input);
    forall key | key in KnownKeys(input.resource) && key in input.resource.nodes
      ensures DeployedAt(sha, input, objects, key)
    {
      var i :| StepOf(sha, input, i, key);
      assert RollGoesOn(Gate(true, true), PassPlan(sha, input), input.ans, objects, i);
    }
  }

  // Validation and report

  /** The node has no image, or no lower-case letter or digit in its key. */
  predicate BadNode(m: Druid, key: string)
    requires key in m.nodes
  {
    || (m.image == "" && m.nodes[key].image == "")
    || forall i :: 0 <= i < |key| ==> !LowerAlnum(key[i])
  }

  lemma BadNodeExactly(m: Druid, key: string)
    requires key in m.nodes
    ensures BadNode(m, key) <==> !(KeyAccepted(key) && (m.image != "" || m.nodes[key].image != ""))
  {
    KeyAcceptedExactly(key);
    hide KeyAccepted;
  }

  /** A pass refuses the resource exactly if it has such a node, and then changes nothing. */
  lemma InvalidExactly(sha: Sha, input: PassInput, objects: Objects)
    requires forall k :: k in input.iter ==> k in input.resource.nodes
    ensures var (w, out) := Pass(sha, input, objects);
            && (out == Invalid <==> exists key :: key in input.resource.nodes && BadNode(input.resource, key))
            && (out == Invalid ==> w == Start(objects))
  {
    hide PassSteps, KeyAccepted, BadNode, Sweep, ClusterLabels;
    var m := input.resource;
    forall key | key in m.nodes
      ensures BadNode(m, key) <==> !(KeyAccepted(key) && (m.image != "" || m.nodes[key].image != ""))
    {
      BadNodeExactly(m, key);
    }
    if key :| key in m.nodes && BadNode(m, key) { assert !ValidSpec(m); }
  }

  /** The report of a completed pass: per kind, what carries the cluster's labels afterwards, or nothing if
      that kind could not be listed. */
  lemma ReportsWhatIsStored(m: Druid, k: Kind, sa: SweepAnswers, w: World)
    requires k != Pvc
    ensures var after := Sweep(COLLECTED, ClusterLabels(m), sa, w).objects;
            forall id :: id in Survivors(k, ClusterLabels(m), sa, w) <==>
              && k !in sa.listFails && id in after && id.kind == k
              && "app" in after[id].labels && after[id].labels["app"] == "druid"
              && "druid_cr" in after[id].labels && after[id].labels["druid_cr"] == m.name
  {
    SweepExactly(m, sa, w);
    forall id | id in w.objects
      ensures Matches(ClusterLabels(m), w.objects[id].labels) <==>
              && "app" in w.objects[id].labels && w.objects[id].labels["app"] == "druid"
              && "druid_cr" in w.objects[id].labels && w.objects[id].labels["druid_cr"] == m.name
    {
      SelectedExactly(m, w.objects[id].labels);
    }
    hide Sweep, Matches, ClusterLabels;
  }
}
