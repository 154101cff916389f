/** One reconciliation pass: create or update every desired object in rollout order, stop where a
    rollout is in progress, and collect garbage at the end. The API server is a store of objects;
    which calls fail is an input, so every result holds for every pattern of failures. */
module Deploy {
  import opened Cluster
  import opened Basics
  import opened ExtraConfig
  import opened Ordering
  import opened SortStrings

  // The store

  datatype Condition = Condition(ctype: string, status: string)

  datatype Status =
    | StatefulSetStatus(currentRevision: string, updateRevision: string, currentReplicas: int, readyReplicas: int)
    | DeploymentStatus(conditions: seq<Condition>, readyReplicas: int, replicas: int)
    | NoStatus

  /** `stamp` is the hash annotation, `annotations` are all others. */
  datatype Object = Object(labels: Labels, annotations: Labels, content: Content, stamp: Option<string>, status: Status)

  type Objects = map<Id, Object>

  datatype Event = Created(id: Id) | Updated(id: Id)

  /** Stored objects, the names the pass has registered, what it has written and deleted, and how
      many of its steps have been answered. */
  datatype World = World(objects: Objects, names: set<Id>, log: seq<Event>, deleted: set<Id>, answered: nat)

  /** The state a pass starts from: stored objects, and nothing done yet. */
  function Start(objects: Objects): World { World(objects, {}, [], {}, 0) }

  function FreshStatus(k: Kind): Status {
    match k
    case StatefulSet => StatefulSetStatus("", "", 0, 0)
    case Deployment => DeploymentStatus([], 0, 0)
    case _ => NoStatus
  }

  /** What the API server answers to the calls of one step. */
  datatype Answers = Answers(getFails: bool, writeFails: bool, checkFails: bool)

  datatype SweepAnswers = SweepAnswers(listFails: set<Kind>, deleteFails: set<Id>)

  // Steps of a pass

  datatype Gate = Gate(rolling: bool, guarded: bool)

  datatype Step =
    | Apply(d: Desired)                // create or update, then go on
    | Roll(d: Desired, rank: nat)      // create or update a workload, then wait for it if rolling
    | Finalizers(patch: bool)          // bring the finalizer list of the resource up to date

  datatype Change = WasCreated | WasUpdated | Unchanged | Error

  datatype Verdict = Continue | Stop | Fail

  datatype Readiness = Ready | NotReady | Broken

  /** Registers the name, then creates the object, updates it if its hash annotation differs, or
      leaves it alone. */
  function CreateOrUpdate(d: Desired, ans: nat -> Answers, w0: World): (World, Change) {
    var id, a := d.body.id, ans(w0.answered);
    var w := w0.(names := w0.names + {id}, answered := w0.answered + 1);
    if a.getFails then (w, Error)
    else if id !in w.objects then
      if a.writeFails then (w, Error) else (Written(d, FreshStatus(id.kind), Created(id), w), WasCreated)
    else if w.objects[id].stamp != Some(d.stamp) then
      if a.writeFails then (w, Error) else (Written(d, w.objects[id].status, Updated(id), w), WasUpdated)
    else (w, Unchanged)
  }

  function Stored(d: Desired, status: Status): Object {
    Object(d.body.labels, d.body.annotations - {HASH}, d.body.content, Some(d.stamp), status)
  }

  function Written(d: Desired, status: Status, e: Event, w: World): World {
    w.(objects := w.objects[d.body.id := Stored(d, status)], log := w.log + [e])
  }

  /** A Deployment is judged by its first condition; none at all means not ready. */
  function ReadinessOf(st: Status): Readiness {
    match st
    case StatefulSetStatus(current, update, currentReplicas, readyReplicas) =>
      if current != update || currentReplicas != readyReplicas then NotReady else Ready
    case DeploymentStatus(conditions, readyReplicas, replicas) =>
      if conditions == [] then NotReady
      else if conditions[0].ctype == "ReplicaFailure" then Broken
      else if conditions[0].ctype == "Progressing" && conditions[0].status != "True" then NotReady
      else if readyReplicas != replicas then NotReady
      else Ready
    case NoStatus => NotReady
  }

  function DoRoll(gate: Gate, d: Desired, ans: nat -> Answers, w: World): (World, Verdict) {
    var (w1, c) := CreateOrUpdate(d, ans, w);
    if c == Error then (w1, Fail)
    else if !gate.rolling then (w1, Continue)
    else if c == WasUpdated then (w1, Stop)
    else if !gate.guarded then (w1, Continue)
    else match CheckRollout(d.body.id, ans(w.answered), w1)
         case Ready => (w1, Continue)
         case NotReady => (w1, Stop)
         case Broken => (w1, Fail)
  }

  function CheckRollout(id: Id, a: Answers, w: World): Readiness {
    if a.checkFails || id !in w.objects then Broken else ReadinessOf(w.objects[id].status)
  }

  function DoStep(gate: Gate, s: Step, ans: nat -> Answers, w: World): (World, Verdict) {
    match s
    case Apply(d) =>
      var (w1, c) := CreateOrUpdate(d, ans, w);
      (w1, if c == Error then Fail else Continue)
    case Roll(d, _) => DoRoll(gate, d, ans, w)
    case Finalizers(patch) =>
      (w.(answered := w.answered + 1), if patch && ans(w.answered).writeFails then Fail else Continue)
  }

  /** Runs steps in order until one of them ends the pass; `ans(n)` answers the n-th step. */
  function RunSteps(gate: Gate, steps: seq<Step>, ans: nat -> Answers, w: World): (World, Verdict) {
    if steps == [] then (w, Continue) else
      var (w1, v) := DoStep(gate, steps[0], ans, w);
      if v != Continue then (w1, v) else RunSteps(gate, steps[1..], ans, w1)
  }

  lemma {:induction false} RunConcat(gate: Gate, a: seq<Step>, b: seq<Step>, ans: nat -> Answers, w: World)
    ensures var (w1, v) := RunSteps(gate, a, ans, w);
            RunSteps(gate, a + b, ans, w) == if v != Continue then (w1, v) else RunSteps(gate, b, ans, w1)
  {
    if a == [] {
      assert a + b == b;
    } else {
      var (w1, v) := DoStep(gate, a[0], ans, w);
      assert (a + b)[1..] == a[1..] + b;
      RunConcat(gate, a[1..], b, ans, w1);
    }
  }

  lemma RunOne(gate: Gate, s: Step, ans: nat -> Answers, w: World)
    ensures RunSteps(gate, [s], ans, w) == DoStep(gate, s, ans, w)
  {
    var (w1, v) := DoStep(gate, s, ans, w);
    assert [s][1..] == [];
  }

  // The steps of a pass

  function ServiceSteps(m: Druid, sha: Sha, key: string, spec: NodeSpec, services: seq<ServiceSpec>): seq<Step> {
    seq(|services|, i requires 0 <= i < |services| => Apply(Stamped(sha, NodeService(m, key, spec, services[i]))))
  }

  lemma ServiceStepsSplit(m: Druid, sha: Sha, key: string, spec: NodeSpec, services: seq<ServiceSpec>)
    requires services != []
    ensures ServiceSteps(m, sha, key, spec, services) ==
            [Apply(Stamped(sha, NodeService(m, key, spec, services[0])))] +
            ServiceSteps(m, sha, key, spec, services[1..])
  {
  }

  function OptionalStep(sha: Sha, b: Option<Body>): seq<Step> {
    if b.None? then [] else [Apply(Stamped(sha, b.value))]
  }

  function IngressOf(m: Druid, key: string, spec: NodeSpec): Option<Body> {
    if spec.ingress.None? then None else Some(NodeIngress(m, key, spec.ingress.value))
  }

  function PdbOf(m: Druid, key: string, spec: NodeSpec): Option<Body> {
    if spec.pdb.None? then None else Some(NodePdb(m, key, spec, spec.pdb.value))
  }

  function HpaOf(m: Druid, key: string, spec: NodeSpec): Option<Body> {
    if spec.hpa.None? then None else Some(NodeHpa(m, key, spec.hpa.value))
  }

  function RollStep(m: Druid, sha: Sha, key: string, spec: NodeSpec): Step {
    Roll(Stamped(sha, Workload(m, sha, key, spec)), Rank(spec.nodeType))
  }

  function ExtraSteps(m: Druid, sha: Sha, key: string, spec: NodeSpec): seq<Step> {
    OptionalStep(sha, IngressOf(m, key, spec)) +
    (OptionalStep(sha, PdbOf(m, key, spec)) + OptionalStep(sha, HpaOf(m, key, spec)))
  }

  /** Configuration and services before the workload, the rest after it. */
  function NodeSteps(m: Druid, sha: Sha, key: string, spec: NodeSpec): seq<Step> {
    [Apply(Stamped(sha, NodeConfig(m, key, spec)))] +
    (ServiceSteps(m, sha, key, spec, ServicesOf(m, spec)) +
     ([RollStep(m, sha, key, spec)] + ExtraSteps(m, sha, key, spec)))
  }

  // What visiting a node leaves in the resource

  function Filled(given: Option<Labels>, ls: Labels): Option<Labels> {
    if given.None? then None else Some(given.value + ls)
  }

  /** Building a node's service fills the given maps of the service in place. */
  function TouchedService(m: Druid, sha: Sha, key: string, spec: NodeSpec, svc: ServiceSpec): ServiceSpec {
    var ls := NodeLabels(m, key, spec);
    svc.(labels := Filled(svc.labels, ls), selector := Filled(svc.selector, ls),
         annotations := Filled(svc.annotations, map[HASH := sha(NodeService(m, key, spec, svc))]))
  }

  function TouchedServices(m: Druid, sha: Sha, key: string, spec: NodeSpec): seq<ServiceSpec> {
    if spec.services.Some? then m.services else
      seq(|m.services|, i requires 0 <= i < |m.services| => TouchedService(m, sha, key, spec, m.services[i]))
  }

  /** A cluster-level probe without a port keeps the port of the first node that uses it. */
  function TouchedProbe(own: Option<Probe>, cluster: Option<Probe>, port: int): Option<Probe> {
    if own.Some? then cluster else WithPort(cluster, port)
  }

  function TouchedProbes(m: Druid, spec: NodeSpec): Probes {
    Probes(TouchedProbe(spec.probes.liveness, m.probes.liveness, spec.port),
           TouchedProbe(spec.probes.readiness, m.probes.readiness, spec.port),
           TouchedProbe(spec.probes.startup, m.probes.startup, spec.port))
  }

  /** The resource in memory after the node was visited. */
  function Visited(m: Druid, sha: Sha, key: string, spec: NodeSpec): (r: Druid)
    ensures r.nodes == m.nodes && GateOf(r) == GateOf(m)
  {
    m.(services := TouchedServices(m, sha, key, spec), probes := TouchedProbes(m, spec),
       annotations := Filled(m.annotations, spec.annotations[HASH := sha(Workload(m, sha, key, spec))]))
  }

  /** The steps of the nodes in turn, each built from the resource as the earlier ones left it. */
  function VisitsPlan(m: Druid, sha: Sha, keys: seq<string>): seq<Step>
    requires forall k :: k in keys ==> k in m.nodes
    decreases |keys|
  {
    if keys == [] then [] else
      var key, spec := keys[0], m.nodes[keys[0]];
      NodeSteps(m, sha, key, spec) + VisitsPlan(Visited(m, sha, key, spec), sha, keys[1..])
  }

  /** The common configuration map as read for it, then the finalizer list. */
  function Preamble(m: Druid, sha: Sha, applied: Files): seq<Step> {
    [Apply(Stamped(sha, CommonConfig(m.(commonConfig := applied)))), Finalizers(m.finalizersChange)]
  }

  /** The plan for one iteration order of the node map. */
  function PlanOf(m: Druid, sha: Sha, applied: Files, iter: seq<string>): seq<Step>
    requires forall k :: k in iter ==> k in m.nodes
  {
    Preamble(m, sha, applied) + VisitsPlan(m, sha, Ordered(m.nodes, iter))
  }

  function GateOf(m: Druid): Gate { Gate(m.rollingDeploy, m.generation > 1) }

  function StepId(s: Step): set<Id> {
    if s.Finalizers? then {} else {s.d.body.id}
  }

  function StepIds(steps: seq<Step>): (ids: set<Id>)
    ensures forall id :: id in ids <==> exists i :: 0 <= i < |steps| && id in StepId(steps[i])
  {
    if steps == [] then {} else
      var n := |steps| - 1;
      var front := StepIds(steps[..n]);
      assert forall i :: 0 <= i < n ==> steps[..n][i] == steps[i];
      front + StepId(steps[n])
  }

  lemma StepIdsConcat(a: seq<Step>, b: seq<Step>)
    ensures StepIds(a + b) == StepIds(a) + StepIds(b)
  {
    var c := a + b;
    forall id ensures id in StepIds(c) <==> id in StepIds(a) || id in StepIds(b) {
      if id in StepIds(a) {
        var i :| 0 <= i < |a| && id in StepId(a[i]);
        assert id in StepId(c[i]);
      }
      if id in StepIds(b) {
        var i :| 0 <= i < |b| && id in StepId(b[i]);
        assert id in StepId(c[|a| + i]);
      }
    }
  }

  // Garbage collection

  /** Stored objects of one kind that carry the selector's labels. */
  function Selected(k: Kind, selector: Labels, objects: Objects): set<Id> {
    set id | id in objects && id.kind == k && Matches(selector, objects[id].labels)
  }

  /** Selected objects that are not wanted and can be listed and deleted. */
  function Doomed(kinds: seq<Kind>, selector: Labels, sa: SweepAnswers, w: World): set<Id> {
    set id | id in w.objects && id.kind in kinds && id in Selected(id.kind, selector, w.objects)
             && id !in w.names && id.kind !in sa.listFails && id !in sa.deleteFails
  }

  function Sweep(kinds: seq<Kind>, selector: Labels, sa: SweepAnswers, w: World): World {
    var doomed := Doomed(kinds, selector, sa, w);
    w.(objects := w.objects - doomed, deleted := w.deleted + doomed)
  }

  /** Objects of one kind that the sweep lists and leaves in place. */
  function Survivors(k: Kind, selector: Labels, sa: SweepAnswers, w: World): set<Id> {
    if k in sa.listFails then {} else
      set id | id in Selected(k, selector, w.objects) && (id in w.names || id in sa.deleteFails)
  }

  ghost predicate ListsNames(names: seq<string>, k: Kind, ids: set<Id>) {
    && NoRepeats(names)
    && (forall x :: x in names <==> Id(k, x) in ids)
  }

  /** For every kind, the surviving names, sorted and without repeats. */
  ghost predicate ReportOk(report: map<Kind, seq<string>>, kinds: seq<Kind>, selector: Labels, sa: SweepAnswers,
        w: World)
  {
    && (forall k :: k in kinds <==> k in report)
    && (forall k :: k in kinds ==> Sorted(report[k]) && ListsNames(report[k], k, Survivors(k, selector, sa, w)))
  }

  lemma SweepOneMore(kinds: seq<Kind>, k: Kind, selector: Labels, sa: SweepAnswers, w: World)
    requires k !in kinds
    ensures Sweep(kinds + [k], selector, sa, w) == Sweep([k], selector, sa, Sweep(kinds, selector, sa, w))
    ensures Survivors(k, selector, sa, w) == Survivors(k, selector, sa, Sweep(kinds, selector, sa, w))
  {
    var w1 := Sweep(kinds, selector, sa, w);
    OtherKindUntouched(kinds, k, selector, sa, w);
    DoomedOneMore(kinds, k, selector, sa, w);
    hide Doomed, Selected;
    assert w.objects - (Doomed(kinds, selector, sa, w) + Doomed([k], selector, sa, w)) ==
           w1.objects - Doomed([k], selector, sa, w);
  }

  lemma OtherKindUntouched(kinds: seq<Kind>, k: Kind, selector: Labels, sa: SweepAnswers, w: World)
    requires k !in kinds
    ensures var w1 := Sweep(kinds, selector, sa, w);
            && Selected(k, selector, w1.objects) == Selected(k, selector, w.objects)
            && Doomed([k], selector, sa, w1) == Doomed([k], selector, sa, w)
  {
    hide Matches;
    var w1 := Sweep(kinds, selector, sa, w);
    assert Selected(k, selector, w1.objects) == Selected(k, selector, w.objects);
  }

  lemma DoomedOneMore(kinds: seq<Kind>, k: Kind, selector: Labels, sa: SweepAnswers, w: World)
    ensures Doomed(kinds + [k], selector, sa, w) == Doomed(kinds, selector, sa, w) + Doomed([k], selector, sa, w)
  {
    hide Selected;
  }

  /** Telling a listing of one kind apart by name is sweeping that kind. */
  lemma SweptOneKind(k: Kind, selector: Labels, sa: SweepAnswers, w: World, listed: seq<string>, left: seq<string>,
        gone: set<Id>)
    requires k !in sa.listFails && ListsNames(listed, k, Selected(k, selector, w.objects)) && NoRepeats(left)
    requires forall x :: x in left <==> x in listed && (Id(k, x) in w.names || Id(k, x) in sa.deleteFails)
    requires forall id :: id in gone <==> id.kind == k && id.name in listed && id !in w.names && id !in sa.deleteFails
    ensures gone == Doomed([k], selector, sa, w)
    ensures ListsNames(left, k, Survivors(k, selector, sa, w))
  {
    hide Matches;
    forall id ensures id in gone <==> id in Doomed([k], selector, sa, w) {
      assert id.kind == k ==> id == Id(k, id.name);
    }
  }

  // The pass as a function

  datatype Outcome = Completed | Waiting | Failed | Invalid

  /** What the two readings of the referenced configuration maps find: the first is hashed into the
      workloads, the second is applied. */
  datatype Readings = Readings(hashed: map<string, Files>, applied: map<string, Files>)

  /** What a pass is given: the resource, what the readings find, the map iteration and the API server's
      answers. */
  datatype PassInput = PassInput(
    resource: Druid, readings: Readings, iter: seq<string>, ans: nat -> Answers, sa: SweepAnswers)

  /** The resource as the pass reads it. */
  function AsRead(input: PassInput): Druid { Seen(input.resource, input.readings.hashed) }

  /** The common configuration as the pass applies it. */
  function Applied(input: PassInput): Files { CommonFiles(input.resource, input.readings.applied) }

  /** The steps of a pass over `objects`. */
  function PassSteps(sha: Sha, input: PassInput, objects: Objects): (World, Verdict)
    requires forall k :: k in input.iter ==> k in input.resource.nodes
  {
    var m := AsRead(input);
    RunSteps(GateOf(m), PlanOf(m, sha, Applied(input), input.iter), input.ans, Start(objects))
  }

  /** How a pass ends after its steps. */
  function Finished(selector: Labels, sa: SweepAnswers, steps: (World, Verdict)): (World, Outcome) {
    match steps.1
    case Fail => (steps.0, Failed)
    case Stop => (steps.0, Waiting)
    case Continue => (Sweep(COLLECTED, selector, sa, steps.0), Completed)
  }

  function Pass(sha: Sha, input: PassInput, objects: Objects): (World, Outcome)
    requires forall k :: k in input.iter ==> k in input.resource.nodes
  {
    if !ValidSpec(input.resource) then (Start(objects), Invalid)
    else Finished(ClusterLabels(input.resource), input.sa, PassSteps(sha, input, objects))
  }

  lemma NoSteps(gate: Gate, m: Druid, sha: Sha, ans: nat -> Answers, w: World)
    ensures RunSteps(gate, VisitsPlan(m, sha, []), ans, w) == (w, Continue)
  {
  }

  // The pass as the operator runs it

  class ApiServer {
    var objects: Objects
    var names: set<Id>
    var log: seq<Event>
    var deleted: set<Id>
    var answered: nat

    function Now(): World
      reads this
    {
      World(objects, names, log, deleted, answered)
    }

    method CreateOrUpdateAsNeeded(d: Desired, ans: nat -> Answers) returns (c: Change)
      modifies this
      ensures (Now(), c) == CreateOrUpdate(d, ans, old(Now()))
      ensures deleted == old(deleted) && names == old(names) + {d.body.id}
      ensures if c == Error then objects == old(objects)
              else d.body.id in objects && objects[d.body.id].stamp == Some(d.stamp)
      ensures objects - {d.body.id} == old(objects) - {d.body.id}
    {
      var id, a := d.body.id, ans(answered);
      names, answered := names + {id}, answered + 1;
      if a.getFails { return Error; }
      if id !in objects {
        if a.writeFails { return Error; }
        objects := objects[id := Stored(d, FreshStatus(id.kind))];
        log := log + [Created(id)];
        return WasCreated;
      }
      var prev := objects[id];
      if prev.stamp != Some(d.stamp) {
        if a.writeFails { return Error; }
        objects := objects[id := Stored(d, prev.status)];
        log := log + [Updated(id)];
        return WasUpdated;
      }
      return Unchanged;
    }

    method IsObjFullyDeployed(id: Id, a: Answers) returns (r: Readiness)
      ensures r == CheckRollout(id, a, Now())
      ensures !a.checkFails && id in objects && objects[id].status.StatefulSetStatus? ==>
                var st := objects[id].status;
                if st.currentRevision == st.updateRevision && st.currentReplicas == st.readyReplicas
                then r == Ready else r == NotReady
    {
      if a.checkFails || id !in objects { return Broken; }
      match objects[id].status {
        case StatefulSetStatus(current, update, currentReplicas, readyReplicas) =>
          if current != update { return NotReady; }
          if currentReplicas != readyReplicas { return NotReady; }
          return Ready;
        case DeploymentStatus(conditions, readyReplicas, replicas) =>
          for i := 0 to |conditions|
            invariant i == 0
          {
            if conditions[i].ctype == "ReplicaFailure" { return Broken; }
            if (conditions[i].ctype == "Progressing" && conditions[i].status != "True") || readyReplicas != replicas {
              return NotReady;
            }
            return Ready;
          }
          return NotReady;
        case NoStatus =>
          return NotReady;
      }
    }

    method DeployWorkload(gate: Gate, d: Desired, ans: nat -> Answers) returns (v: Verdict)
      modifies this
      ensures (Now(), v) == DoRoll(gate, d, ans, old(Now()))
      ensures v == Continue ==> d.body.id in objects && objects[d.body.id].stamp == Some(d.stamp)
      ensures v == Continue && gate == Gate(true, true) ==> ReadinessOf(objects[d.body.id].status) == Ready
      ensures v == Stop ==> gate.rolling
      ensures deleted == old(deleted) && old(names) <= names
    {
      var a := ans(answered);
      var c := CreateOrUpdateAsNeeded(d, ans);
      if c == Error { return Fail; }
      if gate.rolling {
        if c == WasUpdated { return Stop; }
        if gate.guarded {
          var r := IsObjFullyDeployed(d.body.id, a);
          match r {
            case Ready =>
            case NotReady => return Stop;
            case Broken => return Fail;
          }
        }
      }
      return Continue;
    }

    method ApplyOptional(gate: Gate, sha: Sha, b: Option<Body>, ans: nat -> Answers) returns (v: Verdict)
      modifies this
      ensures (Now(), v) == RunSteps(gate, OptionalStep(sha, b), ans, old(Now()))
      ensures deleted == old(deleted) && old(names) <= names
    {
      v := Continue;
      if b.Some? {
        var d := Stamped(sha, b.value);
        RunOne(gate, Apply(d), ans, Now());
        var c := CreateOrUpdateAsNeeded(d, ans);
        if c == Error { v := Fail; }
      }
    }

    method ApplyServices(m: Druid, sha: Sha, key: string, spec: NodeSpec, ans: nat -> Answers)
      returns (v: Verdict, firstServiceName: string)
      modifies this
      ensures (Now(), v) == RunSteps(GateOf(m), ServiceSteps(m, sha, key, spec, ServicesOf(m, spec)), ans, old(Now()))
      ensures v == Continue ==> firstServiceName == FirstServiceName(m, key, spec)
      ensures deleted == old(deleted) && old(names) <= names
    {
      var gate := GateOf(m);
      var services := ServicesOf(m, spec);
      ghost var whole := RunSteps(gate, ServiceSteps(m, sha, key, spec, services), ans, Now());
      v, firstServiceName := Continue, "";
      assert services[0..] == services;
      for i := 0 to |services|
        invariant v == Continue
        invariant RunSteps(gate, ServiceSteps(m, sha, key, spec, services[i..]), ans, Now()) == whole
        invariant firstServiceName == if i == 0 then "" else FirstServiceName(m, key, spec)
        invariant deleted == old(deleted) && old(names) <= names
      {
        var d := Stamped(sha, NodeService(m, key, spec, services[i]));
        ServiceStepsSplit(m, sha, key, spec, services[i..]);
        assert services[i..][1..] == services[i + 1..];
        var c := CreateOrUpdateAsNeeded(d, ans);
        if c == Error { v := Fail; return; }
        if firstServiceName == "" { firstServiceName := d.body.id.name; }
      }
    }

    method ApplyExtras(m: Druid, sha: Sha, key: string, spec: NodeSpec, ans: nat -> Answers) returns (v: Verdict)
      modifies this
      ensures (Now(), v) == RunSteps(GateOf(m), ExtraSteps(m, sha, key, spec), ans, old(Now()))
      ensures deleted == old(deleted) && old(names) <= names
    {
      var gate := GateOf(m);
      var ingress, pdb, hpa := IngressOf(m, key, spec), PdbOf(m, key, spec), HpaOf(m, key, spec);
      ghost var i, p, h := OptionalStep(sha, ingress), OptionalStep(sha, pdb), OptionalStep(sha, hpa);
      RunConcat(gate, i, p + h, ans, Now());
      v := ApplyOptional(gate, sha, ingress, ans);
      if v != Continue { return; }
      RunConcat(gate, p, h, ans, Now());
      v := ApplyOptional(gate, sha, pdb, ans);
      if v != Continue { return; }
      v := ApplyOptional(gate, sha, hpa, ans);
    }

    method DeployNode(m: Druid, sha: Sha, key: string, spec: NodeSpec, ans: nat -> Answers) returns (v: Verdict)
      modifies this
      ensures (Now(), v) == RunSteps(GateOf(m), NodeSteps(m, sha, key, spec), ans, old(Now()))
      ensures deleted == old(deleted) && old(names) <= names
    {
      var gate := GateOf(m);
      var config := Stamped(sha, NodeConfig(m, key, spec));
      ghost var services := ServiceSteps(m, sha, key, spec, ServicesOf(m, spec));
      ghost var roll, extras := RollStep(m, sha, key, spec), ExtraSteps(m, sha, key, spec);
      RunConcat(gate, [Apply(config)], services + ([roll] + extras), ans, Now());
      RunOne(gate, Apply(config), ans, Now());
      var c := CreateOrUpdateAsNeeded(config, ans);
      if c == Error { v := Fail; return; }

      RunConcat(gate, services, [roll] + extras, ans, Now());
      var firstServiceName;
      v, firstServiceName := ApplyServices(m, sha, key, spec, ans);
      if v != Continue { return; }

      RunConcat(gate, [roll], extras, ans, Now());
      RunOne(gate, roll, ans, Now());
      var env := WorkloadEnv(m, sha, key, spec);
      var content := PodSpec(spec.podBase, env, firstServiceName, WorkloadProbes(m, spec));
      var annotations := OrEmpty(m.annotations) + spec.annotations;
      var workload := Body(WorkloadId(m, key, spec), NodeLabels(m, key, spec), annotations, content);
      v := DeployWorkload(gate, Stamped(sha, workload), ans);
      if v != Continue { return; }

      v := ApplyExtras(m, sha, key, spec, ans);
    }

    method List(k: Kind, selector: Labels) returns (found: seq<string>)
      ensures ListsNames(found, k, Selected(k, selector, objects))
    {
      found := [];
      var todo := Selected(k, selector, objects);
      ghost var all := todo;
      while todo != {}
        invariant todo <= all
        invariant ListsNames(found, k, all - todo)
        decreases |todo|
      {
        var id :| id in todo;
        assert id == Id(k, id.name);
        assert id.name !in found;
        found := found + [id.name];
        todo := todo - {id};
      }
    }

    method DeleteUnusedResources(k: Kind, selector: Labels, sa: SweepAnswers) returns (survivors: seq<string>)
      modifies this`objects, this`deleted
      ensures Now() == Sweep([k], selector, sa, old(Now()))
      ensures ListsNames(survivors, k, Survivors(k, selector, sa, old(Now())))
    {
      hide Matches, Selected;
      survivors := [];
      ghost var w := Now();
      if k in sa.listFails { return; }
      var listed := List(k, selector);
      ghost var gone: set<Id> := {};
      for i := 0 to |listed|
        invariant forall x :: x in survivors <==> x in listed[..i] && (Id(k, x) in names || Id(k, x) in sa.deleteFails)
        invariant NoRepeats(survivors)
        invariant forall id :: id in gone <==>
                  id.kind == k && id.name in listed[..i] && id !in names && id !in sa.deleteFails
        invariant objects == old(objects) - gone && deleted == old(deleted) + gone
      {
        var id := Id(k, listed[i]);
        assert listed[..i + 1] == listed[..i] + [listed[i]];
        assert listed[i] !in listed[..i];
        if id !in names {
          if id in sa.deleteFails {
            survivors := survivors + [id.name];
          } else {
            objects := objects - {id};
            deleted := deleted + {id};
            gone := gone + {id};
          }
        } else {
          survivors := survivors + [id.name];
        }
      }
      assert listed[..|listed|] == listed;
      SweptOneKind(k, selector, sa, w, listed, survivors, gone);
    }

    /** The seven sweeps of a completed pass, each followed by sorting the names it leaves. */
    method CollectGarbage(selector: Labels, sa: SweepAnswers) returns (report: map<Kind, seq<string>>)
      modifies this`objects, this`deleted
      ensures Now() == Sweep(COLLECTED, selector, sa, old(Now()))
      ensures deleted - old(deleted) !! names
      ensures ReportOk(report, COLLECTED, selector, sa, old(Now()))
    {
      report := CollectKinds(COLLECTED, selector, sa);
    }

    method CollectKinds(kinds: seq<Kind>, selector: Labels, sa: SweepAnswers) returns (report: map<Kind, seq<string>>)
      requires NoRepeats(kinds)
      modifies this`objects, this`deleted
      ensures Now() == Sweep(kinds, selector, sa, old(Now()))
      ensures ReportOk(report, kinds, selector, sa, old(Now()))
    {
      report := map[];
      ghost var w := Now();
      for i := 0 to |kinds|
        invariant Now() == Sweep(kinds[..i], selector, sa, w)
        invariant ReportOk(report, kinds[..i], selector, sa, w)
      {
        var k := kinds[i];
        assert kinds[..i + 1] == kinds[..i] + [k] && k !in kinds[..i];
        SweepOneMore(kinds[..i], k, selector, sa, w);
        var survivors := DeleteUnusedResources(k, selector, sa);
        SortKeepsNames(survivors);
        report := report[k := Sort(survivors)];
      }
      assert kinds[..|kinds|] == kinds;
    }

    /** The common configuration map, then the finalizer list. */
    method Prepare(m: Druid, sha: Sha, applied: Files, ans: nat -> Answers) returns (v: Verdict)
      modifies this
      ensures (Now(), v) == RunSteps(GateOf(m), Preamble(m, sha, applied), ans, old(Now()))
      ensures deleted == old(deleted) && old(names) <= names
    {
      var common := Stamped(sha, CommonConfig(m.(commonConfig := applied)));
      RunConcat(GateOf(m), [Apply(common)], [Finalizers(m.finalizersChange)], ans, Now());
      RunOne(GateOf(m), Apply(common), ans, Now());
      var c := CreateOrUpdateAsNeeded(common, ans);
      if c == Error { return Fail; }
      RunOne(GateOf(m), Finalizers(m.finalizersChange), ans, Now());
      var patchFails := ans(answered).writeFails;
      answered := answered + 1;
      return if m.finalizersChange && patchFails then Fail else Continue;
    }

    /** The loop over the node groups; it returns as soon as one of them does. */
    method DeployNodes(m: Druid, sha: Sha, groups: seq<(string, NodeSpec)>, ghost order: seq<string>,
          ans: nat -> Answers)
      returns (v: Verdict)
      requires forall k :: k in order ==> k in m.nodes
      requires groups == WithSpecs(m.nodes, order)
      modifies this
      ensures (Now(), v) == RunSteps(GateOf(m), VisitsPlan(m, sha, order), ans, old(Now()))
      ensures deleted == old(deleted) && old(names) <= names
    {
      hide NodeSteps, RunSteps, TouchedServices, TouchedProbes, Workload;
      ghost var whole := RunSteps(GateOf(m), VisitsPlan(m, sha, order), ans, Now());
      v := Continue;
      var current := m;
      assert order[0..] == order;
      for i := 0 to |groups|
        invariant v == Continue && current.nodes == m.nodes && GateOf(current) == GateOf(m)
        invariant deleted == old(deleted) && old(names) <= names
        invariant RunSteps(GateOf(m), VisitsPlan(current, sha, order[i..]), ans, Now()) == whole
      {
        var (key, spec) := groups[i];
        assert order[i..][0] == order[i] == key && order[i..][1..] == order[i + 1..];
        var next := Visited(current, sha, key, spec);
        RunConcat(GateOf(m), NodeSteps(current, sha, key, spec), VisitsPlan(next, sha, order[i + 1..]), ans, Now());
        v := DeployNode(current, sha, key, spec, ans);
        if v != Continue { return; }
        current := next;
      }
      NoSteps(GateOf(m), current, sha, ans, Now());
    }

    /** One reconciliation of a resource that is not being deleted, with volume expansion and orphan
        collection switched off. The referenced configuration maps are read twice. */
    method DeployDruidCluster(sha: Sha, input: PassInput)
      returns (outcome: Outcome, report: map<Kind, seq<string>>)
      requires Enumerates(input.iter, input.resource.nodes.Keys)
      modifies this
      ensures (Now(), outcome) == Pass(sha, input, old(objects))
      ensures deleted !! names && (outcome != Completed ==> deleted == {})
      ensures outcome == Completed ==>
                var w := PassSteps(sha, input, old(objects)).0;
                ReportOk(report, COLLECTED, ClusterLabels(input.resource), input.sa, w)
    {
      hide RunSteps, VisitsPlan, Preamble, ReportOk, Sweep, ValidSpec, Overlaid;
      var m := input.resource;
      names, log, deleted, answered := {}, [], {}, 0;
      report := map[];
      if !ValidSpec(m) { outcome := Invalid; return; }
      var groups := GetNodeSpecsByOrder(m.nodes, input.iter);
      ghost var order := Ordered(m.nodes, input.iter);
      var hashed := AddExtraCommonConfig(m.commonFiles, m.extraCommonConfig, input.readings.hashed);
      var seen := m.(commonConfig := hashed);
      var applied := AddExtraCommonConfig(m.commonFiles, m.extraCommonConfig, input.readings.applied);
      RunConcat(GateOf(seen), Preamble(seen, sha, applied), VisitsPlan(seen, sha, order), input.ans, Now());
      var v := Prepare(seen, sha, applied, input.ans);
      if v == Continue {
        v := DeployNodes(seen, sha, groups, order, input.ans);
      }
      match v {
        case Stop => outcome := Waiting;
        case Fail => outcome := Failed;
        case Continue =>
          outcome := Completed;
          report := CollectGarbage(ClusterLabels(m), input.sa);
      }
    }
  }
}
