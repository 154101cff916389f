/** The objects a pass applies, field by field from the resource. */
module NodeObjects {
  import opened Basics
  import opened Cluster
  import opened Deploy
  import opened ExtraConfig
  import opened Ordering

  /** `r` is `base` with `over` written over it. */
  ghost predicate Overlays(r: Labels, base: Labels, over: Labels) {
    && (forall l :: l in r <==> l in base || l in over)
    && (forall l :: l in r ==> r[l] == if l in over then over[l] else base[l])
  }

  /** The operator's own four labels; besides them the node's pod labels, and else the cluster's. */
  ghost predicate HasNodeLabels(m: Druid, key: string, spec: NodeSpec, ls: Labels) {
    var own := map["app" := "druid", "druid_cr" := m.name, "nodeSpecUniqueStr" := "druid-" + m.name + "-" + key,
                   "component" := spec.nodeType];
    && (forall l :: l in ls <==> l in own || l in spec.podLabels || l in m.podLabels)
    && (forall l :: l in ls ==> ls[l] == if l in own then own[l]
                                         else if l in spec.podLabels then spec.podLabels[l] else m.podLabels[l])
  }

  ghost predicate HasClusterLabels(m: Druid, ls: Labels) { ls == map["app" := "druid", "druid_cr" := m.name] }

  ghost predicate DescribesConfig(m: Druid, key: string, spec: NodeSpec, b: Body) {
    && b.id == Id(ConfigMap, "druid-" + m.name + "-" + key + "-config") && HasNodeLabels(m, key, spec, b.labels)
    && b.annotations == map[] && b.content == ConfigData(spec.config)
  }

  /** The name a service ends up with. */
  function FinalName(m: Druid, key: string, svc: ServiceSpec): string {
    if svc.name.Plain? then "druid-" + m.name + "-" + key
    else svc.name.prefix + ("druid-" + m.name + "-" + key) + svc.name.suffix
  }

  function GivenLabels(given: Option<Labels>): Labels { if given.Some? then given.value else map[] }

  /** Labels and selector are the given ones with the node's labels written over them; without ports the
      service gets the node's. */
  ghost predicate DescribesService(m: Druid, key: string, spec: NodeSpec, svc: ServiceSpec, b: Body) {
    exists ls :: && HasNodeLabels(m, key, spec, ls)
                 && b.id == Id(Service, FinalName(m, key, svc)) && Overlays(b.labels, GivenLabels(svc.labels), ls)
                 && b.annotations == GivenLabels(svc.annotations)
                 && b.content.ServiceSpecOf? && Overlays(b.content.selector, GivenLabels(svc.selector), ls)
                 && b.content.ports == (if svc.ports.Some? then Given(svc.ports.value) else Default(spec.port))
                 && b.content.text == svc.text
  }

  /** The node's probe if it has one, else the cluster's; the node's port where an HTTP probe names none. */
  predicate ProbeFor(own: Option<Probe>, cluster: Option<Probe>, port: int, p: Option<Probe>) {
    var base := if own.Some? then own else cluster;
    p == if base.Some? && base.value.Http? && base.value.port == 0 then Some(base.value.(port := port)) else base
  }

  function NodeServices(m: Druid, spec: NodeSpec): seq<ServiceSpec> {
    match spec.services
    case Some(services) => services
    case None => m.services
  }

  /** The node's annotations win over the cluster's; the node's environment replaces the cluster's, and gets
      the joined hashes of both configuration maps appended; the workload is served by the first service. */
  ghost predicate DescribesWorkload(m: Druid, sha: Sha, key: string, spec: NodeSpec, b: Body) {
    && b.id == Id(if spec.kind == "Deployment" then Deployment else StatefulSet, "druid-" + m.name + "-" + key)
    && HasNodeLabels(m, key, spec, b.labels) && Overlays(b.annotations, GivenLabels(m.annotations), spec.annotations)
    && b.content.PodSpec? && b.content.base == spec.podBase
    && (exists common, config :: && DescribesCommon(m, m.commonConfig, common) && DescribesConfig(m, key, spec, config)
                                 && b.content.env == (if spec.env.Some? then spec.env.value else m.env)
                                                     + [("configMapSHA", sha(common) + "-" + sha(config))])
    && b.content.serviceName ==
       (if NodeServices(m, spec) == [] then "" else FinalName(m, key, NodeServices(m, spec)[0]))
    && ProbeFor(spec.probes.liveness, m.probes.liveness, spec.port, b.content.probes.liveness)
    && ProbeFor(spec.probes.readiness, m.probes.readiness, spec.port, b.content.probes.readiness)
    && ProbeFor(spec.probes.startup, m.probes.startup, spec.port, b.content.probes.startup)
  }

  ghost predicate DescribesCommon(m: Druid, files: Files, b: Body) {
    && b.id == Id(ConfigMap, m.name + "-druid-common-config") && HasClusterLabels(m, b.labels)
    && b.annotations == map[] && b.content == ConfigData(files)
  }

  ghost predicate DescribesIngress(m: Druid, key: string, text: string, b: Body) {
    && b.id == Id(Ingress, "druid-" + m.name + "-" + key) && HasClusterLabels(m, b.labels)
    && b.annotations == map[] && b.content == Text(text)
  }

  ghost predicate DescribesPdb(m: Druid, key: string, spec: NodeSpec, text: string, b: Body) {
    && b.id == Id(Pdb, "druid-" + m.name + "-" + key) && HasNodeLabels(m, key, spec, b.labels)
    && b.annotations == map[] && b.content == Text(text)
  }

  ghost predicate DescribesHpa(m: Druid, key: string, text: string, b: Body) {
    && b.id == Id(Hpa, "druid-" + m.name + "-" + key) && HasClusterLabels(m, b.labels)
    && b.annotations == map[] && b.content == Text(text)
  }

  lemma LabelsExactly(m: Druid, key: string, spec: NodeSpec)
    ensures HasNodeLabels(m, key, spec, NodeLabels(m, key, spec))
  {
  }

  lemma ConfigExactly(m: Druid, key: string, spec: NodeSpec)
    ensures DescribesConfig(m, key, spec, NodeConfig(m, key, spec))
    ensures DescribesCommon(m, m.commonConfig, CommonConfig(m))
  {
    LabelsExactly(m, key, spec);
    hide HasNodeLabels, NodeLabels;
  }

  lemma OverlayExactly(base: Labels, over: Labels)
    ensures Overlays(base + over, base, over)
  {
  }

  lemma ServiceExactly(m: Druid, key: string, spec: NodeSpec, svc: ServiceSpec)
    ensures DescribesService(m, key, spec, svc, NodeService(m, key, spec, svc))
  {
    hide HasNodeLabels, NodeLabels, Overlays;
    LabelsExactly(m, key, spec);
    var ls := NodeLabels(m, key, spec);
    OverlayExactly(GivenLabels(svc.labels), ls);
    OverlayExactly(GivenLabels(svc.selector), ls);
    assert HasNodeLabels(m, key, spec, ls);
  }

  lemma WorkloadExactly(m: Druid, sha: Sha, key: string, spec: NodeSpec)
    ensures DescribesWorkload(m, sha, key, spec, Workload(m, sha, key, spec))
  {
    hide HasNodeLabels, NodeLabels, DescribesConfig, DescribesCommon, NodeConfig, CommonConfig, Overlays;
    LabelsExactly(m, key, spec);
    ConfigExactly(m, key, spec);
    OverlayExactly(GivenLabels(m.annotations), spec.annotations);
    assert DescribesCommon(m, m.commonConfig, CommonConfig(m));
  }

  lemma ExtrasExactly(m: Druid, key: string, spec: NodeSpec, text: string)
    ensures DescribesIngress(m, key, text, NodeIngress(m, key, text))
    ensures DescribesPdb(m, key, spec, text, NodePdb(m, key, spec, text))
    ensures DescribesHpa(m, key, text, NodeHpa(m, key, text))
  {
    LabelsExactly(m, key, spec);
    hide HasNodeLabels, NodeLabels;
  }

  function Count(o: Option<string>): nat { if o.Some? then 1 else 0 }

  /** The objects of a node's extra steps, in order. */
  function ExtraBodies(m: Druid, key: string, spec: NodeSpec): seq<Body> {
    (if spec.ingress.Some? then [NodeIngress(m, key, spec.ingress.value)] else []) +
    (if spec.pdb.Some? then [NodePdb(m, key, spec, spec.pdb.value)] else []) +
    (if spec.hpa.Some? then [NodeHpa(m, key, spec.hpa.value)] else [])
  }

  lemma ExtraStepsAre(m: Druid, sha: Sha, key: string, spec: NodeSpec)
    ensures var steps, bodies := ExtraSteps(m, sha, key, spec), ExtraBodies(m, key, spec);
            |steps| == |bodies| && forall i :: 0 <= i < |bodies| ==> steps[i] == Apply(Stamped(sha, bodies[i]))
  {
    hide NodeIngress, NodePdb, NodeHpa, Stamped;
  }

  lemma StepsAt(m: Druid, sha: Sha, key: string, spec: NodeSpec)
    ensures var steps, services := NodeSteps(m, sha, key, spec), NodeServices(m, spec);
            var extras := ExtraBodies(m, key, spec);
            var n := 2 + |services|;
            && |steps| == n + |extras|
            && steps[0] == Apply(Stamped(sha, NodeConfig(m, key, spec)))
            && (forall i :: 0 <= i < |services| ==>
                  steps[1 + i] == Apply(Stamped(sha, NodeService(m, key, spec, services[i]))))
            && steps[n - 1].Roll? && steps[n - 1].d == Stamped(sha, Workload(m, sha, key, spec))
            && (forall i :: 0 <= i < |extras| ==> steps[n + i] == Apply(Stamped(sha, extras[i])))
  {
    hide Workload, NodeConfig, NodeService, Rank, Stamped, ExtraSteps, ExtraBodies, ServicesOf, NodeServices;
    assert ServicesOf(m, spec) == NodeServices(m, spec) by { SameServices(m, spec); }
    ExtraStepsAre(m, sha, key, spec);
    var services, extras := ServiceSteps(m, sha, key, spec, ServicesOf(m, spec)), ExtraSteps(m, sha, key, spec);
    var steps, n := NodeSteps(m, sha, key, spec), 2 + |services|;
    assert forall i :: 0 <= i < |services| ==> steps[1 + i] == services[i];
    assert forall i :: 0 <= i < |extras| ==> steps[n + i] == extras[i];
    assert steps[n - 1] == RollStep(m, sha, key, spec);
  }

  lemma SameServices(m: Druid, spec: NodeSpec)
    ensures ServicesOf(m, spec) == NodeServices(m, spec)
  {
  }

  /** The steps of a node: its configuration map, its services in list order, its workload, and then the
      ingress, the disruption budget and the autoscaler, each if configured, and nothing else. Each object
      is applied with its own hash. */
  lemma NodeStepsExactly(m: Druid, sha: Sha, key: string, spec: NodeSpec)
    ensures var steps, services := NodeSteps(m, sha, key, spec), NodeServices(m, spec);
            var n := 2 + |services|;
            && |steps| == n + Count(spec.ingress) + Count(spec.pdb) + Count(spec.hpa)
            && (forall i :: 0 <= i < |steps| ==>
                  !steps[i].Finalizers? && steps[i].d.stamp == sha(steps[i].d.body) && (steps[i].Roll? <==> i == n - 1))
            && DescribesConfig(m, key, spec, steps[0].d.body)
            && (forall i :: 0 <= i < |services| ==>
                  DescribesService(m, key, spec, services[i], steps[1 + i].d.body))
            && DescribesWorkload(m, sha, key, spec, steps[n - 1].d.body)
            && (spec.ingress.Some? ==> DescribesIngress(m, key, spec.ingress.value, steps[n].d.body))
            && (spec.pdb.Some? ==>
                  DescribesPdb(m, key, spec, spec.pdb.value, steps[n + Count(spec.ingress)].d.body))
            && (spec.hpa.Some? ==>
                  DescribesHpa(m, key, spec.hpa.value, steps[n + Count(spec.ingress) + Count(spec.pdb)].d.body))
  {
    hide NodeSteps, Workload, NodeConfig, NodeService, NodeIngress, NodePdb, NodeHpa, NodeServices;
    hide DescribesConfig, DescribesService, DescribesWorkload, DescribesIngress, DescribesPdb, DescribesHpa;
    StepsAt(m, sha, key, spec);
    ConfigExactly(m, key, spec);
    WorkloadExactly(m, sha, key, spec);
    var steps, services, extras := NodeSteps(m, sha, key, spec), NodeServices(m, spec), ExtraBodies(m, key, spec);
    var n := 2 + |services|;
    forall i | 0 <= i < |services|
      ensures DescribesService(m, key, spec, services[i], steps[1 + i].d.body)
    {
      ServiceExactly(m, key, spec, services[i]);
    }
    forall i | n <= i < |steps| ensures steps[i] == Apply(Stamped(sha, extras[i - n])) {
      assert steps[n + (i - n)] == Apply(Stamped(sha, extras[i - n]));
    }
    forall i | 0 < i < n - 1 ensures steps[i] == Apply(Stamped(sha, NodeService(m, key, spec, services[i - 1]))) {
      assert steps[1 + (i - 1)] == Apply(Stamped(sha, NodeService(m, key, spec, services[i - 1])));
    }
    if spec.ingress.Some? { ExtrasExactly(m, key, spec, spec.ingress.value); }
    if spec.pdb.Some? { ExtrasExactly(m, key, spec, spec.pdb.value); }
    if spec.hpa.Some? { ExtrasExactly(m, key, spec, spec.hpa.value); }
  }

  /** A pass begins with the common configuration map as the second reading finds it, then brings the
      finalizer list up to date; what it hashes into the workloads is the first reading. */
  lemma PassBegins(sha: Sha, input: PassInput)
    requires forall k :: k in input.iter ==> k in input.resource.nodes
    ensures var m := input.resource;
            var plan := PlanOf(AsRead(input), sha, Applied(input), input.iter);
            && |plan| >= 2 && plan[0].Apply? && plan[0].d.stamp == sha(plan[0].d.body)
            && DescribesCommon(m, Overlaid(m.commonFiles, m.extraCommonConfig, input.readings.applied), plan[0].d.body)
            && plan[1] == Finalizers(m.finalizersChange)
            && AsRead(input) ==
               m.(commonConfig := Overlaid(m.commonFiles, m.extraCommonConfig, input.readings.hashed))
  {
    hide VisitsPlan, Overlaid;
  }
}
