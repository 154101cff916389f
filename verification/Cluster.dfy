/** The Druid resource, the objects it asks for, and how they are named, labelled and stamped. */
module Cluster {
  import opened Basics
  import opened ExtraConfig
  import opened Naming

  type Labels = map<string, string>

  datatype Kind = StatefulSet | Deployment | Hpa | Ingress | Pdb | Service | ConfigMap | Pvc

  /** The kinds a completed pass collects garbage in, in the order it does so. */
  const COLLECTED: seq<Kind> := [StatefulSet, Deployment, Hpa, Ingress, Pdb, Service, ConfigMap]

  datatype Id = Id(kind: Kind, name: string)

  /** A probe over HTTP whose port is 0 has none set; the other forms are left as they are. */
  datatype Probe = Http(port: int, rest: string) | Other(rest: string)

  datatype Probes = Probes(liveness: Option<Probe>, readiness: Option<Probe>, startup: Option<Probe>)

  /** A service's ports as given, or one default port, the node's. */
  datatype Ports = Given(text: string) | Default(port: int)

  datatype Content =
    | ConfigData(data: Files)
    | PodSpec(base: string, env: seq<(string, string)>, serviceName: string, probes: Probes)
    | ServiceSpecOf(selector: Labels, ports: Ports, text: string)
    | Text(text: string)

  /** The annotation that holds an object's hash. */
  const HASH := "druidOpResourceHash"

  /** Everything of an object that only the operator writes; the hash is taken over this. */
  datatype Body = Body(id: Id, labels: Labels, annotations: Labels, content: Content)

  /** An object hash as a function of the hashed object (SHA-1 and base64 in the operator). */
  type Sha = Body -> string

  /** A body together with the hash annotation it is given. */
  datatype Desired = Desired(body: Body, stamp: string)

  datatype NameTemplate = Plain | Around(prefix: string, suffix: string)

  /** `None` is a map the user did not give; only a given map is filled in place. */
  datatype ServiceSpec = ServiceSpec(
    name: NameTemplate, labels: Option<Labels>, selector: Option<Labels>, annotations: Option<Labels>,
    ports: Option<string>, text: string)

  datatype NodeSpec = NodeSpec(
    nodeType: string, kind: string, image: string, podLabels: Labels, annotations: Labels,
    config: Files, env: Option<seq<(string, string)>>, podBase: string, port: int, probes: Probes,
    services: Option<seq<ServiceSpec>>, ingress: Option<string>, pdb: Option<string>, hpa: Option<string>)

  /** `commonFiles` and the referenced `extraCommonConfig` maps make up the common configuration;
      `commonConfig` is what they come to, see `Seen`. */
  datatype Druid = Druid(
    name: string, generation: int, rollingDeploy: bool, image: string, podLabels: Labels,
    annotations: Option<Labels>, commonFiles: Files, extraCommonConfig: seq<string>, commonConfig: Files,
    env: seq<(string, string)>, probes: Probes, services: seq<ServiceSpec>,
    nodes: map<string, NodeSpec>, finalizersChange: bool)

  /** The common configuration for one reading of the referenced maps; a map that cannot be read is
      not in `store`. */
  function CommonFiles(m: Druid, store: map<string, Files>): Files {
    Overlaid(m.commonFiles, m.extraCommonConfig, store)
  }

  /** The resource with its common configuration as read. */
  function Seen(m: Druid, store: map<string, Files>): Druid { m.(commonConfig := CommonFiles(m, store)) }

  predicate IsWorkload(k: Kind) { k == StatefulSet || k == Deployment }

  // Labels

  function ClusterLabels(m: Druid): Labels {
    map["app" := "druid", "druid_cr" := m.name]
  }

  /** Cluster labels, then node labels, then the operator's own four keys. */
  function NodeLabels(m: Druid, key: string, spec: NodeSpec): Labels {
    m.podLabels + spec.podLabels +
    map["app" := "druid", "druid_cr" := m.name, "nodeSpecUniqueStr" := NodeName(m.name, key),
      "component" := spec.nodeType]
  }

  predicate Matches(selector: Labels, labels: Labels) {
    forall k :: k in selector ==> k in labels && labels[k] == selector[k]
  }

  // Desired objects

  function Stamped(sha: Sha, b: Body): Desired { Desired(b, sha(b)) }

  function CommonConfig(m: Druid): Body {
    Body(Id(ConfigMap, CommonConfigName(m.name)), ClusterLabels(m), map[], ConfigData(m.commonConfig))
  }

  function NodeConfig(m: Druid, key: string, spec: NodeSpec): Body {
    Body(Id(ConfigMap, NodeConfigName(m.name, key)), NodeLabels(m, key, spec), map[], ConfigData(spec.config))
  }

  function ServiceName(t: NameTemplate, node: string): string {
    match t
    case Plain => node
    case Around(prefix, suffix) => prefix + node + suffix
  }

  function ServicesOf(m: Druid, spec: NodeSpec): seq<ServiceSpec> {
    if spec.services.Some? then spec.services.value else m.services
  }

  function OrEmpty(given: Option<Labels>): Labels { if given.None? then map[] else given.value }

  function PortsOf(svc: ServiceSpec, spec: NodeSpec): Ports {
    if svc.ports.None? then Default(spec.port) else Given(svc.ports.value)
  }

  function NodeService(m: Druid, key: string, spec: NodeSpec, svc: ServiceSpec): Body {
    var ls := NodeLabels(m, key, spec);
    Body(Id(Service, ServiceName(svc.name, NodeName(m.name, key))), OrEmpty(svc.labels) + ls, OrEmpty(svc.annotations),
         ServiceSpecOf(OrEmpty(svc.selector) + ls, PortsOf(svc, spec), svc.text))
  }

  function FirstServiceName(m: Druid, key: string, spec: NodeSpec): string {
    var services := ServicesOf(m, spec);
    if services == [] then "" else ServiceName(services[0].name, NodeName(m.name, key))
  }

  /** Joins the hashes of the common and the node configuration. */
  function ConfigSha(m: Druid, sha: Sha, key: string, spec: NodeSpec): string {
    sha(CommonConfig(m)) + "-" + sha(NodeConfig(m, key, spec))
  }

  function WorkloadEnv(m: Druid, sha: Sha, key: string, spec: NodeSpec): seq<(string, string)> {
    (if spec.env.Some? then spec.env.value else m.env) + [("configMapSHA", ConfigSha(m, sha, key, spec))]
  }

  function WorkloadId(m: Druid, key: string, spec: NodeSpec): Id {
    Id(if spec.kind == "Deployment" then Deployment else StatefulSet, NodeName(m.name, key))
  }

  function WithPort(p: Option<Probe>, port: int): Option<Probe> {
    if p.Some? && p.value.Http? && p.value.port == 0 then Some(p.value.(port := port)) else p
  }

  function ProbeOf(own: Option<Probe>, cluster: Option<Probe>, port: int): Option<Probe> {
    WithPort(if own.Some? then own else cluster, port)
  }

  /** A node's probes: its own or the cluster's, with the node's port where none is set. */
  function WorkloadProbes(m: Druid, spec: NodeSpec): Probes {
    Probes(ProbeOf(spec.probes.liveness, m.probes.liveness, spec.port),
           ProbeOf(spec.probes.readiness, m.probes.readiness, spec.port),
           ProbeOf(spec.probes.startup, m.probes.startup, spec.port))
  }

  function Workload(m: Druid, sha: Sha, key: string, spec: NodeSpec): Body {
    Body(WorkloadId(m, key, spec), NodeLabels(m, key, spec), OrEmpty(m.annotations) + spec.annotations,
         PodSpec(spec.podBase, WorkloadEnv(m, sha, key, spec), FirstServiceName(m, key, spec), WorkloadProbes(m, spec)))
  }

  function NodeIngress(m: Druid, key: string, text: string): Body {
    Body(Id(Ingress, NodeName(m.name, key)), ClusterLabels(m), map[], Text(text))
  }

  function NodePdb(m: Druid, key: string, spec: NodeSpec, text: string): Body {
    Body(Id(Pdb, NodeName(m.name, key)), NodeLabels(m, key, spec), map[], Text(text))
  }

  function NodeHpa(m: Druid, key: string, text: string): Body {
    Body(Id(Hpa, NodeName(m.name, key)), ClusterLabels(m), map[], Text(text))
  }

  /** User pod labels never displace the selector keys. */
  lemma DesiredLabelsMatch(m: Druid, key: string, spec: NodeSpec, svc: ServiceSpec)
    ensures Matches(ClusterLabels(m), ClusterLabels(m))
    ensures Matches(ClusterLabels(m), NodeLabels(m, key, spec))
    ensures Matches(ClusterLabels(m), NodeService(m, key, spec, svc).labels)
  {
  }

  // Validation

  predicate LowerAlnum(c: char) { 'a' <= c <= 'z' || '0' <= c <= '9' }

  /** `[a-z0-9]([-a-z0-9]*[a-z0-9])?` */
  predicate DnsLabel(s: string) {
    && s != [] && LowerAlnum(s[0]) && LowerAlnum(s[|s| - 1])
    && forall i :: 0 <= i < |s| ==> LowerAlnum(s[i]) || s[i] == '-'
  }

  /** One label, or several joined by dots: the language of the key expression. */
  predicate DnsName(s: string)
    decreases |s|
  {
    DnsLabel(s) || exists i :: 0 <= i < |s| && s[i] == '.' && DnsLabel(s[..i]) && DnsName(s[i + 1..])
  }

  /** The expression is not anchored: it has to match somewhere in the key. */
  predicate KeyAccepted(key: string) {
    exists i, j :: 0 <= i <= j <= |key| && DnsName(key[i..j])
  }

  lemma {:induction false} DnsNameBegins(s: string)
    requires DnsName(s)
    ensures s != [] && LowerAlnum(s[0])
  {
    if !DnsLabel(s) {
      var i :| 0 <= i < |s| && s[i] == '.' && DnsLabel(s[..i]) && DnsName(s[i + 1..]);
      assert s[..i][0] == s[0];
    }
  }

  /** So a key is accepted exactly if it holds one lower-case letter or digit. */
  lemma KeyAcceptedExactly(key: string)
    ensures KeyAccepted(key) <==> exists i :: 0 <= i < |key| && LowerAlnum(key[i])
  {
    if KeyAccepted(key) {
      var i, j :| 0 <= i <= j <= |key| && DnsName(key[i..j]);
      DnsNameBegins(key[i..j]);
      assert LowerAlnum(key[i]);
    }
    if i :| 0 <= i < |key| && LowerAlnum(key[i]) {
      assert key[i..i + 1] == [key[i]];
      assert DnsLabel(key[i..i + 1]);
    }
  }

  /** An accepted key that is no resource name. */
  lemma BadKeyAccepted()
    ensures KeyAccepted("Not a name!") && !DnsName("Not a name!")
  {
    var key := "Not a name!";
    assert LowerAlnum(key[1]);
    KeyAcceptedExactly(key);
    if DnsName(key) { DnsNameBegins(key); }
  }

  predicate ValidSpec(m: Druid) {
    forall key :: key in m.nodes ==> KeyAccepted(key) && (m.image != "" || m.nodes[key].image != "")
  }
}
