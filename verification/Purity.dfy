/** When no node changes what another one gets through a shared cluster-level map or probe. */
module Purity {
  import opened Basics
  import opened Cluster
  import opened Deploy
  import opened Naming
  import opened Ordering
  import opened Sharing

  // The resource in memory after some visits

  function After(m: Druid, sha: Sha, keys: seq<string>): (r: Druid)
    requires forall k :: k in keys ==> k in m.nodes
    ensures r.nodes == m.nodes
  {
    if keys == [] then m else
      var n := |keys| - 1;
      Visited(After(m, sha, keys[..n]), sha, keys[n], m.nodes[keys[n]])
  }

  lemma {:induction false} AfterFront(m: Druid, sha: Sha, keys: seq<string>)
    requires keys != [] && forall k :: k in keys ==> k in m.nodes
    ensures After(m, sha, keys) == After(Visited(m, sha, keys[0], m.nodes[keys[0]]), sha, keys[1..])
  {
    hide Visited;
    var n := |keys| - 1;
    if n > 0 {
      AfterFront(m, sha, keys[..n]);
      assert keys[..n][1..] == keys[1..][..n - 1];
    }
  }

  lemma {:induction false} VisitAt(m: Druid, sha: Sha, keys: seq<string>, i: nat)
    requires NoRepeats(keys) && i < |keys| && forall k :: k in keys ==> k in m.nodes
    ensures AtVisit(m, sha, keys, keys[i]) == After(m, sha, keys[..i])
    decreases i
  {
    hide Visited;
    if i > 0 {
      var after := Visited(m, sha, keys[0], m.nodes[keys[0]]);
      assert keys[1..][i - 1] == keys[i] && keys[..i][1..] == keys[1..][..i - 1];
      VisitAt(after, sha, keys[1..], i - 1);
      AfterFront(m, sha, keys[..i]);
    }
  }

  lemma {:induction false} AfterAlike(m: Druid, sha: Sha, keys: seq<string>)
    requires forall k :: k in keys ==> k in m.nodes
    ensures Alike(m, After(m, sha, keys))
  {
    hide Alike, Visited;
    AlikeItself(m);
    if keys != [] {
      var n := |keys| - 1;
      AfterAlike(m, sha, keys[..n]);
      AlikeVisited(m, After(m, sha, keys[..n]), sha, keys[n], m.nodes[keys[n]]);
    }
  }

  lemma AlikeLabels(m: Druid, v: Druid, key: string, spec: NodeSpec)
    requires Alike(m, v)
    ensures NodeLabels(v, key, spec) == NodeLabels(m, key, spec)
  {
  }

  // Maps of cluster-level services

  predicate UsesCluster(m: Druid, key: string)
    requires key in m.nodes
  {
    m.nodes[key].services.None?
  }

  function LabelsOf(m: Druid, key: string): Labels
    requires key in m.nodes
  {
    NodeLabels(m, key, m.nodes[key])
  }

  /** A cluster-level label map as the visits `keys` leave it. */
  function FilledBy(m: Druid, given: Option<Labels>, keys: seq<string>): (r: Option<Labels>)
    requires forall k :: k in keys ==> k in m.nodes
    ensures r.Some? <==> given.Some?
  {
    if keys == [] then given else
      var n := |keys| - 1;
      var before := FilledBy(m, given, keys[..n]);
      if UsesCluster(m, keys[n]) then Filled(before, LabelsOf(m, keys[n])) else before
  }

  lemma VisitedService(m: Druid, v: Druid, sha: Sha, key: string, i: nat)
    requires Alike(m, v) && key in m.nodes && i < |m.services|
    ensures |v.services| == |m.services| && |Visited(v, sha, key, m.nodes[key]).services| == |m.services|
    ensures var was, now := v.services[i], Visited(v, sha, key, m.nodes[key]).services[i];
            if UsesCluster(m, key)
            then && now.labels == Filled(was.labels, LabelsOf(m, key))
                 && now.selector == Filled(was.selector, LabelsOf(m, key))
                 && (was.annotations.Some? <==> now.annotations.Some?)
                 && (now.annotations.Some? ==> HASH in now.annotations.value)
                 && now == was.(labels := now.labels, selector := now.selector, annotations := now.annotations)
            else now == was
  {
    AlikeLabels(m, v, key, m.nodes[key]);
    hide NodeLabels, NodeService, Workload, TouchedProbes;
  }

  lemma {:induction false} AfterMaps(m: Druid, sha: Sha, keys: seq<string>, i: nat)
    requires i < |m.services| && forall k :: k in keys ==> k in m.nodes
    ensures |After(m, sha, keys).services| == |m.services|
    ensures var given, now := m.services[i], After(m, sha, keys).services[i];
            && now.labels == FilledBy(m, given.labels, keys) && now.selector == FilledBy(m, given.selector, keys)
            && now == given.(labels := now.labels, selector := now.selector, annotations := now.annotations)
            && (given.annotations.Some? <==> now.annotations.Some?)
    ensures (forall k :: k in keys ==> !UsesCluster(m, k)) ==> After(m, sha, keys).services[i] == m.services[i]
  {
    hide Visited, Alike, UsesCluster, LabelsOf, Filled;
    if keys != [] {
      var n := |keys| - 1;
      AfterMaps(m, sha, keys[..n], i);
      AfterAlike(m, sha, keys[..n]);
      VisitedService(m, After(m, sha, keys[..n]), sha, keys[n], i);
    }
  }

  /** Once a service's annotations are filled, they hold a hash. */
  lemma {:induction false} AfterServiceHash(m: Druid, sha: Sha, keys: seq<string>, i: nat, b: string)
    requires i < |m.services| && forall k :: k in keys ==> k in m.nodes
    requires b in keys && UsesCluster(m, b) && m.services[i].annotations.Some?
    ensures |After(m, sha, keys).services| == |m.services|
    ensures HASH in OrEmpty(After(m, sha, keys).services[i].annotations)
  {
    hide Visited, Alike, UsesCluster, LabelsOf, Filled, FilledBy;
    var n := |keys| - 1;
    AfterMaps(m, sha, keys, i);
    AfterMaps(m, sha, keys[..n], i);
    AfterAlike(m, sha, keys[..n]);
    VisitedService(m, After(m, sha, keys[..n]), sha, keys[n], i);
    if !UsesCluster(m, keys[n]) { AfterServiceHash(m, sha, keys[..n], i, b); }
  }

  /** `key` writes the label `l` into the maps of cluster-level services. */
  predicate Writes(m: Druid, key: string, l: string)
    requires key in m.nodes
  {
    UsesCluster(m, key) && l in LabelsOf(m, key)
  }

  lemma {:induction false} NeverWritten(m: Druid, given: Option<Labels>, keys: seq<string>, l: string)
    requires given.Some? && forall k :: k in keys ==> k in m.nodes && !Writes(m, k, l)
    ensures var now := FilledBy(m, given, keys).value;
            (l in now <==> l in given.value) && (l in now ==> now[l] == given.value[l])
  {
    hide UsesCluster, LabelsOf;
    if keys != [] {
      var n := |keys| - 1;
      assert !Writes(m, keys[n], l);
      NeverWritten(m, given, keys[..n], l);
    }
  }

  /** The last node that writes a label decides it. */
  lemma {:induction false} LastWrite(m: Druid, given: Option<Labels>, keys: seq<string>, j: nat, l: string)
    requires given.Some? && j < |keys| && forall k :: k in keys ==> k in m.nodes
    requires Writes(m, keys[j], l) && forall i :: j < i < |keys| ==> !Writes(m, keys[i], l)
    ensures var now := FilledBy(m, given, keys).value; l in now && now[l] == LabelsOf(m, keys[j])[l]
  {
    hide UsesCluster, LabelsOf;
    var n := |keys| - 1;
    if j < n { LastWrite(m, given, keys[..n], j, l); }
  }

  lemma {:induction false} FindLastWrite(m: Druid, keys: seq<string>, l: string) returns (j: int)
    requires forall k :: k in keys ==> k in m.nodes
    ensures -1 <= j < |keys| && (j >= 0 ==> Writes(m, keys[j], l))
    ensures forall i :: j < i < |keys| ==> !Writes(m, keys[i], l)
  {
    hide Writes;
    var n := |keys| - 1;
    if keys == [] || Writes(m, keys[n], l) {
      j := n;
    } else {
      j := FindLastWrite(m, keys[..n], l);
    }
  }

  // Probes

  datatype Slot = Liveness | Readiness | Startup

  function ProbeIn(probes: Probes, slot: Slot): Option<Probe> {
    match slot
    case Liveness => probes.liveness
    case Readiness => probes.readiness
    case Startup => probes.startup
  }

  function OwnProbe(m: Druid, key: string, slot: Slot): Option<Probe>
    requires key in m.nodes
  {
    ProbeIn(m.nodes[key].probes, slot)
  }

  /** A cluster-level probe as the visits `keys` leave it. */
  function PortedBy(m: Druid, slot: Slot, keys: seq<string>): Option<Probe>
    requires forall k :: k in keys ==> k in m.nodes
  {
    if keys == [] then ProbeIn(m.probes, slot) else
      var n := |keys| - 1;
      TouchedProbe(OwnProbe(m, keys[n], slot), PortedBy(m, slot, keys[..n]), m.nodes[keys[n]].port)
  }

  lemma {:induction false} AfterProbes(m: Druid, sha: Sha, keys: seq<string>, slot: Slot)
    requires forall k :: k in keys ==> k in m.nodes
    ensures ProbeIn(After(m, sha, keys).probes, slot) == PortedBy(m, slot, keys)
  {
    hide TouchedProbe, TouchedServices, Workload;
    if keys != [] { AfterProbes(m, sha, keys[..|keys| - 1], slot); }
  }

  predicate Portless(p: Option<Probe>) { p.Some? && p.value.Http? && p.value.port == 0 }

  /** `key` uses the cluster-level probe and gives it its port. */
  predicate GivesPort(m: Druid, slot: Slot, key: string)
    requires key in m.nodes
  {
    Portless(ProbeIn(m.probes, slot)) && OwnProbe(m, key, slot).None? && m.nodes[key].port != 0
  }

  lemma {:induction false} SomePort(m: Druid, slot: Slot, keys: seq<string>)
    requires forall k :: k in keys ==> k in m.nodes
    ensures var given, now := ProbeIn(m.probes, slot), PortedBy(m, slot, keys);
            now == given || exists k :: k in keys && GivesPort(m, slot, k) && now == WithPort(given, m.nodes[k].port)
  {
    hide OwnProbe, ProbeIn;
    if keys != [] {
      var n := |keys| - 1;
      SomePort(m, slot, keys[..n]);
      assert keys[n] in keys;
    }
  }

  lemma {:induction false} PortStays(m: Druid, slot: Slot, keys: seq<string>, j: nat)
    requires j <= |keys| && (forall k :: k in keys ==> k in m.nodes) && !Portless(PortedBy(m, slot, keys[..j]))
    ensures PortedBy(m, slot, keys) == PortedBy(m, slot, keys[..j])
  {
    hide OwnProbe, ProbeIn;
    var n := |keys| - 1;
    if j == |keys| {
      assert keys[..j] == keys;
    } else {
      assert keys[..n][..j] == keys[..j];
      PortStays(m, slot, keys[..n], j);
    }
  }

  // The condition

  /** No user sets the annotation the operator keeps its hash in. */
  predicate OwnAnnotation(m: Druid) {
    && HASH !in OrEmpty(m.annotations)
    && (forall i :: 0 <= i < |m.services| ==> HASH !in OrEmpty(m.services[i].annotations))
    && forall k :: k in m.nodes ==> HASH !in m.nodes[k].annotations
  }

  /** `b` can be visited before `a`. */
  predicate MayPrecede(m: Druid, b: string, a: string) {
    a in KnownKeys(m) && b in KnownKeys(m) && a != b && NodeRank(m, b) <= NodeRank(m, a)
  }

  /** A node that every pass visits between `b` and `a` writes the label too. */
  predicate Overwritten(m: Druid, b: string, a: string, l: string)
    requires a in m.nodes && b in m.nodes
  {
    exists c :: c in KnownKeys(m) && NodeRank(m, b) < NodeRank(m, c) < NodeRank(m, a) && Writes(m, c, l)
  }

  /** What `b` writes into the map was there before, or is overwritten before `a` uses the map. */
  predicate MapKept(m: Druid, given: Option<Labels>, b: string, a: string)
    requires a in m.nodes && b in m.nodes
  {
    given.Some? ==> forall l :: l in LabelsOf(m, b) ==>
      || l in LabelsOf(m, a) || Overwritten(m, b, a, l)
      || (l in given.value && given.value[l] == LabelsOf(m, b)[l])
  }

  predicate ServiceKept(m: Druid, svc: ServiceSpec, b: string, a: string)
    requires a in m.nodes && b in m.nodes
  {
    MapKept(m, svc.labels, b, a) && MapKept(m, svc.selector, b, a) && svc.annotations.None?
  }

  predicate ServicesKept(m: Druid, b: string, a: string)
    requires a in m.nodes && b in m.nodes
  {
    UsesCluster(m, a) && UsesCluster(m, b) ==>
      forall i :: 0 <= i < |m.services| ==> ServiceKept(m, m.services[i], b, a)
  }

  /** Two nodes that use one cluster-level probe without a port have the same port. */
  predicate ProbeKept(m: Druid, slot: Slot, b: string, a: string)
    requires a in m.nodes && b in m.nodes
  {
    GivesPort(m, slot, b) && OwnProbe(m, a, slot).None? ==> m.nodes[b].port == m.nodes[a].port
  }

  /** What visiting `b` leaves behind does not reach `a`. */
  predicate Kept(m: Druid, b: string, a: string)
    requires a in m.nodes && b in m.nodes
  {
    m.annotations.None? && ServicesKept(m, b, a) && forall slot :: ProbeKept(m, slot, b, a)
  }

  /** No node changes what a later one gets. */
  ghost predicate Unshared(m: Druid) {
    forall a, b :: MayPrecede(m, b, a) ==> Kept(m, b, a)
  }

  /** A pass's order of visits: all known nodes, ranks ascending. */
  ghost predicate PassOrder(m: Druid, keys: seq<string>) {
    VisitOrder(m, keys) && forall k :: k in KnownKeys(m) ==> k in keys
  }

  // Sufficiency

  /** The two services give a node with labels `ls` the same object. */
  predicate SameService(given: ServiceSpec, now: ServiceSpec, ls: Labels) {
    && now == given.(labels := now.labels, selector := now.selector)
    && OrEmpty(now.labels) + ls == OrEmpty(given.labels) + ls
    && OrEmpty(now.selector) + ls == OrEmpty(given.selector) + ls
  }

  /** The resource in memory gives the node `key` what the user's gives it. */
  predicate Harmless(given: Druid, now: Druid, key: string)
    requires key in given.nodes
  {
    && Alike(given, now)
    && OrEmpty(now.annotations) == OrEmpty(given.annotations)
    && WorkloadProbes(now, given.nodes[key]) == WorkloadProbes(given, given.nodes[key])
    && (UsesCluster(given, key) ==> forall i :: 0 <= i < |given.services| ==>
          SameService(given.services[i], now.services[i], LabelsOf(given, key)))
  }

  lemma SameSteps(given: Druid, now: Druid, sha: Sha, key: string)
    requires key in given.nodes && Harmless(given, now, key)
    ensures NodeSteps(now, sha, key, given.nodes[key]) == NodeSteps(given, sha, key, given.nodes[key])
  {
    var spec := given.nodes[key];
    var a, b := ServicesOf(now, spec), ServicesOf(given, spec);
    assert NodeLabels(now, key, spec) == NodeLabels(given, key, spec);
    assert CommonConfig(now) == CommonConfig(given) && NodeConfig(now, key, spec) == NodeConfig(given, key, spec);
    hide NodeLabels, CommonConfig, NodeConfig, WorkloadProbes, NodeName, Rank;
    forall i | 0 <= i < |b| ensures NodeService(now, key, spec, a[i]) == NodeService(given, key, spec, b[i]) {}
    assert ServiceSteps(now, sha, key, spec, a) == ServiceSteps(given, sha, key, spec, b);
    assert FirstServiceName(now, key, spec) == FirstServiceName(given, key, spec);
    assert Workload(now, sha, key, spec) == Workload(given, sha, key, spec);
    assert ExtraSteps(now, sha, key, spec) == ExtraSteps(given, sha, key, spec);
  }

  /** Nodes visited earlier may precede; those of ranks in between lie in between. */
  lemma OrderFacts(m: Druid, keys: seq<string>, j: nat, p: nat)
    requires PassOrder(m, keys) && j < p < |keys|
    ensures MayPrecede(m, keys[j], keys[p])
    ensures forall c :: c in KnownKeys(m) && NodeRank(m, keys[j]) < NodeRank(m, c) < NodeRank(m, keys[p]) ==>
              exists q :: j < q < p && keys[q] == c
  {
    KnownIsNode(m);
    hide Known, NodeRank;
    assert keys[j] in keys && keys[p] in keys;
    forall c | c in KnownKeys(m) && NodeRank(m, keys[j]) < NodeRank(m, c) < NodeRank(m, keys[p])
      ensures exists q :: j < q < p && keys[q] == c
    {
      var q :| 0 <= q < |keys| && keys[q] == c;
      assert q > j && q < p;
    }
  }

  lemma NotOverwritten(m: Druid, keys: seq<string>, j: nat, p: nat, l: string)
    requires PassOrder(m, keys) && j < p < |keys| && forall k :: k in keys ==> k in m.nodes
    requires forall i :: j < i < p ==> !Writes(m, keys[i], l)
    ensures !Overwritten(m, keys[j], keys[p], l)
  {
    OrderFacts(m, keys, j, p);
    hide Writes, PassOrder, NodeRank, Known;
  }

  lemma KeptLabel(m: Druid, given: Option<Labels>, b: string, a: string, l: string)
    requires a in m.nodes && b in m.nodes && MapKept(m, given, b, a) && given.Some?
    requires Writes(m, b, l) && l !in LabelsOf(m, a) && !Overwritten(m, b, a, l)
    ensures l in given.value && given.value[l] == LabelsOf(m, b)[l]
  {
    hide Overwritten, LabelsOf;
  }

  lemma LabelKept(m: Druid, given: Option<Labels>, keys: seq<string>, p: nat, l: string)
    requires PassOrder(m, keys) && p < |keys| && given.Some? && (forall k :: k in keys ==> k in m.nodes)
    requires l !in LabelsOf(m, keys[p])
    requires forall j :: 0 <= j < p && UsesCluster(m, keys[j]) ==> MapKept(m, given, keys[j], keys[p])
    ensures var now := FilledBy(m, given, keys[..p]).value;
            (l in now <==> l in given.value) && (l in now ==> now[l] == given.value[l])
  {
    hide UsesCluster, LabelsOf, FilledBy, PassOrder, MapKept, Overwritten;
    var j := FindLastWrite(m, keys[..p], l);
    if j < 0 {
      NeverWritten(m, given, keys[..p], l);
    } else {
      LastWrite(m, given, keys[..p], j, l);
      NotOverwritten(m, keys, j, p, l);
      KeptLabel(m, given, keys[j], keys[p], l);
    }
  }

  lemma MapSame(m: Druid, given: Option<Labels>, keys: seq<string>, p: nat)
    requires PassOrder(m, keys) && p < |keys| && forall k :: k in keys ==> k in m.nodes
    requires forall j :: 0 <= j < p && UsesCluster(m, keys[j]) ==> MapKept(m, given, keys[j], keys[p])
    ensures OrEmpty(FilledBy(m, given, keys[..p])) + LabelsOf(m, keys[p]) == OrEmpty(given) + LabelsOf(m, keys[p])
  {
    hide UsesCluster, LabelsOf, FilledBy, PassOrder, MapKept;
    if given.Some? {
      forall l | l !in LabelsOf(m, keys[p])
        ensures var now := FilledBy(m, given, keys[..p]).value;
                (l in now <==> l in given.value) && (l in now ==> now[l] == given.value[l])
      {
        LabelKept(m, given, keys, p, l);
      }
    }
  }

  lemma ServiceSame(m: Druid, sha: Sha, keys: seq<string>, p: nat, i: nat)
    requires PassOrder(m, keys) && p < |keys| && i < |m.services| && forall k :: k in keys ==> k in m.nodes
    requires forall j :: 0 <= j < p && UsesCluster(m, keys[j]) ==> ServiceKept(m, m.services[i], keys[j], keys[p])
    ensures |After(m, sha, keys[..p]).services| == |m.services|
    ensures SameService(m.services[i], After(m, sha, keys[..p]).services[i], LabelsOf(m, keys[p]))
  {
    hide UsesCluster, LabelsOf, FilledBy, PassOrder, MapKept, After;
    AfterMaps(m, sha, keys[..p], i);
    MapSame(m, m.services[i].labels, keys, p);
    MapSame(m, m.services[i].selector, keys, p);
    if k :| k in keys[..p] && UsesCluster(m, k) {
      var j: nat :| j < p && keys[..p][j] == k;
      assert ServiceKept(m, m.services[i], keys[j], keys[p]);
    }
  }

  /** The visits `keys` leave the cluster-level probe as the node `key` would find it on its own. */
  predicate ProbeFound(m: Druid, slot: Slot, keys: seq<string>, key: string)
    requires key in m.nodes && forall k :: k in keys ==> k in m.nodes
  {
    var own, port := OwnProbe(m, key, slot), m.nodes[key].port;
    ProbeOf(own, PortedBy(m, slot, keys), port) == ProbeOf(own, ProbeIn(m.probes, slot), port)
  }

  lemma ProbeSame(m: Druid, slot: Slot, keys: seq<string>, p: nat)
    requires p < |keys| && forall k :: k in keys ==> k in m.nodes
    requires forall j :: 0 <= j < p ==> ProbeKept(m, slot, keys[j], keys[p])
    ensures ProbeFound(m, slot, keys[..p], keys[p])
  {
    hide PortedBy, ProbeIn, OwnProbe;
    SomePort(m, slot, keys[..p]);
    if PortedBy(m, slot, keys[..p]) != ProbeIn(m.probes, slot) {
      var k :| k in keys[..p] && GivesPort(m, slot, k)
               && PortedBy(m, slot, keys[..p]) == WithPort(ProbeIn(m.probes, slot), m.nodes[k].port);
      var j: nat :| j < p && keys[..p][j] == k;
      assert ProbeKept(m, slot, keys[j], keys[p]);
    }
  }

  lemma ProbesBySlot(m: Druid, v: Druid, keys: seq<string>, key: string)
    requires key in m.nodes && forall k :: k in keys ==> k in m.nodes
    requires forall slot :: ProbeIn(v.probes, slot) == PortedBy(m, slot, keys)
    ensures WorkloadProbes(v, m.nodes[key]) == WorkloadProbes(m, m.nodes[key]) <==>
            forall slot :: ProbeFound(m, slot, keys, key)
  {
    hide ProbeOf, PortedBy;
    assert v.probes.liveness == ProbeIn(v.probes, Liveness) && v.probes.readiness == ProbeIn(v.probes, Readiness);
    assert v.probes.startup == ProbeIn(v.probes, Startup);
    if WorkloadProbes(v, m.nodes[key]) == WorkloadProbes(m, m.nodes[key]) {
      forall slot ensures ProbeFound(m, slot, keys, key) {}
    }
    if forall slot :: ProbeFound(m, slot, keys, key) {
      assert ProbeFound(m, Liveness, keys, key) && ProbeFound(m, Readiness, keys, key);
      assert ProbeFound(m, Startup, keys, key);
    }
  }

  /** The cluster's workload annotations as the visits `keys` leave them, apart from hashes. */
  function AnnotatedBy(m: Druid, keys: seq<string>): (r: Labels)
    requires forall k :: k in keys ==> k in m.nodes
  {
    if keys == [] then OrEmpty(m.annotations) else
      var n := |keys| - 1;
      AnnotatedBy(m, keys[..n]) + m.nodes[keys[n]].annotations
  }

  /** A given annotation map collects the annotations of every node visited, and the hash of the last
      node's workload. */
  lemma {:induction false} AnnotationsCollect(m: Druid, sha: Sha, keys: seq<string>)
    requires m.annotations.Some? && forall k :: k in keys ==> k in m.nodes
    ensures var v := After(m, sha, keys);
            && v.annotations.Some? && v.annotations.value - {HASH} == AnnotatedBy(m, keys) - {HASH}
            && (keys != [] ==>
                  var n := |keys| - 1;
                  && HASH in v.annotations.value
                  && v.annotations.value[HASH] ==
                     sha(Workload(After(m, sha, keys[..n]), sha, keys[n], m.nodes[keys[n]])))
  {
    hide TouchedServices, TouchedProbes, Workload;
    if keys != [] {
      var n := |keys| - 1;
      var v, spec := After(m, sha, keys[..n]), m.nodes[keys[n]];
      AnnotationsCollect(m, sha, keys[..n]);
      hide After, AnnotatedBy;
      var hash := sha(Workload(v, sha, keys[n], spec));
      SameBesides(v.annotations.value, AnnotatedBy(m, keys[..n]), spec.annotations, HASH, hash);
      AnnotatedLast(m, sha, keys);
    }
  }

  lemma SameBesides(a: Labels, b: Labels, x: Labels, l: string, v: string)
    requires a - {l} == b - {l}
    ensures (a + x[l := v]) - {l} == (b + x) - {l}
  {
    forall k | k != l
      ensures k in a <==> k in b
      ensures k in a ==> a[k] == b[k]
    {
      assert k in a <==> k in a - {l};
      assert k in b <==> k in b - {l};
      assert k in a ==> (a - {l})[k] == a[k];
      assert k in b ==> (b - {l})[k] == b[k];
    }
  }

  lemma AnnotatedLast(m: Druid, sha: Sha, keys: seq<string>)
    requires keys != [] && forall k :: k in keys ==> k in m.nodes
    ensures var n := |keys| - 1;
            var v, spec := After(m, sha, keys[..n]), m.nodes[keys[n]];
            && After(m, sha, keys).annotations ==
               Filled(v.annotations, spec.annotations[HASH := sha(Workload(v, sha, keys[n], spec))])
            && AnnotatedBy(m, keys) == AnnotatedBy(m, keys[..n]) + spec.annotations
  {
    hide TouchedServices, TouchedProbes, Workload, Filled;
  }

  lemma {:induction false} AfterAnnotations(m: Druid, sha: Sha, keys: seq<string>)
    requires forall k :: k in keys ==> k in m.nodes
    ensures After(m, sha, keys).annotations.None? <==> m.annotations.None?
    ensures keys != [] && m.annotations.Some? ==> HASH in After(m, sha, keys).annotations.value
  {
    hide TouchedServices, TouchedProbes, Workload;
    if keys != [] { AfterAnnotations(m, sha, keys[..|keys| - 1]); }
  }

  lemma KeptService(m: Druid, b: string, a: string, i: nat)
    requires a in m.nodes && b in m.nodes && Kept(m, b, a) && i < |m.services|
    requires UsesCluster(m, a) && UsesCluster(m, b)
    ensures ServiceKept(m, m.services[i], b, a)
  {
    hide UsesCluster, ServiceKept, ProbeKept;
  }

  lemma KeptProbe(m: Druid, b: string, a: string, slot: Slot)
    requires a in m.nodes && b in m.nodes && Kept(m, b, a)
    ensures ProbeKept(m, slot, b, a)
  {
    hide ServicesKept, ProbeKept;
  }

  lemma AnnotationsSame(m: Druid, sha: Sha, keys: seq<string>, p: nat)
    requires p < |keys| && (forall k :: k in keys ==> k in m.nodes) && (p > 0 ==> Kept(m, keys[0], keys[p]))
    ensures OrEmpty(After(m, sha, keys[..p]).annotations) == OrEmpty(m.annotations)
  {
    hide ServicesKept, ProbeKept, Visited;
    AfterAnnotations(m, sha, keys[..p]);
  }

  /** In a pass over such a resource every node finds what the user gave. */
  lemma UnsharedVisit(m: Druid, sha: Sha, keys: seq<string>, p: nat)
    requires Unshared(m) && PassOrder(m, keys) && p < |keys| && forall k :: k in keys ==> k in m.nodes
    ensures Harmless(m, After(m, sha, keys[..p]), keys[p])
  {
    hide UsesCluster, LabelsOf, PassOrder, After, Alike, SameService, WorkloadProbes, Kept, MayPrecede, ProbeOf;
    hide ServiceKept, ProbeKept, ProbeFound, PortedBy, ProbeIn;
    var a, v := keys[p], After(m, sha, keys[..p]);
    forall j | 0 <= j < p ensures Kept(m, keys[j], a) { OrderFacts(m, keys, j, p); }
    AfterAlike(m, sha, keys[..p]);
    AfterAnnotations(m, sha, keys[..p]);
    AnnotationsSame(m, sha, keys, p);
    forall slot ensures ProbeFound(m, slot, keys[..p], a) && ProbeIn(v.probes, slot) == PortedBy(m, slot, keys[..p]) {
      AfterProbes(m, sha, keys[..p], slot);
      forall j | 0 <= j < p ensures ProbeKept(m, slot, keys[j], a) { KeptProbe(m, keys[j], a, slot); }
      ProbeSame(m, slot, keys, p);
    }
    ProbesBySlot(m, v, keys[..p], a);
    if UsesCluster(m, a) {
      forall i | 0 <= i < |m.services|
        ensures |v.services| == |m.services| && SameService(m.services[i], v.services[i], LabelsOf(m, a))
      {
        forall j | 0 <= j < p && UsesCluster(m, keys[j]) ensures ServiceKept(m, m.services[i], keys[j], a) {
          KeptService(m, keys[j], a, i);
        }
        ServiceSame(m, sha, keys, p, i);
      }
    }
  }

  /** What a node gets in a pass, by its place in the order. */
  lemma StepsAt(m: Druid, sha: Sha, iter: seq<string>, p: nat)
    requires Enumerates(iter, m.nodes.Keys) && p < |Ordered(m.nodes, iter)|
    ensures var keys := Ordered(m.nodes, iter);
            && PassOrder(m, keys) && (forall k :: k in keys ==> k in m.nodes)
            && StepsIn(m, sha, keys, keys[p]) ==
               NodeSteps(After(m, sha, keys[..p]), sha, keys[p], m.nodes[keys[p]])
  {
    hide Ordered, NodeSteps, Known, NodeRank;
    OrderedVisits(m, iter);
    VisitAt(m, sha, Ordered(m.nodes, iter), p);
  }

  /** A resource whose nodes leave each other alone says itself what its passes desire. */
  lemma UnsharedPlansAsItself(m: Druid, sha: Sha)
    requires Unshared(m)
    ensures PlansAs(m, m, sha)
  {
    hide Unshared, Known, Ordered, NodeSteps, Harmless, StepsIn, ValidSpec, GateOf, NodeRank, After, PassOrder;
    KnownIsNode(m);
    forall iter, key | Enumerates(iter, m.nodes.Keys) && key in KnownKeys(m)
      ensures StepsIn(m, sha, Ordered(m.nodes, iter), key) == NodeSteps(m, sha, key, m.nodes[key])
    {
      var keys := Ordered(m.nodes, iter);
      OrderedVisits(m, iter);
      var p: nat :| p < |keys| && keys[p] == key;
      StepsAt(m, sha, iter, p);
      UnsharedVisit(m, sha, keys, p);
      SameSteps(m, After(m, sha, keys[..p]), sha, key);
    }
  }

  // Necessity

  lemma OneRankOneType(m: Druid, a: string, b: string)
    requires a in KnownKeys(m) && b in KnownKeys(m) && NodeRank(m, a) == NodeRank(m, b)
    ensures m.nodes[a].nodeType == m.nodes[b].nodeType
  {
  }

  /** `b` comes before `a` with only nodes of ranks in between in between. */
  ghost predicate Neighbours(m: Druid, keys: seq<string>, b: string, a: string, j: nat, p: nat) {
    && j < p < |keys| && keys[j] == b && keys[p] == a
    && forall q :: j < q < p ==>
         keys[q] in m.nodes && b in m.nodes && a in m.nodes && NodeRank(m, b) < NodeRank(m, keys[q]) < NodeRank(m, a)
  }

  /** The iteration that keeps `b` and `a` as close as the ranks allow. */
  lemma CloseIteration(m: Druid, b: string, a: string) returns (iter: seq<string>)
    requires MayPrecede(m, b, a)
    ensures Enumerates(iter, m.nodes.Keys)
    ensures NodeRank(m, b) == NodeRank(m, a) ==> forall x :: Before(iter, x, a) ==> x == b
    ensures NodeRank(m, b) == NodeRank(m, a) ==> !Before(iter, a, b)
    ensures NodeRank(m, b) < NodeRank(m, a) ==> forall x :: !Before(iter, x, a) && !Before(iter, b, x)
  {
    hide NodeRank, Known;
    KnownIsNode(m);
    var others := EnumerationExists(m.nodes.Keys - {a, b});
    if NodeRank(m, b) == NodeRank(m, a) {
      iter := [b, a] + others;
    } else {
      iter := [a] + others + [b];
    }
    forall k ensures k in iter <==> k in m.nodes.Keys {
      assert k in others <==> k in m.nodes.Keys - {a, b};
    }
  }

  /** Of two visits the earlier has the lower rank, or the same and comes first in the iteration. */
  lemma VisitPair(m: Druid, iter: seq<string>, i: nat, j: nat)
    requires Enumerates(iter, m.nodes.Keys) && i < j < |Ordered(m.nodes, iter)|
    ensures var keys := Ordered(m.nodes, iter);
            && keys[i] in m.nodes && keys[j] in m.nodes && NodeRank(m, keys[i]) <= NodeRank(m, keys[j])
            && (NodeRank(m, keys[i]) == NodeRank(m, keys[j]) ==> Before(iter, keys[i], keys[j]))
  {
    OrderedIsStableSort(m.nodes, iter);
    OrderedVisits(m, iter);
    hide Ordered, Rank;
    var keys := Ordered(m.nodes, iter);
    assert Before(keys, keys[i], keys[j]) && keys[i] in keys && keys[j] in keys;
    if NodeRank(m, keys[i]) == NodeRank(m, keys[j]) { OneRankOneType(m, keys[i], keys[j]); }
  }

  lemma CloseVisits(m: Druid, b: string, a: string) returns (iter: seq<string>, j: nat, p: nat)
    requires MayPrecede(m, b, a)
    ensures Enumerates(iter, m.nodes.Keys) && forall k :: k in iter ==> k in m.nodes
    ensures Neighbours(m, Ordered(m.nodes, iter), b, a, j, p)
  {
    hide Ordered, NodeRank, Known, Before, NoRepeats;
    iter := CloseIteration(m, b, a);
    OrderedVisits(m, iter);
    var keys := Ordered(m.nodes, iter);
    j :| j < |keys| && keys[j] == b;
    p :| p < |keys| && keys[p] == a;
    if p < j { VisitPair(m, iter, p, j); }
    forall q | j < q < p
      ensures keys[q] in m.nodes && NodeRank(m, b) < NodeRank(m, keys[q]) < NodeRank(m, a)
    {
      VisitPair(m, iter, j, q);
      VisitPair(m, iter, q, p);
      assert keys[q] != b by { DistinctAt(keys, j, q); }
    }
  }

  lemma DistinctAt(keys: seq<string>, i: nat, j: nat)
    requires NoRepeats(keys) && i < j < |keys|
    ensures keys[i] != keys[j]
  {
  }

  lemma ServiceStepIs(m: Druid, sha: Sha, key: string, spec: NodeSpec, i: nat)
    requires i < |ServicesOf(m, spec)|
    ensures var steps := NodeSteps(m, sha, key, spec);
            && 1 + i < |steps| && steps[1 + i].Apply?
            && steps[1 + i].d.body == NodeService(m, key, spec, ServicesOf(m, spec)[i])
  {
    hide NodeService, Workload, ExtraSteps, NodeConfig, Rank, ServicesOf;
    assert NodeSteps(m, sha, key, spec)[1 + i] == ServiceSteps(m, sha, key, spec, ServicesOf(m, spec))[i];
  }

  lemma WorkloadStepAt(m: Druid, sha: Sha, key: string, spec: NodeSpec)
    ensures var steps, k := NodeSteps(m, sha, key, spec), |ServicesOf(m, spec)|;
            1 + k < |steps| && steps[1 + k].Roll? && steps[1 + k].d.body == Workload(m, sha, key, spec)
  {
    hide NodeService, Workload, ExtraSteps, NodeConfig, Rank, ServicesOf;
    assert NodeSteps(m, sha, key, spec)[1 + |ServicesOf(m, spec)|] == RollStep(m, sha, key, spec);
  }

  lemma StepsOfOneNode(m: Druid, n: Druid, sha: Sha, key: string, spec: NodeSpec)
    requires |m.services| == |n.services| && NodeSteps(m, sha, key, spec) == NodeSteps(n, sha, key, spec)
    ensures forall i :: 0 <= i < |ServicesOf(m, spec)| ==>
              NodeService(m, key, spec, ServicesOf(m, spec)[i]) == NodeService(n, key, spec, ServicesOf(n, spec)[i])
    ensures Workload(m, sha, key, spec) == Workload(n, sha, key, spec)
  {
    var k := |ServicesOf(m, spec)|;
    assert |ServicesOf(n, spec)| == k;
    hide NodeSteps, NodeService, Workload, ServicesOf;
    WorkloadStepAt(m, sha, key, spec);
    WorkloadStepAt(n, sha, key, spec);
    forall i | 0 <= i < k
      ensures NodeService(m, key, spec, ServicesOf(m, spec)[i]) == NodeService(n, key, spec, ServicesOf(n, spec)[i])
    {
      ServiceStepIs(m, sha, key, spec, i);
      ServiceStepIs(n, sha, key, spec, i);
    }
  }

  /** The label `b` leaves in the map is still there when `a` uses it. */
  lemma LeftLabel(m: Druid, given: Option<Labels>, keys: seq<string>, b: string, a: string, j: nat, p: nat, l: string)
    requires PassOrder(m, keys) && Neighbours(m, keys, b, a, j, p) && forall k :: k in keys ==> k in m.nodes
    requires given.Some? && Writes(m, b, l) && !Overwritten(m, b, a, l)
    ensures var now := FilledBy(m, given, keys[..p]).value; l in now && now[l] == LabelsOf(m, b)[l]
  {
    hide LabelsOf, UsesCluster, NodeRank, Known, FilledBy;
    forall q | j < q < |keys[..p]| ensures !Writes(m, keys[..p][q], l) { assert keys[q] in keys; }
    LastWrite(m, given, keys[..p], j, l);
  }

  lemma SameMapKept(m: Druid, given: Option<Labels>, keys: seq<string>, b: string, a: string, j: nat, p: nat)
    requires PassOrder(m, keys) && Neighbours(m, keys, b, a, j, p) && forall k :: k in keys ==> k in m.nodes
    requires UsesCluster(m, b)
    requires OrEmpty(FilledBy(m, given, keys[..p])) + LabelsOf(m, a) == OrEmpty(given) + LabelsOf(m, a)
    ensures MapKept(m, given, b, a)
  {
    hide LabelsOf, UsesCluster, PassOrder, Neighbours, Overwritten, FilledBy;
    NeighbourNodes(m, keys, b, a, j, p);
    if given.Some? {
      forall l | l in LabelsOf(m, b) && l !in LabelsOf(m, a) && !Overwritten(m, b, a, l)
        ensures l in given.value && given.value[l] == LabelsOf(m, b)[l]
      {
        LeftLabel(m, given, keys, b, a, j, p, l);
        var now := FilledBy(m, given, keys[..p]).value;
        assert l in now + LabelsOf(m, a) && (now + LabelsOf(m, a))[l] == now[l];
      }
    }
  }

  lemma NeighbourNodes(m: Druid, keys: seq<string>, b: string, a: string, j: nat, p: nat)
    requires Neighbours(m, keys, b, a, j, p) && forall k :: k in keys ==> k in m.nodes
    ensures j < p < |keys| && a in m.nodes && b in m.nodes && b in keys[..p]
  {
    assert keys[j] in keys && keys[p] in keys && keys[..p][j] == b;
  }

  lemma SameServiceKept(m: Druid, sha: Sha, keys: seq<string>, b: string, a: string, j: nat, p: nat, i: nat)
    requires PassOrder(m, keys) && Neighbours(m, keys, b, a, j, p) && forall k :: k in keys ==> k in m.nodes
    requires OwnAnnotation(m) && i < |m.services| && UsesCluster(m, b)
    requires var v := After(m, sha, keys[..p]);
             && |v.services| == |m.services|
             && NodeService(v, a, m.nodes[a], v.services[i]) == NodeService(m, a, m.nodes[a], m.services[i])
    ensures ServiceKept(m, m.services[i], b, a)
  {
    hide NodeLabels, UsesCluster, PassOrder, Neighbours, MapKept, After, FilledBy, PortsOf, Alike;
    NeighbourNodes(m, keys, b, a, j, p);
    var v := After(m, sha, keys[..p]);
    AfterAlike(m, sha, keys[..p]);
    AlikeLabels(m, v, a, m.nodes[a]);
    AfterMaps(m, sha, keys[..p], i);
    SameMapKept(m, m.services[i].labels, keys, b, a, j, p);
    SameMapKept(m, m.services[i].selector, keys, b, a, j, p);
    if m.services[i].annotations.Some? { AfterServiceHash(m, sha, keys[..p], i, b); }
  }

  lemma SameProbeKept(m: Druid, slot: Slot, keys: seq<string>, j: nat, p: nat)
    requires j < p < |keys| && forall k :: k in keys ==> k in m.nodes
    requires ProbeFound(m, slot, keys[..j], keys[j]) && ProbeFound(m, slot, keys[..p], keys[p])
    ensures ProbeKept(m, slot, keys[j], keys[p])
  {
    hide ProbeIn, OwnProbe;
    if GivesPort(m, slot, keys[j]) && OwnProbe(m, keys[p], slot).None? {
      assert keys[..j + 1][..j] == keys[..j] && keys[..p][..j + 1] == keys[..j + 1];
      assert PortedBy(m, slot, keys[..j + 1]) == WithPort(ProbeIn(m.probes, slot), m.nodes[keys[j]].port);
      PortStays(m, slot, keys[..p], j + 1);
    }
  }

  /** In such a pass the node at `p` gets what it would get on its own. */
  lemma PureVisit(m: Druid, sha: Sha, iter: seq<string>, p: nat)
    requires PlansAs(m, m, sha) && Enumerates(iter, m.nodes.Keys) && p < |Ordered(m.nodes, iter)|
    ensures var keys := Ordered(m.nodes, iter);
            && PassOrder(m, keys) && (forall k :: k in keys ==> k in m.nodes)
            && |After(m, sha, keys[..p]).services| == |m.services|
            && NodeSteps(After(m, sha, keys[..p]), sha, keys[p], m.nodes[keys[p]]) ==
               NodeSteps(m, sha, keys[p], m.nodes[keys[p]])
  {
    hide Ordered, NodeSteps, Known, StepsIn, After, VisitOrder, ValidSpec, GateOf;
    StepsAt(m, sha, iter, p);
    var keys := Ordered(m.nodes, iter);
    OrderedVisits(m, iter);
    assert keys[p] in keys;
    AfterAlike(m, sha, keys[..p]);
  }

  lemma PureProbes(m: Druid, sha: Sha, keys: seq<string>, p: nat)
    requires p < |keys| && forall k :: k in keys ==> k in m.nodes
    requires var v := After(m, sha, keys[..p]);
             Workload(v, sha, keys[p], m.nodes[keys[p]]) == Workload(m, sha, keys[p], m.nodes[keys[p]])
    ensures forall slot :: ProbeFound(m, slot, keys[..p], keys[p])
  {
    hide WorkloadProbes, WorkloadEnv, FirstServiceName, NodeLabels, After, PortedBy, ProbeFound, ProbeIn;
    var v := After(m, sha, keys[..p]);
    forall slot ensures ProbeIn(v.probes, slot) == PortedBy(m, slot, keys[..p]) {
      AfterProbes(m, sha, keys[..p], slot);
    }
    ProbesBySlot(m, v, keys[..p], keys[p]);
  }

  lemma PureAnnotations(m: Druid, sha: Sha, keys: seq<string>, p: nat)
    requires OwnAnnotation(m) && 0 < p < |keys| && forall k :: k in keys ==> k in m.nodes
    requires var v := After(m, sha, keys[..p]);
             Workload(v, sha, keys[p], m.nodes[keys[p]]) == Workload(m, sha, keys[p], m.nodes[keys[p]])
    ensures m.annotations.None?
  {
    hide WorkloadProbes, WorkloadEnv, FirstServiceName, NodeLabels, After;
    AfterAnnotations(m, sha, keys[..p]);
    assert keys[p] in keys;
  }

  lemma PureMeansKept(m: Druid, sha: Sha, b: string, a: string)
    requires OwnAnnotation(m) && PlansAs(m, m, sha) && MayPrecede(m, b, a)
    ensures Kept(m, b, a)
  {
    hide *;
    var iter, j, p := CloseVisits(m, b, a);
    var keys := Ordered(m.nodes, iter);
    NeighbourPlaces(m, keys, b, a, j, p);
    PureVisit(m, sha, iter, j);
    PureVisit(m, sha, iter, p);
    StepsOfOneNode(After(m, sha, keys[..j]), m, sha, b, m.nodes[b]);
    StepsOfOneNode(After(m, sha, keys[..p]), m, sha, a, m.nodes[a]);
    PureProbes(m, sha, keys, j);
    PureProbes(m, sha, keys, p);
    PureAnnotations(m, sha, keys, p);
    PureServices(m, sha, keys, b, a, j, p);
    forall slot ensures ProbeKept(m, slot, b, a) { SameProbeKept(m, slot, keys, j, p); }
    KeptOf(m, b, a);
  }

  lemma NeighbourPlaces(m: Druid, keys: seq<string>, b: string, a: string, j: nat, p: nat)
    requires Neighbours(m, keys, b, a, j, p)
    ensures j < p < |keys| && keys[j] == b && keys[p] == a
  {
    hide NodeRank;
  }

  lemma KeptOf(m: Druid, b: string, a: string)
    requires a in m.nodes && b in m.nodes && m.annotations.None? && ServicesKept(m, b, a)
    requires forall slot :: ProbeKept(m, slot, b, a)
    ensures Kept(m, b, a)
  {
    hide ServicesKept, ProbeKept;
  }

  lemma PureServices(m: Druid, sha: Sha, keys: seq<string>, b: string, a: string, j: nat, p: nat)
    requires PassOrder(m, keys) && Neighbours(m, keys, b, a, j, p) && forall k :: k in keys ==> k in m.nodes
    requires OwnAnnotation(m)
    requires var v := After(m, sha, keys[..p]);
             && |v.services| == |m.services|
             && forall i :: 0 <= i < |ServicesOf(v, m.nodes[a])| ==>
                  NodeService(v, a, m.nodes[a], ServicesOf(v, m.nodes[a])[i]) ==
                  NodeService(m, a, m.nodes[a], ServicesOf(m, m.nodes[a])[i])
    ensures a in m.nodes && b in m.nodes && ServicesKept(m, b, a)
  {
    hide NodeService, PassOrder, Neighbours, OwnAnnotation, ServiceKept, After;
    NeighbourNodes(m, keys, b, a, j, p);
    if UsesCluster(m, a) && UsesCluster(m, b) {
      forall i | 0 <= i < |m.services| ensures ServiceKept(m, m.services[i], b, a) {
        assert ServicesOf(m, m.nodes[a])[i] == m.services[i];
        SameServiceKept(m, sha, keys, b, a, j, p, i);
      }
    }
  }

  /** Every pass gives each node the objects it would get on its own, exactly if no node changes what a
      later one gets. */
  lemma PureExactly(m: Druid, sha: Sha)
    requires OwnAnnotation(m)
    ensures PlansAs(m, m, sha) <==> Unshared(m)
  {
    if Unshared(m) { UnsharedPlansAsItself(m, sha); }
    if PlansAs(m, m, sha) {
      hide PlansAs, MayPrecede, Kept, OwnAnnotation;
      forall a, b | MayPrecede(m, b, a) ensures Kept(m, b, a) { PureMeansKept(m, sha, b, a); }
    }
  }

  // The failing family

  /** A label that only `b` writes into a cluster-level map that did not have it reaches `a` in some pass. */
  predicate Leaks(m: Druid, b: string, a: string, i: nat, l: string) {
    && MayPrecede(m, b, a) && i < |m.services| && m.services[i].labels.Some? && l !in m.services[i].labels.value
    && UsesCluster(m, a) && Writes(m, b, l) && l !in LabelsOf(m, a) && !Overwritten(m, b, a, l)
  }

  lemma LeakedIntoService(m: Druid, sha: Sha, keys: seq<string>, p: nat, i: nat, l: string)
    requires p < |keys| && i < |m.services| && m.services[i].labels.Some? && forall k :: k in keys ==> k in m.nodes
    requires l !in LabelsOf(m, keys[p]) && UsesCluster(m, keys[p])
    ensures var v := After(m, sha, keys[..p]);
            && |v.services| == |m.services|
            && (l in NodeService(v, keys[p], m.nodes[keys[p]], v.services[i]).labels <==>
                l in FilledBy(m, m.services[i].labels, keys[..p]).value)
  {
    hide NodeLabels, UsesCluster, After, FilledBy, PortsOf, Alike;
    var v := After(m, sha, keys[..p]);
    AfterAlike(m, sha, keys[..p]);
    AlikeLabels(m, v, keys[p], m.nodes[keys[p]]);
    AfterMaps(m, sha, keys[..p], i);
  }

  /** The service `i` of the node `a` as a pass applies it has the label `l`. */
  ghost predicate ServiceHas(m: Druid, sha: Sha, iter: seq<string>, a: string, i: nat, l: string)
    requires Enumerates(iter, m.nodes.Keys) && a in m.nodes
  {
    var steps := StepsIn(m, sha, Ordered(m.nodes, iter), a);
    1 + i < |steps| && steps[1 + i].Apply? && l in steps[1 + i].d.body.labels
  }

  lemma ServiceHasAt(m: Druid, sha: Sha, iter: seq<string>, p: nat, i: nat, l: string)
    requires Enumerates(iter, m.nodes.Keys) && p < |Ordered(m.nodes, iter)|
    requires i < |m.services| && m.services[i].labels.Some?
    requires var a := Ordered(m.nodes, iter)[p]; a in m.nodes && UsesCluster(m, a) && l !in LabelsOf(m, a)
    ensures var keys := Ordered(m.nodes, iter);
            && (forall k :: k in keys ==> k in m.nodes)
            && (ServiceHas(m, sha, iter, keys[p], i, l) <==> l in FilledBy(m, m.services[i].labels, keys[..p]).value)
  {
    hide Ordered, NodeSteps, StepsIn, After, FilledBy, LabelsOf, PassOrder, NodeService;
    StepsAt(m, sha, iter, p);
    var keys := Ordered(m.nodes, iter);
    LeakedIntoService(m, sha, keys, p, i, l);
    ServiceStepIs(After(m, sha, keys[..p]), sha, keys[p], m.nodes[keys[p]], i);
  }

  lemma LabelLeaks(m: Druid, sha: Sha, b: string, a: string, i: nat, l: string) returns (iter: seq<string>)
    requires Leaks(m, b, a, i, l)
    ensures Enumerates(iter, m.nodes.Keys) && ServiceHas(m, sha, iter, a, i, l)
    ensures l !in NodeService(m, a, m.nodes[a], m.services[i]).labels
  {
    hide Ordered, ServiceHas, FilledBy, LabelsOf, Overwritten, PassOrder, Known, NodeRank;
    var j, p;
    iter, j, p := CloseVisits(m, b, a);
    var keys := Ordered(m.nodes, iter);
    NeighbourPlaces(m, keys, b, a, j, p);
    KnownIsNode(m);
    ServiceHasAt(m, sha, iter, p, i, l);
    StepsAt(m, sha, iter, p);
    LeftLabel(m, m.services[i].labels, keys, b, a, j, p, l);
    assert l !in NodeService(m, a, m.nodes[a], m.services[i]).labels by { OwnLabels(m, a, i, l); }
  }

  lemma OwnLabels(m: Druid, a: string, i: nat, l: string)
    requires a in m.nodes && i < |m.services| && m.services[i].labels.Some?
    requires l !in m.services[i].labels.value && l !in LabelsOf(m, a)
    ensures l !in NodeService(m, a, m.nodes[a], m.services[i]).labels
  {
    hide NodeLabels;
  }

  /** An iteration in which only nodes of lower ranks are visited before `a`. */
  lemma EarlyIteration(m: Druid, a: string) returns (iter: seq<string>, p: nat)
    requires a in KnownKeys(m)
    ensures Enumerates(iter, m.nodes.Keys) && p < |Ordered(m.nodes, iter)| && Ordered(m.nodes, iter)[p] == a
    ensures a in m.nodes && forall q :: 0 <= q < p ==>
              Ordered(m.nodes, iter)[q] in m.nodes && NodeRank(m, Ordered(m.nodes, iter)[q]) < NodeRank(m, a)
  {
    hide Ordered, NodeRank, Known;
    KnownIsNode(m);
    var others := EnumerationExists(m.nodes.Keys - {a});
    iter := [a] + others;
    forall k ensures k in iter <==> k in m.nodes.Keys { assert k in others <==> k in m.nodes.Keys - {a}; }
    OrderedVisits(m, iter);
    var keys := Ordered(m.nodes, iter);
    p :| p < |keys| && keys[p] == a;
    forall q | 0 <= q < p ensures keys[q] in m.nodes && NodeRank(m, keys[q]) < NodeRank(m, a) {
      VisitPair(m, iter, q, p);
    }
  }

  /** If the two nodes are of one type and no node of a lower one writes the label, two iterations of one
      resource plan different objects. */
  lemma IterationsDiffer(m: Druid, sha: Sha, b: string, a: string, i: nat, l: string)
    requires Leaks(m, b, a, i, l) && NodeRank(m, b) == NodeRank(m, a)
    requires forall c :: c in KnownKeys(m) && NodeRank(m, c) < NodeRank(m, a) ==> !Writes(m, c, l)
    ensures !OrderFree(m, sha)
  {
    hide Ordered, StepsIn, FilledBy, LabelsOf, Overwritten, PassOrder, Known, NodeRank;
    var iter1 := LabelLeaks(m, sha, b, a, i, l);
    var iter2, p := EarlyIteration(m, a);
    NotLeaked(m, sha, iter2, p, i, l);
    assert StepsIn(m, sha, Ordered(m.nodes, iter1), a) != StepsIn(m, sha, Ordered(m.nodes, iter2), a);
  }

  lemma NotLeaked(m: Druid, sha: Sha, iter: seq<string>, p: nat, i: nat, l: string)
    requires Enumerates(iter, m.nodes.Keys) && p < |Ordered(m.nodes, iter)|
    requires i < |m.services| && m.services[i].labels.Some? && l !in m.services[i].labels.value
    requires var a := Ordered(m.nodes, iter)[p];
             && a in m.nodes && UsesCluster(m, a) && l !in LabelsOf(m, a)
             && (forall c :: c in KnownKeys(m) && NodeRank(m, c) < NodeRank(m, a) ==> !Writes(m, c, l))
             && forall q :: 0 <= q < p ==>
                  Ordered(m.nodes, iter)[q] in m.nodes && NodeRank(m, Ordered(m.nodes, iter)[q]) < NodeRank(m, a)
    ensures !ServiceHas(m, sha, iter, Ordered(m.nodes, iter)[p], i, l)
  {
    hide Ordered, ServiceHas, FilledBy, LabelsOf, Known, NodeRank;
    OrderedVisits(m, iter);
    var keys := Ordered(m.nodes, iter);
    ServiceHasAt(m, sha, iter, p, i, l);
    forall k | k in keys[..p] ensures k in m.nodes && !Writes(m, k, l) {
      var q :| 0 <= q < p && keys[..p][q] == k;
      assert keys[q] in keys;
    }
    NeverWritten(m, m.services[i].labels, keys[..p], l);
  }
}
