/** Orphan claims are marked with labels first and deleted when the mark is 60 seconds old. */
module OrphanPvc {
  import opened Basics
  import opened Clock

  const TO_BE_DELETED := "toBeDeleted"
  const DELETION_TS := "deletionTS"
  const GRACE := 60

  type Labels = map<string, string>

  /** The cluster's claims by name, with their labels. */
  type Claims = map<string, Labels>

  datatype Pod = Pod(phase: string, conditions: seq<string>, claimNames: seq<string>)

  /** What one sweep sees: listed pods and claims, the clock at each claim, and which writes fail. */
  datatype Sweep = Sweep(listFails: bool, pods: seq<Pod>, listing: seq<string>, now: nat -> int,
        writeFails: set<string>)

  // The gate and the mounted claims

  predicate PodHealthy(p: Pod) {
    p.phase == "Running" && forall i :: 0 <= i < |p.conditions| ==> p.conditions[i] == "True"
  }

  predicate AllHealthy(pods: seq<Pod>) { forall i :: 0 <= i < |pods| ==> PodHealthy(pods[i]) }

  /** Some listed pod has a volume for this claim, whatever the pod's phase. */
  predicate Referenced(pods: seq<Pod>, claim: string) {
    exists i :: 0 <= i < |pods| && claim in pods[i].claimNames
  }

  method HealthGate(pods: seq<Pod>) returns (open: bool)
    ensures open == AllHealthy(pods)
  {
    for i := 0 to |pods|
      invariant forall j :: 0 <= j < i ==> PodHealthy(pods[j])
    {
      if pods[i].phase != "Running" { return false; }
      for c := 0 to |pods[i].conditions|
        invariant forall j :: 0 <= j < c ==> pods[i].conditions[j] == "True"
      {
        if pods[i].conditions[c] != "True" { return false; }
      }
    }
    return true;
  }

  /** The list starts with one empty name per pod and skips pending pods; past the gate it holds the
      empty name, if there is a pod, and exactly the referenced claims. */
  method MountedClaims(pods: seq<Pod>) returns (mounted: seq<string>)
    requires AllHealthy(pods)
    ensures forall x :: x in mounted <==> Referenced(pods, x) || (x == "" && pods != [])
  {
    mounted := seq(|pods|, _ => "");
    assert pods != [] ==> mounted[0] == "";
    for i := 0 to |pods|
      invariant forall x :: x in mounted <==> Referenced(pods[..i], x) || (x == "" && pods != [])
    {
      var pod := pods[i];
      ghost var before := mounted;
      for v := 0 to |pod.claimNames|
        invariant forall x :: x in mounted <==> x in before || x in pod.claimNames[..v]
      {
        var name := pod.claimNames[v];
        assert pod.claimNames[..v + 1] == pod.claimNames[..v] + [name];
        if pod.phase != "Pending" {
          if name !in mounted { mounted := mounted + [name]; }
        }
      }
      assert pod.claimNames[..|pod.claimNames|] == pod.claimNames;
      ReferencedOneMore(pods, i);
    }
    assert pods[..|pods|] == pods;
  }

  lemma ReferencedOneMore(pods: seq<Pod>, i: nat)
    requires i < |pods|
    ensures forall x :: Referenced(pods[..i + 1], x) <==> Referenced(pods[..i], x) || x in pods[i].claimNames
  {
    forall x ensures Referenced(pods[..i + 1], x) <==> Referenced(pods[..i], x) || x in pods[i].claimNames {
      if Referenced(pods[..i], x) {
        var j :| 0 <= j < i && x in pods[..i][j].claimNames;
        assert x in pods[..i + 1][j].claimNames;
      }
      if x in pods[i].claimNames { assert x in pods[..i + 1][i].claimNames; }
      if Referenced(pods[..i + 1], x) {
        var j :| 0 <= j < i + 1 && x in pods[..i + 1][j].claimNames;
        if j < i { assert x in pods[..i][j].claimNames; }
      }
    }
  }

  // One claim

  datatype Effect = Keep | Relabel(labels: Labels) | Remove | Abort

  function Marked(labels: Labels, now: int): Labels {
    labels[TO_BE_DELETED := "yes"][DELETION_TS := FormatInt(now)]
  }

  function Unmarked(labels: Labels): Labels { labels - {TO_BE_DELETED, DELETION_TS} }

  /** Taking the mark off restores the labels from before it. */
  lemma UnmarkUndoesMark(labels: Labels, now: int)
    requires TO_BE_DELETED !in labels && DELETION_TS !in labels
    ensures Unmarked(Marked(labels, now)) == labels
    ensures forall k :: k != TO_BE_DELETED && k != DELETION_TS ==>
              (k in Marked(labels, now) <==> k in labels) && (k in labels ==> Marked(labels, now)[k] == labels[k])
  {
    hide FormatInt;
    assert TO_BE_DELETED != DELETION_TS;
  }

  function TimestampOf(labels: Labels): Option<int> {
    ParseInt(if DELETION_TS in labels then labels[DELETION_TS] else "")
  }

  /** What the sweep does with one claim; a failed write or an unreadable timestamp ends the sweep. */
  function Examine(mounted: bool, labels: Labels, now: int, fails: bool): Effect {
    if mounted then
      if TO_BE_DELETED !in labels then Keep
      else if fails then Abort else Relabel(Unmarked(labels))
    else if TO_BE_DELETED in labels then
      match TimestampOf(labels)
      case None => Abort
      case Some(ts) =>
        if TimeDifference(ts, now) < GRACE then Keep
        else if fails then Abort else Remove
    else if fails then Abort else Relabel(Marked(labels, now))
  }

  function Apply(claims: Claims, name: string, e: Effect): Claims {
    match e
    case Relabel(labels) => claims[name := labels]
    case Remove => claims - {name}
    case _ => claims
  }

  // A sweep

  ghost predicate ValidSweep(s: Sweep, claims: Claims) {
    && NoRepeats(s.listing) && (forall n :: n in s.listing ==> n in claims && n != "")
    && (forall i: nat :: i < |s.listing| ==> InRange(s.now(i)))
  }

  function EffectAt(s: Sweep, claims: Claims, i: nat): Effect
    requires i < |s.listing|
  {
    var n := s.listing[i];
    if n !in claims then Keep else Examine(Referenced(s.pods, n), claims[n], s.now(i), n in s.writeFails)
  }

  function SweepFrom(s: Sweep, i: nat, claims: Claims): (Claims, bool)
    decreases |s.listing| - i
  {
    if i >= |s.listing| then (claims, true) else
      var e := EffectAt(s, claims, i);
      if e.Abort? then (claims, false) else SweepFrom(s, i + 1, Apply(claims, s.listing[i], e))
  }

  /** Claims after the sweep, and whether it ended without an error. */
  function AfterSweep(s: Sweep, claims: Claims): (Claims, bool) {
    if s.listFails then (claims, false) else if !AllHealthy(s.pods) then (claims, true) else SweepFrom(s, 0, claims)
  }

  class ClaimStore {
    var claims: Claims

    method CheckPvcLabelsAndDelete(name: string, now: int, fails: bool) returns (ok: bool)
      requires name in claims && TO_BE_DELETED in claims[name]
      modifies this
      ensures ok == !Examine(false, old(claims)[name], now, fails).Abort?
      ensures claims == Apply(old(claims), name, Examine(false, old(claims)[name], now, fails))
      ensures name !in claims <==>
              var ts := TimestampOf(old(claims)[name]); ts.Some? && TimeDifference(ts.value, now) >= 60 && !fails
    {
      var labels := claims[name];
      var ts := ParseInt(if DELETION_TS in labels then labels[DELETION_TS] else "");
      if ts.None? { return false; }
      var diff := TimeDifference(ts.value, now);
      if diff >= GRACE {
        if fails { return false; }
        claims := claims - {name};
      }
      return true;
    }

    method SetPvcLabels(name: string, labels: Labels, fails: bool) returns (ok: bool)
      modifies this
      ensures ok == !fails
      ensures claims == if fails then old(claims) else old(claims)[name := labels]
    {
      if fails { return false; }
      claims := claims[name := labels];
      return true;
    }

    method DeleteOrphanPvc(s: Sweep) returns (ok: bool)
      requires ValidSweep(s, claims)
      modifies this
      ensures (claims, ok) == AfterSweep(s, old(claims))
      ensures claims.Keys <= old(claims).Keys && forall n :: n in old(claims) && Referenced(s.pods, n) ==> n in claims
    {
      hide TimeDifference, ParseInt, FormatInt, Referenced;
      if s.listFails { return false; }
      var open := HealthGate(s.pods);
      if !open { return true; }
      var mounted := MountedClaims(s.pods);
      ghost var whole := SweepFrom(s, 0, claims);
      for i := 0 to |s.listing|
        invariant SweepFrom(s, i, claims) == whole
        invariant forall j :: i <= j < |s.listing| ==> s.listing[j] in claims
        invariant claims.Keys <= old(claims).Keys
        invariant forall n :: n in old(claims) && Referenced(s.pods, n) ==> n in claims
      {
        var name := s.listing[i];
        var labels, now, fails := claims[name], s.now(i), name in s.writeFails;
        if name !in mounted {
          if TO_BE_DELETED in labels {
            ok := CheckPvcLabelsAndDelete(name, now, fails);
            if !ok { return; }
          } else {
            labels := labels[TO_BE_DELETED := "yes"];
            labels := labels[DELETION_TS := FormatInt(now)];
            ok := SetPvcLabels(name, labels, fails);
            if !ok { return; }
          }
        } else {
          if TO_BE_DELETED in labels {
            labels := labels - {TO_BE_DELETED};
            labels := labels - {DELETION_TS};
            assert labels == Unmarked(claims[name]);
            ok := SetPvcLabels(name, labels, fails);
            if !ok { return; }
          }
        }
      }
      return true;
    }
  }

  // What a sweep does to one claim

  function Lookup(claims: Claims, n: string): Option<Labels> {
    if n in claims then Some(claims[n]) else None
  }

  function Outcome(e: Effect, labels: Labels): Option<Labels> {
    match e
    case Relabel(l) => Some(l)
    case Remove => None
    case _ => Some(labels)
  }

  /** The mark can be read and is at least 60 seconds old. */
  predicate Expired(labels: Labels, now: int) {
    TimestampOf(labels).Some? && TimeDifference(TimestampOf(labels).value, now) >= 60
  }

  /** The claim ends the sweep: the write it asks for fails, or its mark cannot be read. */
  predicate EndsSweep(s: Sweep, claims: Claims, k: nat)
    requires k < |s.listing|
  {
    var n := s.listing[k];
    n in claims &&
    var mounted, marked, fails := Referenced(s.pods, n), TO_BE_DELETED in claims[n], n in s.writeFails;
    || (mounted == marked && fails)
    || (!mounted && marked && (TimestampOf(claims[n]).None? || (Expired(claims[n], s.now(k)) && fails)))
  }

  lemma AbortsExactly(s: Sweep, claims: Claims, k: nat)
    requires k < |s.listing|
    ensures EffectAt(s, claims, k).Abort? <==> EndsSweep(s, claims, k)
  {
    hide Referenced, TimeDifference, ParseInt, FormatInt;
  }

  /** The sweep gets to the listed claim `j` and finds it to be `n`. */
  predicate ExaminedAt(s: Sweep, claims: Claims, n: string, j: nat) {
    && !s.listFails && AllHealthy(s.pods)
    && j < |s.listing| && s.listing[j] == n && n in claims
    && forall k: nat :: k < j ==> !EndsSweep(s, claims, k)
  }

  lemma OtherEffectsUntouched(s: Sweep, claims: Claims, i: nat, k: nat, e: Effect)
    requires NoRepeats(s.listing) && i < k < |s.listing|
    ensures EffectAt(s, Apply(claims, s.listing[i], e), k) == EffectAt(s, claims, k)
  {
    hide Examine, Referenced;
    assert s.listing[i] != s.listing[k];
  }

  lemma {:induction false} UnlistedUntouched(s: Sweep, i: nat, claims: Claims, n: string)
    requires i <= |s.listing| && n !in s.listing[i..]
    ensures Lookup(SweepFrom(s, i, claims).0, n) == Lookup(claims, n)
    decreases |s.listing| - i
  {
    hide Examine, Referenced;
    if i < |s.listing| {
      var m, e := s.listing[i], EffectAt(s, claims, i);
      assert s.listing[i..] == [m] + s.listing[i + 1..];
      hide EffectAt;
      if !e.Abort? { UnlistedUntouched(s, i + 1, Apply(claims, m, e), n); }
    }
  }

  /** No claim from `i` up to `j` ends the sweep. */
  ghost predicate NoAbort(s: Sweep, claims: Claims, i: nat, j: nat)
    requires j <= |s.listing|
  {
    forall k: nat :: i <= k < j ==> !EffectAt(s, claims, k).Abort?
  }

  lemma NoAbortExactly(s: Sweep, claims: Claims, j: nat)
    requires j <= |s.listing|
    ensures NoAbort(s, claims, 0, j) <==> forall k: nat :: k < j ==> !EndsSweep(s, claims, k)
  {
    hide EffectAt, EndsSweep;
    forall k: nat | k < j ensures EffectAt(s, claims, k).Abort? <==> EndsSweep(s, claims, k) {
      AbortsExactly(s, claims, k);
    }
  }

  lemma {:induction false} ListedEffect(s: Sweep, i: nat, claims: Claims, j: nat)
    requires NoRepeats(s.listing) && i <= j < |s.listing| && s.listing[j] in claims
    ensures var n := s.listing[j];
            Lookup(SweepFrom(s, i, claims).0, n) ==
            if NoAbort(s, claims, i, j) then Outcome(EffectAt(s, claims, j), claims[n]) else Some(claims[n])
    decreases j - i
  {
    var m, e := s.listing[i], EffectAt(s, claims, i);
    var next := Apply(claims, m, e);
    assert s.listing[i..] == [m] + s.listing[i + 1..];
    assert m !in s.listing[i + 1..];
    if i == j {
      hide EffectAt;
      if !e.Abort? { UnlistedUntouched(s, i + 1, next, m); }
    } else if !e.Abort? {
      forall k: nat | i < k < |s.listing| ensures EffectAt(s, next, k) == EffectAt(s, claims, k) {
        OtherEffectsUntouched(s, claims, i, k, e);
      }
      hide EffectAt;
      assert NoAbort(s, next, i + 1, j) <==> NoAbort(s, claims, i, j);
      ListedEffect(s, i + 1, next, j);
    } else {
      assert !NoAbort(s, claims, i, j);
    }
  }

  /** An examined claim undergoes its own effect; a claim that is not examined is left alone. */
  lemma SweepEffect(s: Sweep, claims: Claims, n: string)
    requires NoRepeats(s.listing) && n in claims
    ensures var after := AfterSweep(s, claims).0;
            && (forall j :: ExaminedAt(s, claims, n, j) ==>
                  Lookup(after, n) == Outcome(EffectAt(s, claims, j), claims[n]))
            && ((forall j :: !ExaminedAt(s, claims, n, j)) ==> Lookup(after, n) == Lookup(claims, n))
  {
    if !s.listFails && AllHealthy(s.pods) {
      assert s.listing[0..] == s.listing;
      hide EffectAt, SweepFrom, AllHealthy, EndsSweep;
      if n in s.listing {
        var j: nat :| j < |s.listing| && s.listing[j] == n;
        ListedEffect(s, 0, claims, j);
        NoAbortExactly(s, claims, j);
        assert ExaminedAt(s, claims, n, j) <==> NoAbort(s, claims, 0, j);
      } else {
        UnlistedUntouched(s, 0, claims, n);
      }
    }
  }

  lemma ExaminedOnce(s: Sweep, claims: Claims, n: string, i: nat, j: nat)
    requires NoRepeats(s.listing) && ExaminedAt(s, claims, n, i) && ExaminedAt(s, claims, n, j)
    ensures i == j
  {
    hide EndsSweep, AllHealthy;
  }

  /** The labels differ at most in the two that make up the mark. */
  ghost predicate SameForeign(a: Labels, b: Labels) {
    forall k :: k != TO_BE_DELETED && k != DELETION_TS ==> (k in a <==> k in b) && (k in a ==> a[k] == b[k])
  }

  /** The labels carry a mark set at time `t`. */
  predicate MarkedAt(labels: Labels, t: int) {
    TO_BE_DELETED in labels && labels[TO_BE_DELETED] == "yes" && TimestampOf(labels) == Some(t)
  }

  /** What a sweep makes of a claim it examines. A mounted claim loses its mark and nothing else; an
      unmounted one gets a mark with the time and nothing else; one whose mark is 60 seconds old goes;
      and in every other case, or if the write fails, the claim stays as it is. */
  lemma ExaminedExactly(s: Sweep, claims: Claims, n: string, j: nat)
    requires ValidSweep(s, claims) && ExaminedAt(s, claims, n, j)
    ensures var labels, t, after := claims[n], s.now(j), AfterSweep(s, claims).0;
            var mounted, marked := exists p :: 0 <= p < |s.pods| && n in s.pods[p].claimNames, TO_BE_DELETED in labels;
            if n in s.writeFails then n in after && after[n] == labels
            else if mounted
            then n in after && after[n] == if marked then labels - {TO_BE_DELETED, DELETION_TS} else labels
            else if !marked then n in after && MarkedAt(after[n], t) && SameForeign(labels, after[n])
            else if Expired(labels, t) then n !in after
            else n in after && after[n] == labels
  {
    SweepEffect(s, claims, n);
    hide AfterSweep, TimeDifference, ParseInt, FormatInt, AllHealthy;
    assert EffectAt(s, claims, j) == Examine(Referenced(s.pods, n), claims[n], s.now(j), n in s.writeFails);
    ParseOfFormat(s.now(j));
  }

  /** No sweep touches a label that is not its own. */
  lemma ForeignLabelsKept(s: Sweep, claims: Claims, n: string)
    requires ValidSweep(s, claims) && n in claims && n in AfterSweep(s, claims).0
    ensures SameForeign(claims[n], AfterSweep(s, claims).0[n])
  {
    SweepEffect(s, claims, n);
    hide AfterSweep, ExaminedAt, TimestampOf;
    if j: nat :| ExaminedAt(s, claims, n, j) { ExaminedExactly(s, claims, n, j); }
  }

  /** The pod is not running, or one of its conditions is not true. */
  predicate Unhealthy(pod: Pod) {
    pod.phase != "Running" || exists c :: 0 <= c < |pod.conditions| && pod.conditions[c] != "True"
  }

  /** A sweep ends without an error exactly if the lists succeed and some pod is not running with all its
      conditions true, or no listed claim ends it; in the first of these cases, and if a list fails, it
      changes nothing. */
  lemma SweepOutcome(s: Sweep, claims: Claims)
    requires NoRepeats(s.listing)
    ensures var (after, ok) := AfterSweep(s, claims);
            var closed := exists p :: 0 <= p < |s.pods| && Unhealthy(s.pods[p]);
            && (s.listFails || closed ==> after == claims)
            && (ok <==> !s.listFails && (closed || forall k: nat :: k < |s.listing| ==> !EndsSweep(s, claims, k)))
  {
    assert forall p :: 0 <= p < |s.pods| ==> (Unhealthy(s.pods[p]) <==> !PodHealthy(s.pods[p]));
    if !s.listFails && AllHealthy(s.pods) {
      NoAbortExactly(s, claims, |s.listing|);
      hide EndsSweep, EffectAt;
      SweepFromOk(s, 0, claims);
    }
  }

  lemma {:induction false} SweepFromOk(s: Sweep, i: nat, claims: Claims)
    requires NoRepeats(s.listing) && i <= |s.listing|
    ensures SweepFrom(s, i, claims).1 <==> NoAbort(s, claims, i, |s.listing|)
    decreases |s.listing| - i
  {
    if i < |s.listing| {
      var e := EffectAt(s, claims, i);
      var next := Apply(claims, s.listing[i], e);
      forall k: nat | i < k < |s.listing| ensures EffectAt(s, next, k) == EffectAt(s, claims, k) {
        OtherEffectsUntouched(s, claims, i, k, e);
      }
      hide EffectAt;
      SweepFromOk(s, i + 1, next);
      assert NoAbort(s, next, i + 1, |s.listing|) && !e.Abort? <==> NoAbort(s, claims, i, |s.listing|);
    }
  }

  /** A claim that no listing ever held is not created by a sweep. */
  lemma SweepCreatesNothing(s: Sweep, claims: Claims, n: string)
    requires ValidSweep(s, claims) && n !in claims
    ensures n !in AfterSweep(s, claims).0
  {
    if !s.listFails && AllHealthy(s.pods) {
      assert s.listing[0..] == s.listing;
      UnlistedUntouched(s, 0, claims, n);
    }
  }

  // Runs

  /** The two labels the operator keeps for itself. */
  function MarkOf(labels: Labels): (bool, Option<string>) {
    (TO_BE_DELETED in labels, if DELETION_TS in labels then Some(labels[DELETION_TS]) else None)
  }

  /** Between sweeps claims may come, unmarked, and go, and come again; nobody else writes the two labels. */
  ghost predicate Environment(a: Claims, b: Claims) {
    forall n :: n in b ==> (n in a && MarkOf(b[n]) == MarkOf(a[n])) || TO_BE_DELETED !in b[n]
  }

  ghost predicate IsRun(states: seq<Claims>, sweeps: seq<Sweep>) {
    && |states| == |sweeps| + 1
    && (forall n :: n in states[0] ==> TO_BE_DELETED !in states[0][n])
    && forall i :: 0 <= i < |sweeps| ==>
       ValidSweep(sweeps[i], states[i]) && Environment(AfterSweep(sweeps[i], states[i]).0, states[i + 1])
  }

  /** The sweep found the claim unmounted and unmarked, and marked it. */
  predicate MarkedIn(s: Sweep, claims: Claims, n: string, j: nat) {
    ExaminedAt(s, claims, n, j) && !Referenced(s.pods, n) && TO_BE_DELETED !in claims[n] && n !in s.writeFails
  }

  /** If the sweep examined the claim, it was unmounted, or the write taking the mark off failed. */
  ghost predicate UnmountedOrUnmarkFailed(s: Sweep, claims: Claims, n: string) {
    forall j :: ExaminedAt(s, claims, n, j) ==> !Referenced(s.pods, n) || n in s.writeFails
  }

  /** The mark on `n` in state `k` was set by sweep `m` at listing position `i`, and no sweep since
      then took it off. */
  ghost predicate MarkFrom(states: seq<Claims>, sweeps: seq<Sweep>, k: nat, n: string, m: nat, i: nat)
    requires |states| == |sweeps| + 1 && k < |states| && n in states[k]
  {
    && m < k && MarkedIn(sweeps[m], states[m], n, i)
    && TimestampOf(states[k][n]) == Some(sweeps[m].now(i))
    && forall s :: m < s < k ==> UnmountedOrUnmarkFailed(sweeps[s], states[s], n)
  }

  lemma MarkStep(s: Sweep, claims: Claims, n: string)
    requires ValidSweep(s, claims) && n in claims
    ensures var after := AfterSweep(s, claims).0;
            n in after && TO_BE_DELETED in after[n] ==>
              || (exists j :: MarkedIn(s, claims, n, j) && TimestampOf(after[n]) == Some(s.now(j)))
              || (TO_BE_DELETED in claims[n] && after[n] == claims[n] && UnmountedOrUnmarkFailed(s, claims, n))
  {
    SweepEffect(s, claims, n);
    var after := AfterSweep(s, claims).0;
    hide AfterSweep, Referenced, TimestampOf, ExaminedAt;
    if n in after && TO_BE_DELETED in after[n] {
      if j: nat :| ExaminedAt(s, claims, n, j) {
        ExaminedExactly(s, claims, n, j);
        if TO_BE_DELETED !in claims[n] {
          assert MarkedIn(s, claims, n, j);
        } else {
          forall i | ExaminedAt(s, claims, n, i) ensures !Referenced(s.pods, n) || n in s.writeFails {}
        }
      }
    }
  }

  /** The mark in state `k` was set by the sweep before it. */
  ghost predicate FreshMark(states: seq<Claims>, sweeps: seq<Sweep>, k: nat, n: string, j: nat)
    requires |states| == |sweeps| + 1 && 0 < k < |states| && n in states[k]
  {
    MarkedIn(sweeps[k - 1], states[k - 1], n, j) && TimestampOf(states[k][n]) == Some(sweeps[k - 1].now(j))
  }

  /** The mark in state `k` was there before the last sweep. */
  ghost predicate OldMark(states: seq<Claims>, sweeps: seq<Sweep>, k: nat, n: string)
    requires |states| == |sweeps| + 1 && 0 < k < |states| && n in states[k]
  {
    && n in states[k - 1] && TO_BE_DELETED in states[k - 1][n]
    && TimestampOf(states[k][n]) == TimestampOf(states[k - 1][n])
    && UnmountedOrUnmarkFailed(sweeps[k - 1], states[k - 1], n)
  }

  lemma MarkFreshOrOld(states: seq<Claims>, sweeps: seq<Sweep>, k: nat, n: string)
    requires IsRun(states, sweeps) && k < |states| && n in states[k] && TO_BE_DELETED in states[k][n]
    ensures 0 < k && ((exists j :: FreshMark(states, sweeps, k, n, j)) || OldMark(states, sweeps, k, n))
  {
    hide AfterSweep, ParseInt, ExaminedAt, Referenced;
    var s, before := sweeps[k - 1], states[k - 1];
    var after := AfterSweep(s, before).0;
    assert Environment(after, states[k]);
    assert n in after && MarkOf(after[n]) == MarkOf(states[k][n]);
    assert TimestampOf(after[n]) == TimestampOf(states[k][n]);
    if n !in before { SweepCreatesNothing(s, before, n); }
    MarkStep(s, before, n);
    if j: nat :| MarkedIn(s, before, n, j) && TimestampOf(after[n]) == Some(s.now(j)) {
      assert FreshMark(states, sweeps, k, n, j);
    }
  }

  lemma {:induction false} MarksHaveOrigin(states: seq<Claims>, sweeps: seq<Sweep>, k: nat, n: string)
    requires IsRun(states, sweeps) && k < |states|
    requires n in states[k] && TO_BE_DELETED in states[k][n]
    ensures exists m: nat, i: nat :: MarkFrom(states, sweeps, k, n, m, i)
  {
    hide ValidSweep, Environment, AfterSweep, TimestampOf, MarkedIn, UnmountedOrUnmarkFailed;
    MarkFreshOrOld(states, sweeps, k, n);
    if j: nat :| FreshMark(states, sweeps, k, n, j) {
      assert MarkFrom(states, sweeps, k, n, k - 1, j);
    } else {
      MarksHaveOrigin(states, sweeps, k - 1, n);
      var m: nat, i: nat :| MarkFrom(states, sweeps, k - 1, n, m, i);
      assert MarkFrom(states, sweeps, k, n, m, i);
    }
  }

  /** The sweep comes to the claim at listing position `j`, and it is gone afterwards. */
  predicate DeletedIn(s: Sweep, claims: Claims, n: string, j: nat) {
    ExaminedAt(s, claims, n, j) && n !in AfterSweep(s, claims).0
  }

  /** Safety of the sweep over any run with any failures. A claim deleted at time t is referenced by
      no listed pod, whatever its phase, and was marked as unmounted by a sweep at least 60 seconds
      before t; every sweep after that one which examined it found it unmounted too, unless its write
      taking the mark off failed. */
  lemma DeletedOnlyAfterGrace(states: seq<Claims>, sweeps: seq<Sweep>, k: nat, n: string, j: nat)
    requires IsRun(states, sweeps) && k < |sweeps| && DeletedIn(sweeps[k], states[k], n, j)
    ensures forall p :: 0 <= p < |sweeps[k].pods| ==> n !in sweeps[k].pods[p].claimNames
    ensures exists m: nat, i: nat ::
              MarkFrom(states, sweeps, k, n, m, i) && sweeps[m].now(i) + 60 <= sweeps[k].now(j)
  {
    var labels := states[k][n];
    ExaminedExactly(sweeps[k], states[k], n, j);
    assert TO_BE_DELETED in labels && TimestampOf(labels).Some?;
    MarksHaveOrigin(states, sweeps, k, n);
    var m: nat, i: nat :| MarkFrom(states, sweeps, k, n, m, i);
    GraceIsExact(sweeps[m].now(i), sweeps[k].now(j));
    hide TimeDifference, ParseInt, AllHealthy;
  }

  /** The sweep found the claim mounted and failed to write it. */
  predicate UnmarkFailed(s: Sweep, claims: Claims, n: string, j: nat) {
    ExaminedAt(s, claims, n, j) && Referenced(s.pods, n) && n in s.writeFails
  }

  /** Sweep `m` marked the claim at listing position `i`, and no sweep between it and `k` did. */
  ghost predicate LastMarkedBy(states: seq<Claims>, sweeps: seq<Sweep>, k: nat, n: string, m: nat, i: nat)
    requires |states| == |sweeps| + 1 && k < |states|
  {
    && m < k && MarkedIn(sweeps[m], states[m], n, i)
    && forall s, x :: m < s < k ==> !MarkedIn(sweeps[s], states[s], n, x)
  }

  /** The mark a claim carries is the one that was set last, and nothing took it off in between. */
  lemma {:induction false} LastMarkStands(states: seq<Claims>, sweeps: seq<Sweep>, k: nat, n: string, m: nat, i: nat)
    requires IsRun(states, sweeps) && k < |states| && n in states[k] && TO_BE_DELETED in states[k][n]
    requires LastMarkedBy(states, sweeps, k, n, m, i)
    ensures MarkFrom(states, sweeps, k, n, m, i)
  {
    hide TimestampOf, ExaminedAt, Referenced, UnmountedOrUnmarkFailed, Environment, AfterSweep;
    MarkFreshOrOld(states, sweeps, k, n);
    if j: nat :| FreshMark(states, sweeps, k, n, j) {
      assert m == k - 1;
      ExaminedOnce(sweeps[m], states[m], n, i, j);
    } else {
      assert m < k - 1 && LastMarkedBy(states, sweeps, k - 1, n, m, i);
      LastMarkStands(states, sweeps, k - 1, n, m, i);
    }
  }

  /** Since its last mark, a claim that still carries it was unmounted at every sweep that examined it
      exactly if none of these sweeps failed to take a mark off. */
  lemma UnmountedExactlyIfUnmarksSucceed(states: seq<Claims>, sweeps: seq<Sweep>, k: nat, n: string, m: nat, i: nat)
    requires IsRun(states, sweeps) && k < |sweeps| && n in states[k] && TO_BE_DELETED in states[k][n]
    requires LastMarkedBy(states, sweeps, k, n, m, i)
    ensures (forall s, x :: m < s < k && ExaminedAt(sweeps[s], states[s], n, x) ==> !Referenced(sweeps[s].pods, n)) <==>
            (forall s, x :: m < s < k ==> !UnmarkFailed(sweeps[s], states[s], n, x))
  {
    LastMarkStands(states, sweeps, k, n, m, i);
    hide ExaminedAt, Referenced, TimestampOf;
    forall s, x | m < s < k && ExaminedAt(sweeps[s], states[s], n, x)
      ensures Referenced(sweeps[s].pods, n) ==> UnmarkFailed(sweeps[s], states[s], n, x)
    {
      assert UnmountedOrUnmarkFailed(sweeps[s], states[s], n);
    }
  }

  /** The mark of `n` was set by sweep `m`, which found it unmounted 60 seconds before `t` or earlier,
      and every later sweep before `k` that examined it found it unmounted. */
  ghost predicate UnmountedSince(states: seq<Claims>, sweeps: seq<Sweep>, k: nat, n: string, t: int, m: nat, i: nat)
    requires |states| == |sweeps| + 1 && k < |states|
  {
    && m < k && MarkedIn(sweeps[m], states[m], n, i) && sweeps[m].now(i) + 60 <= t
    && forall s, x :: m < s < k && ExaminedAt(sweeps[s], states[s], n, x) ==> !Referenced(sweeps[s].pods, n)
  }

  /** With every unmarking write succeeding, a deleted claim was unmounted for at least 60 seconds: at
      the sweep that marked it and at every sweep since that examined it. */
  lemma DeletedClaimStayedUnmounted(states: seq<Claims>, sweeps: seq<Sweep>, k: nat, n: string, j: nat)
    requires IsRun(states, sweeps) && k < |sweeps| && DeletedIn(sweeps[k], states[k], n, j)
    requires forall s, x :: 0 <= s < k ==> !UnmarkFailed(sweeps[s], states[s], n, x)
    ensures !Referenced(sweeps[k].pods, n)
    ensures exists m: nat, i: nat :: UnmountedSince(states, sweeps, k, n, sweeps[k].now(j), m, i)
  {
    DeletedOnlyAfterGrace(states, sweeps, k, n, j);
    hide ExaminedAt, Referenced, TimestampOf, EffectAt;
    var m: nat, i: nat :| MarkFrom(states, sweeps, k, n, m, i) && sweeps[m].now(i) + 60 <= sweeps[k].now(j);
    forall s, x | m < s < k && ExaminedAt(sweeps[s], states[s], n, x) ensures !Referenced(sweeps[s].pods, n) {
      assert UnmountedOrUnmarkFailed(sweeps[s], states[s], n) && !UnmarkFailed(sweeps[s], states[s], n, x);
    }
    assert UnmountedSince(states, sweeps, k, n, sweeps[k].now(j), m, i);
  }

  // The failing family, by example: the write taking the mark off fails, and the claim is deleted ten
  // seconds after a sweep saw it mounted.

  const DATA := "data"

  function SweepAt(t: int, mounted: bool, fails: set<string>): Sweep {
    Sweep(false, if mounted then [Pod("Running", [], [DATA])] else [], [DATA], _ => t, fails)
  }

  const EXAMPLE_SWEEPS := [SweepAt(1000, false, {}), SweepAt(1050, true, {DATA}), SweepAt(1060, false, {})]

  const EXAMPLE_STATES: seq<Claims> :=
    [map[DATA := map[]], map[DATA := Marked(map[], 1000)], map[DATA := Marked(map[], 1000)], map[]]

  lemma SweepOfOne(t: int, mounted: bool, fails: set<string>, labels: Labels)
    ensures AfterSweep(SweepAt(t, mounted, fails), map[DATA := labels]).0 ==
            Apply(map[DATA := labels], DATA, Examine(mounted, labels, t, DATA in fails))
    ensures Referenced(SweepAt(t, mounted, fails).pods, DATA) == mounted
    ensures ExaminedAt(SweepAt(t, mounted, fails), map[DATA := labels], DATA, 0)
    ensures EffectAt(SweepAt(t, mounted, fails), map[DATA := labels], 0) == Examine(mounted, labels, t, DATA in fails)
  {
    var s, claims := SweepAt(t, mounted, fails), map[DATA := labels];
    if mounted { assert DATA in s.pods[0].claimNames; }
    hide Examine;
    var e := EffectAt(s, claims, 0);
    assert SweepFrom(s, 0, claims).0 == Apply(claims, DATA, e) by {
      assert |s.listing| == 1;
      if !e.Abort? { assert SweepFrom(s, 1, Apply(claims, DATA, e)) == (Apply(claims, DATA, e), true); }
    }
  }

  lemma FailedUnmarkShortensGrace()
    ensures IsRun(EXAMPLE_STATES, EXAMPLE_SWEEPS)
    ensures DeletedIn(EXAMPLE_SWEEPS[2], EXAMPLE_STATES[2], DATA, 0)
    ensures ExaminedAt(EXAMPLE_SWEEPS[1], EXAMPLE_STATES[1], DATA, 0) && Referenced(EXAMPLE_SWEEPS[1].pods, DATA)
    ensures EXAMPLE_SWEEPS[2].now(0) - EXAMPLE_SWEEPS[1].now(0) < 60
  {
    var marked: Labels := Marked(map[], 1000);
    ExampleEffects();
    SweepOfOne(1000, false, {}, map[]);
    SweepOfOne(1050, true, {DATA}, marked);
    SweepOfOne(1060, false, {}, marked);
    hide AfterSweep, ExaminedAt, Referenced, EffectAt, Examine, Marked;
    assert forall i :: 0 <= i < 3 ==> ValidSweep(EXAMPLE_SWEEPS[i], EXAMPLE_STATES[i]);
  }

  lemma ExampleEffects()
    ensures var marked := Marked(map[], 1000);
            && Examine(false, map[], 1000, false) == Relabel(marked)
            && Examine(true, marked, 1050, true) == Abort
            && Examine(false, marked, 1060, false) == Remove
  {
    ParseOfFormat(1000);
    GraceIsExact(1000, 1060);
    hide TimeDifference, ParseInt, FormatInt;
  }

  // Labels of others

  /** After sweep `k` the claim stays, and nobody else changes its other labels. */
  ghost predicate LeftAlone(states: seq<Claims>, sweeps: seq<Sweep>, n: string, k: nat)
    requires |states| == |sweeps| + 1 && k < |sweeps|
  {
    var after := AfterSweep(sweeps[k], states[k]).0;
    n in after && n in states[k + 1] && SameForeign(after[n], states[k + 1][n])
  }

  /** Over any run, a claim keeps every label that is not the operator's, in particular the one it is
      listed by. */
  lemma {:induction false} ForeignLabelsAlongRun(states: seq<Claims>, sweeps: seq<Sweep>, n: string, i: nat, j: nat)
    requires IsRun(states, sweeps) && i <= j < |states| && n in states[i]
    requires forall k: nat :: i <= k < j ==> LeftAlone(states, sweeps, n, k)
    ensures n in states[j] && SameForeign(states[i][n], states[j][n])
    decreases j
  {
    if i < j {
      hide AfterSweep, ValidSweep, Environment;
      ForeignLabelsAlongRun(states, sweeps, n, i, j - 1);
      assert LeftAlone(states, sweeps, n, j - 1);
      ForeignLabelsKept(sweeps[j - 1], states[j - 1], n);
    }
  }

  // Progress

  /** No write fails and every mark can be read. */
  ghost predicate Calm(s: Sweep, claims: Claims) {
    && ValidSweep(s, claims) && !s.listFails && AllHealthy(s.pods) && s.writeFails == {}
    && forall n :: n in claims && TO_BE_DELETED in claims[n] ==> TimestampOf(claims[n]).Some?
  }

  lemma CalmExaminesAll(s: Sweep, claims: Claims, j: nat)
    requires Calm(s, claims) && j < |s.listing|
    ensures ExaminedAt(s, claims, s.listing[j], j)
  {
    hide Referenced, TimeDifference, ParseInt, FormatInt, AllHealthy, TimestampOf;
    forall k: nat | k < j ensures !EffectAt(s, claims, k).Abort? {
      assert s.listing[k] in claims;
    }
  }

  /** Every mark a run leaves behind can be read. */
  lemma MarksReadable(states: seq<Claims>, sweeps: seq<Sweep>, k: nat)
    requires IsRun(states, sweeps) && k < |states|
    ensures forall n :: n in states[k] && TO_BE_DELETED in states[k][n] ==> TimestampOf(states[k][n]).Some?
  {
    forall n | n in states[k] && TO_BE_DELETED in states[k][n] ensures TimestampOf(states[k][n]).Some? {
      MarksHaveOrigin(states, sweeps, k, n);
      var m: nat, i: nat :| MarkFrom(states, sweeps, k, n, m, i);
    }
  }

  /** Healthy sweeps whose writes succeed list the claim at position `at(k)` and find it unmounted, and
      nobody else adds or removes it. */
  ghost predicate OrphanedRun(states: seq<Claims>, sweeps: seq<Sweep>, n: string, at: nat -> nat) {
    && IsRun(states, sweeps) && n in states[0]
    && forall k :: 0 <= k < |sweeps| ==>
         && !sweeps[k].listFails && AllHealthy(sweeps[k].pods) && sweeps[k].writeFails == {}
         && !Referenced(sweeps[k].pods, n)
         && (n in states[k] ==> at(k) < |sweeps[k].listing| && sweeps[k].listing[at(k)] == n)
         && (n in states[k + 1] <==> n in AfterSweep(sweeps[k], states[k]).0)
         && (n in states[k + 1] ==> MarkOf(states[k + 1][n]) == MarkOf(AfterSweep(sweeps[k], states[k]).0[n]))
  }

  /** The time at which sweep `k` looks at the claim. */
  function TimeAt(sweeps: seq<Sweep>, at: nat -> nat, k: nat): int
    requires k < |sweeps|
  {
    sweeps[k].now(at(k))
  }

  /** Every mark was set at a time in range. */
  lemma MarksInRange(states: seq<Claims>, sweeps: seq<Sweep>, k: nat, n: string)
    requires IsRun(states, sweeps) && k < |states| && n in states[k] && TO_BE_DELETED in states[k][n]
    ensures TimestampOf(states[k][n]).Some? && InRange(TimestampOf(states[k][n]).value)
  {
    MarksHaveOrigin(states, sweeps, k, n);
    hide Environment, AfterSweep, TimestampOf, UnmountedOrUnmarkFailed, Referenced, InRange;
    var m: nat, i: nat :| MarkFrom(states, sweeps, k, n, m, i);
    assert ValidSweep(sweeps[m], states[m]);
  }

  /** The sweep examines the claim as an unmounted one, and nobody else adds or removes it. */
  lemma OrphanExamined(states: seq<Claims>, sweeps: seq<Sweep>, n: string, at: nat -> nat, k: nat)
    requires OrphanedRun(states, sweeps, n, at) && k < |sweeps| && n in states[k]
    ensures IsRun(states, sweeps) && InRange(TimeAt(sweeps, at, k))
    ensures var after := Outcome(Examine(false, states[k][n], TimeAt(sweeps, at, k), false), states[k][n]);
            && (n in states[k + 1] <==> after.Some?)
            && (n in states[k + 1] ==> MarkOf(states[k + 1][n]) == MarkOf(after.value))
  {
    hide Examine, TimestampOf, Referenced, AllHealthy;
    var s, claims := sweeps[k], states[k];
    MarksReadable(states, sweeps, k);
    CalmExaminesAll(s, claims, at(k));
    SweepEffect(s, claims, n);
    hide AfterSweep, ExaminedAt;
    assert ValidSweep(s, claims) && Environment(AfterSweep(s, claims).0, states[k + 1]);
  }

  lemma OrphanStep(states: seq<Claims>, sweeps: seq<Sweep>, n: string, at: nat -> nat, k: nat)
    requires OrphanedRun(states, sweeps, n, at) && k < |sweeps| && n in states[k]
    ensures TO_BE_DELETED !in states[k][n] ==>
            && n in states[k + 1] && TO_BE_DELETED in states[k + 1][n]
            && TimestampOf(states[k + 1][n]) == Some(TimeAt(sweeps, at, k))
    ensures TO_BE_DELETED in states[k][n] ==>
            TimestampOf(states[k][n]).Some? && InRange(TimestampOf(states[k][n]).value)
    ensures TO_BE_DELETED in states[k][n] && TimeAt(sweeps, at, k) >= TimestampOf(states[k][n]).value + 60 ==>
            n !in states[k + 1]
    ensures TO_BE_DELETED in states[k][n] && TimeAt(sweeps, at, k) < TimestampOf(states[k][n]).value + 60 ==>
              && n in states[k + 1] && TO_BE_DELETED in states[k + 1][n]
              && TimestampOf(states[k + 1][n]) == TimestampOf(states[k][n])
  {
    hide AfterSweep, ParseInt, FormatInt, TimeDifference, AllHealthy, Referenced, ValidSweep, Environment;
    var labels, t := states[k][n], TimeAt(sweeps, at, k);
    OrphanExamined(states, sweeps, n, at, k);
    ParseOfFormat(t);
    if TO_BE_DELETED in labels {
      MarksInRange(states, sweeps, k, n);
      GraceIsExact(TimestampOf(labels).value, t);
    }
  }

  /** A claim unmounted at every sweep is marked by the first one and deleted by the first one at least
      60 seconds later, no sooner: it is still there before sweep `k` exactly if all sweeps in between
      came within the grace period. */
  lemma {:induction false} OrphanDeletedAfterGrace(states: seq<Claims>, sweeps: seq<Sweep>, n: string, at: nat -> nat,
        k: nat)
    requires OrphanedRun(states, sweeps, n, at) && 1 <= k < |states|
    ensures n in states[k] <==> forall s :: 1 <= s < k ==> TimeAt(sweeps, at, s) < TimeAt(sweeps, at, 0) + 60
    ensures n in states[k] ==> TO_BE_DELETED in states[k][n] && TimestampOf(states[k][n]) == Some(TimeAt(sweeps, at, 0))
  {
    hide AfterSweep, TimestampOf, AllHealthy, Referenced, Environment, ValidSweep;
    if k == 1 {
      OrphanStep(states, sweeps, n, at, 0);
    } else {
      OrphanDeletedAfterGrace(states, sweeps, n, at, k - 1);
      if n in states[k - 1] {
        OrphanStep(states, sweeps, n, at, k - 1);
      } else {
        SweepCreatesNothing(sweeps[k - 1], states[k - 1], n);
      }
    }
  }
}
