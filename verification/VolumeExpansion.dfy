/** Growing the volumes of one StatefulSet with one volume claim template: the set is deleted without
    its pods, its claims are patched, and it is created again, with failures allowed between any two
    of these steps. Sizes are integers. */
module VolumeExpansion {
  import opened Basics

  /** What the resource asks of the StatefulSet: the template size, and everything else it holds. */
  datatype Want = Want(size: int, rest: string)

  datatype Sts = Sts(template: int, rest: string, replicas: int, readyReplicas: int)

  /** The status of another StatefulSet of the cluster. */
  datatype Other = Other(replicas: int, readyReplicas: int)

  datatype Propagation = Orphan | Cascade

  datatype Write = DeletedSet | PatchedClaim(name: string, size: int) | CreatedSet(size: int) | UpdatedSet

  datatype World = World(sts: Option<Sts>, claims: map<string, int>, pods: set<string>, others: seq<Other>,
        log: seq<Write>)

  /** Answers of the API server in one pass. `listing` is the order in which claims are listed. */
  datatype Answers = Answers(
    enabled: bool, gateFails: bool, listSetsFails: bool, getFails: bool, listClaimsFails: bool, listing: seq<string>,
    deleteFails: bool, patchFails: set<string>, getAgainFails: bool, writeFails: bool)

  ghost predicate ValidAnswers(a: Answers, w: World) {
    NoRepeats(a.listing) && forall n :: n in a.listing <==> n in w.claims
  }

  function DeleteSet(w: World, p: Propagation): World {
    w.(sts := None, pods := if p == Orphan then w.pods else {}, log := w.log + [DeletedSet])
  }

  /** Patches the listed claims that have another size, up to the first failure. */
  function PatchClaims(size: int, listing: seq<string>, fails: set<string>, w: World): (World, bool) {
    if listing == [] then (w, true)
    else
      var n := listing[0];
      if n in w.claims && w.claims[n] != size then
        if n in fails then (w, false)
        else PatchClaims(size, listing[1..], fails,
          w.(claims := w.claims[n := size], log := w.log + [PatchedClaim(n, size)]))
      else PatchClaims(size, listing[1..], fails, w)
  }

  predicate OthersReady(others: seq<Other>) {
    forall i :: 0 <= i < |others| ==> others[i].replicas == others[i].readyReplicas
  }

  predicate Ready(w: World) {
    OthersReady(w.others) && (w.sts.Some? ==> w.sts.value.replicas == w.sts.value.readyReplicas)
  }

  function ScalePvc(want: Want, a: Answers, w: World): (World, bool) {
    if a.listSetsFails || !Ready(w) || a.getFails || w.sts.None? || a.listClaimsFails || |a.listing| < 1 then (w, true)
    else if want.size < w.sts.value.template then (w, false)
    else if want.size != w.sts.value.template then
      if a.deleteFails then (w, false) else PatchClaims(want.size, a.listing, a.patchFails, DeleteSet(w, Orphan))
    else PatchClaims(want.size, a.listing, a.patchFails, w)
  }

  function ExpandVolumes(want: Want, a: Answers, w: World): (World, bool) {
    if a.gateFails then (w, false) else if a.enabled then ScalePvc(want, a, w) else (w, true)
  }

  /** Create or update; the API server refuses an update that changes the claim template. */
  function CreateOrUpdateSet(want: Want, a: Answers, w: World): (World, bool) {
    if a.getAgainFails then (w, false)
    else if w.sts.None? then
      if a.writeFails then (w, false)
      else (w.(sts := Some(Sts(want.size, want.rest, 0, 0)), log := w.log + [CreatedSet(want.size)]), true)
    else if w.sts.value.template == want.size && w.sts.value.rest == want.rest then (w, true)
    else if a.writeFails || w.sts.value.template != want.size then (w, false)
    else (w.(sts := Some(w.sts.value.(rest := want.rest)), log := w.log + [UpdatedSet]), true)
  }

  /** The part of a pass that concerns this StatefulSet. */
  function Pass(want: Want, a: Answers, w: World): (World, bool) {
    var (w1, ok) := ExpandVolumes(want, a, w);
    if !ok then (w1, false) else CreateOrUpdateSet(want, a, w1)
  }

  class Group {
    var sts: Option<Sts>
    var claims: map<string, int>
    var pods: set<string>
    var others: seq<Other>
    var log: seq<Write>

    function Now(): World
      reads this
    {
      World(sts, claims, pods, others, log)
    }

    method DeleteStatefulSet(p: Propagation)
      modifies this`sts, this`pods, this`log
      ensures Now() == DeleteSet(old(Now()), p)
    {
      sts := None;
      if p == Cascade { pods := {}; }
      log := log + [DeletedSet];
    }

    /** Compares with the sizes as listed, and patches the claims that differ. */
    method PatchListedClaims(size: int, listing: seq<string>, fails: set<string>) returns (ok: bool)
      requires NoRepeats(listing) && forall n :: n in listing ==> n in claims
      modifies this`claims, this`log
      ensures (Now(), ok) == PatchClaims(size, listing, fails, old(Now()))
      ensures claims.Keys == old(claims).Keys && (ok ==> forall n :: n in listing ==> claims[n] == size)
    {
      var listed := claims;
      ghost var whole := PatchClaims(size, listing, fails, Now());
      assert listing[0..] == listing;
      for p := 0 to |listing|
        invariant PatchClaims(size, listing[p..], fails, Now()) == whole
        invariant forall q :: p <= q < |listing| ==> listing[q] in claims && claims[listing[q]] == listed[listing[q]]
        invariant claims.Keys == old(claims).Keys
        invariant forall q :: 0 <= q < p ==> listing[q] in claims && claims[listing[q]] == size
      {
        var n := listing[p];
        assert listing[p..][0] == n && listing[p..][1..] == listing[p + 1..];
        if size != listed[n] {
          if n in fails { return false; }
          claims := claims[n := size];
          log := log + [PatchedClaim(n, size)];
        }
      }
      return true;
    }

    method ScalePvcForSts(want: Want, a: Answers) returns (ok: bool)
      requires ValidAnswers(a, Now())
      modifies this
      ensures (Now(), ok) == ScalePvc(want, a, old(Now()))
      ensures pods == old(pods) && (sts == old(sts) || sts == None)
      ensures !Ready(old(Now())) ==> ok && Now() == old(Now())
    {
      if a.listSetsFails { return true; }
      for i := 0 to |others|
        invariant OthersReady(others[..i]) && Now() == old(Now())
      {
        if others[i].replicas != others[i].readyReplicas { return true; }
      }
      if sts.Some? && sts.value.replicas != sts.value.readyReplicas { return true; }
      if a.getFails || sts.None? { return true; }
      if a.listClaimsFails { return true; }
      if |a.listing| < 1 { return true; }
      if want.size < sts.value.template { return false; }
      if want.size != sts.value.template {
        if a.deleteFails { return false; }
        DeleteStatefulSet(Orphan);
      }
      ok := PatchListedClaims(want.size, a.listing, a.patchFails);
    }

    method CreateOrUpdateStatefulSet(want: Want, a: Answers) returns (ok: bool)
      modifies this`sts, this`log
      ensures (Now(), ok) == CreateOrUpdateSet(want, a, old(Now()))
      ensures ok ==> sts.Some? && sts.value.template == want.size && sts.value.rest == want.rest
      ensures old(sts).Some? ==> sts.Some? && sts.value.template == old(sts).value.template
    {
      if a.getAgainFails { return false; }
      if sts.None? {
        if a.writeFails { return false; }
        sts := Some(Sts(want.size, want.rest, 0, 0));
        log := log + [CreatedSet(want.size)];
        return true;
      }
      if sts.value.template != want.size || sts.value.rest != want.rest {
        if a.writeFails || sts.value.template != want.size { return false; }
        sts := Some(sts.value.(rest := want.rest));
        log := log + [UpdatedSet];
      }
      return true;
    }

    method DeployStatefulSet(want: Want, a: Answers) returns (ok: bool)
      requires ValidAnswers(a, Now())
      modifies this
      ensures (Now(), ok) == Pass(want, a, old(Now()))
      ensures pods == old(pods)
      ensures ok ==> sts.Some? && sts.value.template == want.size && sts.value.rest == want.rest
    {
      if a.gateFails { return false; }
      if a.enabled {
        ok := ScalePvcForSts(want, a);
        if !ok { return; }
      }
      ok := CreateOrUpdateStatefulSet(want, a);
    }
  }

  // What a pass does

  /** The claim at this place of the listing has another size, and its patch fails. */
  predicate Refused(size: int, listing: seq<string>, fails: set<string>, claims: map<string, int>, p: nat)
    requires p < |listing|
  {
    listing[p] in claims && claims[listing[p]] != size && listing[p] in fails
  }

  /** The first `k` listed claims are patched where they differ, and the next one, if any, is refused. */
  predicate PatchedUpTo(size: int, listing: seq<string>, fails: set<string>, claims: map<string, int>, k: nat) {
    && k <= |listing| && (forall p: nat :: p < k ==> !Refused(size, listing, fails, claims, p))
    && (k < |listing| ==> Refused(size, listing, fails, claims, k))
  }

  /** The claims with the named ones at the given size. */
  function Resized(size: int, names: seq<string>, claims: map<string, int>): map<string, int> {
    map n | n in claims :: if n in names then size else claims[n]
  }

  /** The patches this takes, in order. */
  function Patches(size: int, names: seq<string>, claims: map<string, int>): seq<Write> {
    if names == [] then [] else
      var n := names[0];
      (if n in claims && claims[n] != size then [PatchedClaim(n, size)] else []) + Patches(size, names[1..], claims)
  }

  lemma {:induction false} OnlyPatches(size: int, names: seq<string>, claims: map<string, int>)
    ensures forall e :: e in Patches(size, names, claims) ==> e.PatchedClaim?
  {
    if names != [] { OnlyPatches(size, names[1..], claims); }
  }

  lemma {:induction false} PatchesElsewhere(size: int, names: seq<string>, claims: map<string, int>, n: string)
    requires n !in names && n in claims
    ensures Patches(size, names, claims[n := size]) == Patches(size, names, claims)
  {
    if names != [] { PatchesElsewhere(size, names[1..], claims, n); }
  }

  lemma ResizedFirst(size: int, names: seq<string>, claims: map<string, int>)
    requires names != [] && names[0] in claims
    ensures Resized(size, names, claims) == Resized(size, names[1..], claims[names[0] := size])
  {
    assert names == [names[0]] + names[1..];
  }

  lemma PatchedOneMore(size: int, listing: seq<string>, fails: set<string>, claims: map<string, int>, k: nat)
    requires NoRepeats(listing) && listing != [] && listing[0] in claims
    requires !Refused(size, listing, fails, claims, 0)
    requires PatchedUpTo(size, listing[1..], fails, claims[listing[0] := size], k)
    ensures PatchedUpTo(size, listing, fails, claims, k + 1)
  {
    var rest, next := listing[1..], claims[listing[0] := size];
    forall p: nat | p < |rest|
      ensures Refused(size, rest, fails, next, p) <==> Refused(size, listing, fails, claims, p + 1)
    {
      assert rest[p] == listing[p + 1] != listing[0];
    }
    forall p: nat | p < k + 1 ensures !Refused(size, listing, fails, claims, p) {
      if p > 0 { assert !Refused(size, rest, fails, next, p - 1); }
    }
  }

  lemma {:induction false} PatchExactly(size: int, listing: seq<string>, fails: set<string>, w: World)
    returns (k: nat)
    requires NoRepeats(listing) && forall n :: n in listing ==> n in w.claims
    ensures PatchedUpTo(size, listing, fails, w.claims, k)
    ensures PatchClaims(size, listing, fails, w) ==
            (w.(claims := Resized(size, listing[..k], w.claims), log := w.log + Patches(size, listing[..k], w.claims)),
             k == |listing|)
  {
    if listing == [] || Refused(size, listing, fails, w.claims, 0) {
      k := 0;
      NothingPatched(size, w.claims);
      assert listing[..0] == [] && w.log + [] == w.log;
    } else {
      var n, rest := listing[0], listing[1..];
      var step := if w.claims[n] != size then [PatchedClaim(n, size)] else [];
      var next := w.(claims := w.claims[n := size], log := w.log + step);
      assert w.claims[n] == size ==> next == w;
      assert forall x :: x in rest ==> x in listing;
      var i := PatchExactly(size, rest, fails, next);
      PatchedOneMore(size, listing, fails, w.claims, i);
      k := i + 1;
      var done := listing[..k];
      assert done[0] == n && done[1..] == rest[..i];
      ResizedFirst(size, done, w.claims);
      PatchesElsewhere(size, rest[..i], w.claims, n);
      assert w.log + step + Patches(size, rest[..i], w.claims) == w.log + (step + Patches(size, rest[..i], w.claims));
      assert PatchClaims(size, listing, fails, w) == PatchClaims(size, rest, fails, next);
    }
  }

  /** The expansion step comes to comparing sizes: it is enabled, no call before fails, the set exists, it
      and every other StatefulSet have as many ready replicas as replicas, and a claim is listed. */
  predicate Compares(a: Answers, w: World) {
    && a.enabled && !a.gateFails && !a.listSetsFails && !a.getFails && !a.listClaimsFails && a.listing != []
    && (forall i :: 0 <= i < |w.others| ==> w.others[i].replicas == w.others[i].readyReplicas)
    && w.sts.Some? && w.sts.value.replicas == w.sts.value.readyReplicas
  }

  /** The set is deleted: it is asked to grow, and the delete is accepted. */
  predicate Recreates(want: Want, a: Answers, w: World) {
    Compares(a, w) && want.size > w.sts.value.template && !a.deleteFails
  }

  /** The step comes to patching claims. */
  predicate Patching(want: Want, a: Answers, w: World) {
    Compares(a, w) && (want.size == w.sts.value.template || Recreates(want, a, w))
  }

  /** The step gets as far as claim `k` of the listing. */
  predicate GetsTo(want: Want, a: Answers, w: World, k: nat) {
    if Patching(want, a, w) then PatchedUpTo(want.size, a.listing, a.patchFails, w.claims, k) else k == 0
  }

  /** What it then leaves behind. */
  function ExpandedTo(want: Want, a: Answers, w: World, k: nat): World
    requires k <= |a.listing|
  {
    var claims, patches := Resized(want.size, a.listing[..k], w.claims), Patches(want.size, a.listing[..k], w.claims);
    if Recreates(want, a, w) then World(None, claims, w.pods, w.others, w.log + [DeletedSet] + patches)
    else World(w.sts, claims, w.pods, w.others, w.log + patches)
  }

  lemma ExpandsExactly(want: Want, a: Answers, w: World) returns (k: nat)
    requires ValidAnswers(a, w)
    ensures k <= |a.listing| && GetsTo(want, a, w, k)
    ensures ExpandVolumes(want, a, w) ==
            (ExpandedTo(want, a, w, k),
             !a.gateFails && (Compares(a, w) ==> Patching(want, a, w) && k == |a.listing|))
  {
    hide PatchClaims, PatchedUpTo, Patches, Resized;
    k := 0;
    if Patching(want, a, w) {
      k := PatchExactly(want.size, a.listing, a.patchFails, if Recreates(want, a, w) then DeleteSet(w, Orphan) else w);
      assert k <= |a.listing| by { PatchedBound(want.size, a.listing, a.patchFails, w.claims, k); }
    } else {
      NothingPatched(want.size, w.claims);
      assert a.listing[..0] == [] && w.log + [] == w.log;
    }
  }

  lemma PatchedBound(size: int, listing: seq<string>, fails: set<string>, claims: map<string, int>, k: nat)
    requires PatchedUpTo(size, listing, fails, claims, k)
    ensures k <= |listing|
  {
  }

  lemma NothingPatched(size: int, claims: map<string, int>)
    ensures Resized(size, [], claims) == claims && Patches(size, [], claims) == []
  {
  }

  /** The whole pass from what it is given, with `k` listed claims dealt with. It fails if the expansion
      does; otherwise the set is created if it is gone, and else made to have the wanted rest, unless its
      template is another. */
  ghost predicate DoesExactly(want: Want, a: Answers, w: World, k: nat, w': World, ok: bool) {
    && k <= |a.listing| && GetsTo(want, a, w, k)
    && var x := ExpandedTo(want, a, w, k);
       && (ok <==> && !a.gateFails && (Compares(a, w) ==> Patching(want, a, w) && k == |a.listing|) && !a.getAgainFails
                   && (x.sts.None? ==> !a.writeFails)
                   && (x.sts.Some? ==>
                         x.sts.value.template == want.size && (x.sts.value.rest == want.rest || !a.writeFails)))
       && w' == if !ok || (x.sts.Some? && x.sts.value.rest == want.rest) then x
                else if x.sts.None? then x.(sts := Some(Sts(want.size, want.rest, 0, 0)),
                                            log := x.log + [CreatedSet(want.size)])
                else x.(sts := Some(x.sts.value.(rest := want.rest)), log := x.log + [UpdatedSet])
  }

  lemma PassDoesExactly(want: Want, a: Answers, w: World)
    requires ValidAnswers(a, w)
    ensures var (w', ok) := Pass(want, a, w); exists k: nat :: DoesExactly(want, a, w, k, w', ok)
  {
    hide ExpandVolumes, ExpandedTo, GetsTo, Compares, Patching;
    var k := ExpandsExactly(want, a, w);
    var (w', ok) := Pass(want, a, w);
    assert DoesExactly(want, a, w, k, w', ok);
  }

  /** The set is deleted exactly if every StatefulSet is ready and this one is asked to grow. */
  lemma SetDeletedExactly(want: Want, a: Answers, w: World)
    requires ValidAnswers(a, w)
    ensures var w' := Pass(want, a, w).0;
            && w.log <= w'.log
            && (DeletedSet in w'.log[|w.log|..] <==>
                && a.enabled && !a.gateFails && !a.listSetsFails && !a.getFails && !a.listClaimsFails && !a.deleteFails
                && (forall i :: 0 <= i < |w.others| ==> w.others[i].replicas == w.others[i].readyReplicas)
                && w.sts.Some? && w.sts.value.replicas == w.sts.value.readyReplicas
                && w.claims != map[] && want.size > w.sts.value.template)
  {
    hide Pass, Patches, Resized, GetsTo;
    PassDoesExactly(want, a, w);
    SomeListed(a, w);
    var (w', ok) := Pass(want, a, w);
    var k: nat :| DoesExactly(want, a, w, k, w', ok);
    var patches := Patches(want.size, a.listing[..k], w.claims);
    OnlyPatches(want.size, a.listing[..k], w.claims);
    var added := w'.log[|w.log|..];
    if Recreates(want, a, w) {
      assert added[0] == DeletedSet;
    } else {
      assert forall e :: e in added ==> e in patches || e.CreatedSet? || e.UpdatedSet?;
    }
  }

  /** While any StatefulSet of the cluster has a replica that is not ready, no claim is patched and the set
      stays. */
  lemma UnreadyIsLeftAlone(want: Want, a: Answers, w: World)
    requires ValidAnswers(a, w)
    requires || (exists i :: 0 <= i < |w.others| && w.others[i].replicas != w.others[i].readyReplicas)
             || (w.sts.Some? && w.sts.value.replicas != w.sts.value.readyReplicas)
    ensures var w' := Pass(want, a, w).0;
            && w'.claims == w.claims && (w.sts.Some? ==> w'.sts.Some? && w'.sts.value.template == w.sts.value.template)
            && w.log <= w'.log && forall e :: e in w'.log[|w.log|..] ==> e.CreatedSet? || e.UpdatedSet?
  {
    PassDoesExactly(want, a, w);
    NothingPatched(want.size, w.claims);
    hide Pass, Patches, Resized;
  }

  // Never shrinking

  /** Claims and template are at most `bound`, and claims at most the template while the set exists. */
  ghost predicate Bounded(bound: int, w: World) {
    && (forall n :: n in w.claims ==> w.claims[n] <= bound)
    && (w.sts.Some? ==> w.sts.value.template <= bound)
    && (w.sts.Some? ==> forall n :: n in w.claims ==> w.claims[n] <= w.sts.value.template)
  }

  /** No claim went away or shrank, and neither did the template where both states have one. */
  ghost predicate Grew(w: World, w': World) {
    && w'.claims.Keys == w.claims.Keys
    && (forall n :: n in w.claims ==> w.claims[n] <= w'.claims[n])
    && (w.sts.Some? && w'.sts.Some? ==> w.sts.value.template <= w'.sts.value.template)
  }

  lemma {:induction false} PatchOnlyGrows(size: int, listing: seq<string>, fails: set<string>, w: World)
    requires forall n :: n in w.claims ==> w.claims[n] <= size
    ensures var (w', ok) := PatchClaims(size, listing, fails, w);
            && w'.claims.Keys == w.claims.Keys
            && (forall n :: n in w.claims ==> w.claims[n] <= w'.claims[n] <= size)
            && w'.sts == w.sts && w'.pods == w.pods && w'.others == w.others
            && w.log <= w'.log
            && (ok ==> forall n :: n in listing && n in w.claims ==> w'.claims[n] == size)
            && (fails == {} ==> ok)
            && (forall n :: n in w.claims && w.claims[n] == size ==> w'.claims[n] == size)
  {
    if listing != [] {
      var n := listing[0];
      assert forall x :: x in listing ==> x == n || x in listing[1..];
      if n in w.claims && w.claims[n] != size {
        if n !in fails {
          PatchOnlyGrows(size, listing[1..], fails,
            w.(claims := w.claims[n := size], log := w.log + [PatchedClaim(n, size)]));
        }
      } else {
        PatchOnlyGrows(size, listing[1..], fails, w);
      }
    }
  }

  /** One pass that asks for no less than before, with any failures: nothing shrinks, claims stay at
      or below the template, and no pod is deleted. */
  lemma PassNeverShrinks(bound: int, want: Want, a: Answers, w: World)
    requires Bounded(bound, w) && bound <= want.size
    ensures var w' := Pass(want, a, w).0; Bounded(want.size, w') && Grew(w, w') && w'.pods == w.pods
  {
    if w.sts.Some? && want.size != w.sts.value.template {
      PatchOnlyGrows(want.size, a.listing, a.patchFails, DeleteSet(w, Orphan));
    } else {
      PatchOnlyGrows(want.size, a.listing, a.patchFails, w);
    }
  }

  /** What others do between passes: change statuses and pods, remove claims, and, while the set
      exists, add claims made from its template. */
  ghost predicate Environment(w: World, w': World) {
    && (w.sts.Some? <==> w'.sts.Some?)
    && (w.sts.Some? ==> w.sts.value.template == w'.sts.value.template && w.sts.value.rest == w'.sts.value.rest)
    && forall n :: n in w'.claims ==>
         (n in w.claims && w'.claims[n] == w.claims[n]) || (w.sts.Some? && w'.claims[n] == w.sts.value.template)
  }

  /** Passes whose desired sizes never decrease, with any failures and early exits. */
  ghost predicate IsRun(wants: seq<Want>, answers: seq<Answers>, states: seq<World>) {
    && |wants| == |answers| && |states| == |wants| + 1
    && (forall i, j :: 0 <= i <= j < |wants| ==> wants[i].size <= wants[j].size)
    && (forall i :: 0 <= i < |wants| ==> Environment(Pass(wants[i], answers[i], states[i]).0, states[i + 1]))
  }

  /** The largest size asked for before pass `i`. */
  function BoundAt(bound: int, wants: seq<Want>, i: nat): int
    requires i <= |wants|
  {
    if i == 0 then bound else wants[i - 1].size
  }

  lemma {:induction false} RunBounded(bound: int, wants: seq<Want>, answers: seq<Answers>, states: seq<World>, i: nat)
    requires IsRun(wants, answers, states) && i < |states|
    requires Bounded(bound, states[0]) && (wants != [] ==> bound <= wants[0].size)
    ensures Bounded(BoundAt(bound, wants, i), states[i])
  {
    if i > 0 {
      RunBounded(bound, wants, answers, states, i - 1);
      PassNeverShrinks(BoundAt(bound, wants, i - 1), wants[i - 1], answers[i - 1], states[i - 1]);
    }
  }

  /** Over any such run, a claim that stays never shrinks. */
  lemma {:induction false} ClaimsNeverShrink(bound: int, wants: seq<Want>, answers: seq<Answers>, states: seq<World>,
        i: nat, j: nat, n: string)
    requires IsRun(wants, answers, states) && i <= j < |states|
    requires Bounded(bound, states[0]) && (wants != [] ==> bound <= wants[0].size)
    requires forall k :: i <= k <= j ==> n in states[k].claims
    ensures states[i].claims[n] <= states[j].claims[n]
    decreases j
  {
    if i < j {
      ClaimsNeverShrink(bound, wants, answers, states, i, j - 1, n);
      RunBounded(bound, wants, answers, states, j - 1);
      PassNeverShrinks(BoundAt(bound, wants, j - 1), wants[j - 1], answers[j - 1], states[j - 1]);
    }
  }

  /** Over any such run, the sizes of the successive StatefulSets' templates never decrease, even when
      the set was absent in between. */
  lemma {:induction false} TemplatesNeverShrink(bound: int, wants: seq<Want>, answers: seq<Answers>, states: seq<World>,
        i: nat, j: nat)
    requires IsRun(wants, answers, states) && i <= j < |states|
    requires Bounded(bound, states[0]) && (wants != [] ==> bound <= wants[0].size)
    requires states[i].sts.Some? && states[j].sts.Some?
    ensures states[i].sts.value.template <= states[j].sts.value.template
    decreases j
  {
    if i < j {
      RunBounded(bound, wants, answers, states, j - 1);
      PassNeverShrinks(BoundAt(bound, wants, j - 1), wants[j - 1], answers[j - 1], states[j - 1]);
      if states[j - 1].sts.Some? {
        TemplatesNeverShrink(bound, wants, answers, states, i, j - 1);
      } else {
        RunBounded(bound, wants, answers, states, i);
        assert states[j].sts.value.template == wants[j - 1].size;
      }
    }
  }

  /** A request below the current template writes nothing and ends the pass with an error, whether or
      not the expansion step is reached. */
  lemma ShrinkRequestRefused(want: Want, a: Answers, w: World)
    requires w.sts.Some? && want.size < w.sts.value.template
    ensures Pass(want, a, w) == (w, false)
  {
  }

  // Converging

  /** No call fails, expansion is enabled, and every StatefulSet has all its replicas ready. */
  ghost predicate Calm(a: Answers, w: World) {
    && ValidAnswers(a, w) && Ready(w)
    && a.enabled && !a.gateFails && !a.listSetsFails && !a.getFails && !a.listClaimsFails && !a.deleteFails
    && a.patchFails == {} && !a.getAgainFails && !a.writeFails
  }

  /** The set exists as wanted and all its claims have the wanted size. */
  ghost predicate Expanded(want: Want, w: World) {
    && w.sts.Some? && w.sts.value.template == want.size && w.sts.value.rest == want.rest
    && forall n :: n in w.claims ==> w.claims[n] == want.size
  }

  lemma SomeListed(a: Answers, w: World)
    requires ValidAnswers(a, w)
    ensures |a.listing| > 0 <==> w.claims != map[]
  {
    if w.claims != map[] {
      var n :| n in w.claims;
      assert n in a.listing;
    }
    if |a.listing| > 0 { assert a.listing[0] in w.claims; }
  }

  /** A calm pass that asks for a larger size succeeds exactly if there is a claim; it then ends with
      the set created again at the new size, all claims at that size and every pod in place. With no
      claim it changes nothing and fails, so the expansion never happens. */
  lemma LargerSizeInOnePass(want: Want, a: Answers, w: World)
    requires Calm(a, w) && Bounded(want.size, w)
    requires w.sts.Some? && w.sts.value.template < want.size
    ensures var (w', ok) := Pass(want, a, w);
            && (ok <==> w.claims != map[])
            && (ok ==> Expanded(want, w') && w'.claims.Keys == w.claims.Keys && w'.pods == w.pods)
            && (ok ==> w.log + [DeletedSet] < w'.log && w'.log[|w'.log| - 1] == CreatedSet(want.size))
            && (!ok ==> w' == w)
  {
    SomeListed(a, w);
    PatchOnlyGrows(want.size, a.listing, a.patchFails, DeleteSet(w, Orphan));
  }

  /** Once expanded, a pass makes no write, whatever fails. */
  lemma ExpandedIsQuiet(want: Want, a: Answers, w: World)
    requires Expanded(want, w) && ValidAnswers(a, w)
    ensures Pass(want, a, w).0 == w
  {
    PatchNothing(want.size, a.listing, a.patchFails, w);
  }

  lemma {:induction false} PatchNothing(size: int, listing: seq<string>, fails: set<string>, w: World)
    requires forall n :: n in w.claims ==> w.claims[n] == size
    ensures PatchClaims(size, listing, fails, w) == (w, true)
  {
    if listing != [] { PatchNothing(size, listing[1..], fails, w); }
  }

  /** The template of an existing set can move only if there is a claim to expand. */
  ghost predicate CanMove(want: Want, w: World) {
    w.sts.Some? && w.sts.value.template != want.size ==> w.claims != map[]
  }

  lemma FirstRepairPass(want: Want, a: Answers, w: World)
    requires Calm(a, w) && Bounded(want.size, w) && CanMove(want, w)
    ensures var (w', ok) := Pass(want, a, w);
            && ok && Bounded(want.size, w')
            && w'.sts.Some? && w'.sts.value.template == want.size && w'.sts.value.rest == want.rest
    ensures w.sts.Some? ==> Expanded(want, Pass(want, a, w).0)
  {
    SomeListed(a, w);
    PassNeverShrinks(want.size, want, a, w);
    if w.sts.Some? && want.size != w.sts.value.template {
      PatchOnlyGrows(want.size, a.listing, a.patchFails, DeleteSet(w, Orphan));
    } else {
      PatchOnlyGrows(want.size, a.listing, a.patchFails, w);
    }
  }

  /** From any state a failed expansion can leave, in particular with the set gone and some claims
      patched, two calm passes finish the job. */
  lemma RepairedByTwoPasses(want: Want, a1: Answers, a2: Answers, w0: World, w1: World)
    requires Calm(a1, w0) && Bounded(want.size, w0) && CanMove(want, w0)
    requires Environment(Pass(want, a1, w0).0, w1) && Calm(a2, w1)
    ensures Pass(want, a2, w1).1 && Expanded(want, Pass(want, a2, w1).0)
  {
    FirstRepairPass(want, a1, w0);
    FirstRepairPass(want, a2, w1);
  }
}
