/** The finalizer list of the Druid resource, and the deletion it guards. */
module Finalizers {

  const DELETE_PVC := "deletepvc.finalizers.druid.apache.org"

  // String lists

  function Without(s: seq<string>, x: string): seq<string> {
    if s == [] then [] else
      var front, last := s[..|s| - 1], s[|s| - 1];
      if last == x then Without(front, x) else Without(front, x) + [last]
  }

  method ContainsString(s: seq<string>, x: string) returns (r: bool)
    ensures r == (x in s)
  {
    for i := 0 to |s|
      invariant x !in s[..i]
    {
      if s[i] == x { return true; }
    }
    assert s[..|s|] == s;
    return false;
  }

  method RemoveString(s: seq<string>, x: string) returns (r: seq<string>)
    ensures r == Without(s, x)
  {
    r := [];
    for i := 0 to |s|
      invariant r == Without(s[..i], x)
    {
      assert s[..i + 1][..i] == s[..i];
      if s[i] == x { continue; }
      r := r + [s[i]];
    }
    assert s[..|s|] == s;
  }

  lemma {:induction false} WithoutCounts(s: seq<string>, x: string)
    ensures forall y :: multiset(Without(s, x))[y] == if y == x then 0 else multiset(s)[y]
  {
    if s != [] {
      WithoutCounts(s[..|s| - 1], x);
      assert s == s[..|s| - 1] + [s[|s| - 1]];
    }
  }

  lemma {:induction false} WithoutConcat(s: seq<string>, t: seq<string>, x: string)
    ensures Without(s + t, x) == Without(s, x) + Without(t, x)
  {
    if t == [] {
      assert s + t == s;
    } else {
      var n := |t| - 1;
      assert (s + t)[..|s + t| - 1] == s + t[..n];
      WithoutConcat(s, t[..n], x);
    }
  }

  lemma {:induction false} WithoutAbsent(s: seq<string>, x: string)
    ensures x !in Without(s, x)
    ensures x !in s <==> Without(s, x) == s
  {
    if s != [] {
      WithoutAbsent(s[..|s| - 1], x);
      WithoutShorter(s[..|s| - 1], x);
      assert s == s[..|s| - 1] + [s[|s| - 1]];
    }
  }

  lemma {:induction false} WithoutShorter(s: seq<string>, x: string)
    ensures |Without(s, x)| <= |s|
  {
    if s != [] { WithoutShorter(s[..|s| - 1], x); }
  }

  // Keeping the list up to date

  function Normalized(finalizers: seq<string>, disabled: bool): seq<string> {
    Without(finalizers, DELETE_PVC) + if disabled then [] else [DELETE_PVC]
  }

  /** Applying the update twice is applying it once. */
  lemma NormalizedIsFixpoint(finalizers: seq<string>, disabled: bool)
    ensures Normalized(Normalized(finalizers, disabled), disabled) == Normalized(finalizers, disabled)
  {
    var f := Without(finalizers, DELETE_PVC);
    var added := if disabled then [] else [DELETE_PVC];
    WithoutAbsent(finalizers, DELETE_PVC);
    WithoutAbsent(f, DELETE_PVC);
    WithoutConcat(f, added, DELETE_PVC);
    assert Without(added, DELETE_PVC) == [];
  }

  /** Foreign finalizers keep their order and number; the operator's is there once if enabled. */
  lemma NormalizedKeepsForeign(finalizers: seq<string>, disabled: bool)
    ensures Without(Normalized(finalizers, disabled), DELETE_PVC) == Without(finalizers, DELETE_PVC)
    ensures forall y :: y != DELETE_PVC ==> multiset(Normalized(finalizers, disabled))[y] == multiset(finalizers)[y]
    ensures multiset(Normalized(finalizers, disabled))[DELETE_PVC] == if disabled then 0 else 1
  {
    var f := Without(finalizers, DELETE_PVC);
    var added := if disabled then [] else [DELETE_PVC];
    WithoutAbsent(finalizers, DELETE_PVC);
    WithoutAbsent(f, DELETE_PVC);
    WithoutConcat(f, added, DELETE_PVC);
    assert Without(added, DELETE_PVC) == [];
    WithoutCounts(finalizers, DELETE_PVC);
    assert multiset(f + added) == multiset(f) + multiset(added);
  }

  /** No patch is sent exactly when the operator's finalizer is absent and disabled, or stands once, at
      the end, and is enabled. */
  lemma UnchangedExactlyWhenLast(finalizers: seq<string>, disabled: bool)
    ensures Normalized(finalizers, disabled) == finalizers <==>
            if disabled then DELETE_PVC !in finalizers
            else exists front :: finalizers == front + [DELETE_PVC] && DELETE_PVC !in front
  {
    WithoutAbsent(finalizers, DELETE_PVC);
    if !disabled {
      var f := Without(finalizers, DELETE_PVC);
      if Normalized(finalizers, disabled) == finalizers {
        assert finalizers == f + [DELETE_PVC];
      }
      if front :| finalizers == front + [DELETE_PVC] && DELETE_PVC !in front {
        WithoutAbsent(front, DELETE_PVC);
        assert finalizers[..|finalizers| - 1] == front;
      }
    }
  }

  // Deletion

  datatype Event = DeletedStatefulSet(name: string) | DeletedPvc(name: string)

  /** The stored resource's finalizers, the listed StatefulSets and claims, and accepted deletes. */
  datatype World = World(finalizers: seq<string>, sets: seq<string>, claims: seq<string>, log: seq<Event>)

  datatype Faults = Faults(configFails: bool, listClaimsFails: bool, listSetsFails: bool,
                           setFails: set<string>, claimFails: set<string>, updateFails: bool)

  function SetEvents(names: seq<string>): seq<Event> {
    seq(|names|, i requires 0 <= i < |names| => DeletedStatefulSet(names[i]))
  }

  function ClaimEvents(names: seq<string>): seq<Event> {
    seq(|names|, i requires 0 <= i < |names| => DeletedPvc(names[i]))
  }

  /** Number of names deleted before the first that fails. */
  function Accepted(names: seq<string>, fails: set<string>): (n: nat)
    ensures n <= |names|
    ensures forall i :: 0 <= i < n ==> names[i] !in fails
    ensures n < |names| ==> names[n] in fails
  {
    if names == [] || names[0] in fails then 0 else 1 + Accepted(names[1..], fails)
  }

  /** StatefulSets in list order, then, only if all of them went, claims in list order. */
  function Deletions(sets: seq<string>, claims: seq<string>, f: Faults): seq<Event> {
    var n := Accepted(sets, f.setFails);
    SetEvents(sets[..n]) +
    if n < |sets| then [] else ClaimEvents(claims[..Accepted(claims, f.claimFails)])
  }

  predicate AllDeleted(sets: seq<string>, claims: seq<string>, f: Faults) {
    (forall x :: x in sets ==> x !in f.setFails) && (forall x :: x in claims ==> x !in f.claimFails)
  }

  /** A pass over a resource that is being deleted. */
  function DeletionPass(disabled: bool, f: Faults, w: World): World {
    if f.configFails || disabled || DELETE_PVC !in w.finalizers || f.listClaimsFails || f.listSetsFails then w else
      var done := w.(log := w.log + Deletions(w.sets, w.claims, f));
      if !AllDeleted(w.sets, w.claims, f) || f.updateFails then done
      else done.(finalizers := Without(w.finalizers, DELETE_PVC))
  }

  class Resource {
    var finalizers: seq<string>
    var sets: seq<string>
    var claims: seq<string>
    var log: seq<Event>

    function Now(): World
      reads this
    {
      World(finalizers, sets, claims, log)
    }

    method UpdateFinalizers(disabled: bool, patchFails: bool) returns (ok: bool, patched: bool)
      modifies this`finalizers
      ensures patched == (Normalized(old(finalizers), disabled) != old(finalizers))
      ensures ok == !(patched && patchFails)
      ensures finalizers == if ok then Normalized(old(finalizers), disabled) else old(finalizers)
    {
      var additions := if disabled then [] else [DELETE_PVC];
      var desired := RemoveString(finalizers, DELETE_PVC);
      WithoutAbsent(finalizers, DELETE_PVC);
      for i := 0 to |additions|
        invariant finalizers == old(finalizers)
        invariant desired == Without(finalizers, DELETE_PVC) + additions[..i]
      {
        assert i == 0 && additions == [DELETE_PVC] && desired == Without(finalizers, DELETE_PVC);
        var present := ContainsString(desired, additions[i]);
        if !present { desired := desired + [additions[i]]; }
      }
      assert additions[..|additions|] == additions;
      ok, patched := true, finalizers != desired;
      if patched {
        if patchFails { ok := false; return; }
        finalizers := desired;
      }
    }

    method DeleteStsAndPvc(f: Faults) returns (ok: bool)
      modifies this`log
      ensures log == old(log) + Deletions(sets, claims, f)
      ensures ok == AllDeleted(sets, claims, f)
    {
      ok := DeleteSets(f.setFails);
      if !ok { return; }
      assert sets[..|sets|] == sets;
      ok := DeleteClaims(f.claimFails);
    }

    method DeleteSets(fails: set<string>) returns (ok: bool)
      modifies this`log
      ensures log == old(log) + SetEvents(sets[..Accepted(sets, fails)])
      ensures ok == (Accepted(sets, fails) == |sets|)
    {
      ghost var n := Accepted(sets, fails);
      for i := 0 to |sets|
        invariant i <= n
        invariant log == old(log) + SetEvents(sets[..i])
      {
        if sets[i] in fails { return false; }
        assert SetEvents(sets[..i + 1]) == SetEvents(sets[..i]) + [DeletedStatefulSet(sets[i])];
        log := log + [DeletedStatefulSet(sets[i])];
      }
      return true;
    }

    method DeleteClaims(fails: set<string>) returns (ok: bool)
      modifies this`log
      ensures log == old(log) + ClaimEvents(claims[..Accepted(claims, fails)])
      ensures ok == (Accepted(claims, fails) == |claims|)
    {
      ghost var k := Accepted(claims, fails);
      for i := 0 to |claims|
        invariant i <= k
        invariant log == old(log) + ClaimEvents(claims[..i])
      {
        if claims[i] in fails { return false; }
        assert ClaimEvents(claims[..i + 1]) == ClaimEvents(claims[..i]) + [DeletedPvc(claims[i])];
        log := log + [DeletedPvc(claims[i])];
      }
      return true;
    }

    method ExecuteFinalizers(disabled: bool, f: Faults) returns (ok: bool)
      modifies this`log, this`finalizers
      ensures Now() == DeletionPass(disabled, f, old(Now()))
      ensures if ok && !disabled then DELETE_PVC !in finalizers else finalizers == old(finalizers)
      ensures DELETE_PVC !in old(finalizers) ==> Now() == old(Now())
      ensures ok <==> !f.configFails && (disabled || DELETE_PVC !in old(finalizers) || Clean(disabled, f, old(Now())))
    {
      if f.configFails { return false; }
      if disabled { return true; }
      var present := ContainsString(finalizers, DELETE_PVC);
      if !present { return true; }
      if f.listClaimsFails { return false; }
      if f.listSetsFails { return false; }
      var deleted := DeleteStsAndPvc(f);
      if !deleted { return false; }
      var remaining := RemoveString(finalizers, DELETE_PVC);
      WithoutAbsent(finalizers, DELETE_PVC);
      if f.updateFails { return false; }
      finalizers := remaining;
      return true;
    }
  }

  /** Every call of the pass succeeds. */
  predicate Clean(disabled: bool, f: Faults, w: World) {
    && !disabled && !f.configFails && !f.listClaimsFails && !f.listSetsFails && !f.updateFails
    && AllDeleted(w.sets, w.claims, f)
  }

  /** Whatever fails, a pass deletes in order: StatefulSets first, and no claim unless every listed
      StatefulSet was deleted in this pass. */
  lemma SetsBeforeClaims(disabled: bool, f: Faults, w: World)
    ensures var log := DeletionPass(disabled, f, w).log;
            && w.log <= log
            && log[|w.log|..] <= SetEvents(w.sets) + ClaimEvents(w.claims)
  {
    var d := Deletions(w.sets, w.claims, f);
    DeletionsInOrder(w.sets, w.claims, f);
    hide Deletions, SetEvents, ClaimEvents, AllDeleted;
    assert (w.log + d)[|w.log|..] == d;
  }

  lemma DeletionsInOrder(sets: seq<string>, claims: seq<string>, f: Faults)
    ensures Deletions(sets, claims, f) <= SetEvents(sets) + ClaimEvents(claims)
  {
    var n, k := Accepted(sets, f.setFails), Accepted(claims, f.claimFails);
    assert SetEvents(sets[..n]) == SetEvents(sets)[..n];
    assert ClaimEvents(claims[..k]) == ClaimEvents(claims)[..k];
    assert n == |sets| ==> sets[..n] == sets;
  }

  /** The deletes a pass asks for, in order. */
  function Requests(w: World): seq<Event> { SetEvents(w.sets) + ClaimEvents(w.claims) }

  predicate Refused(f: Faults, e: Event) {
    match e
    case DeletedStatefulSet(name) => name in f.setFails
    case DeletedPvc(name) => name in f.claimFails
  }

  /** The first `n` requests are accepted, and the next one, if any, is refused. */
  predicate FirstRefusal(f: Faults, requests: seq<Event>, n: nat) {
    && n <= |requests| && (forall i :: 0 <= i < n ==> !Refused(f, requests[i]))
    && (n < |requests| ==> Refused(f, requests[n]))
  }

  /** The first `n` requests went through; with all of them and the update, the finalizer did too. */
  ghost predicate WorksUpTo(f: Faults, w: World, n: nat, w': World) {
    && FirstRefusal(f, Requests(w), n) && w'.log == w.log + Requests(w)[..n]
    && w'.sets == w.sets && w'.claims == w.claims
    && w'.finalizers == if n == |Requests(w)| && !f.updateFails then Without(w.finalizers, DELETE_PVC) else w.finalizers
  }

  lemma DeletionsUpToRefusal(sets: seq<string>, claims: seq<string>, f: Faults) returns (n: nat)
    ensures FirstRefusal(f, SetEvents(sets) + ClaimEvents(claims), n)
    ensures Deletions(sets, claims, f) == (SetEvents(sets) + ClaimEvents(claims))[..n]
  {
    var k, c := Accepted(sets, f.setFails), Accepted(claims, f.claimFails);
    var all := SetEvents(sets) + ClaimEvents(claims);
    assert SetEvents(sets[..k]) == SetEvents(sets)[..k];
    if k < |sets| {
      n := k;
      assert all[n] == DeletedStatefulSet(sets[n]);
    } else {
      n := k + c;
      assert sets[..k] == sets && ClaimEvents(claims[..c]) == ClaimEvents(claims)[..c];
      assert c < |claims| ==> all[n] == DeletedPvc(claims[c]);
    }
  }

  /** A pass works exactly if the configuration map was applied, deletion is enabled, the operator's
      finalizer is there and both lists succeed; otherwise it changes nothing. It then deletes what it
      listed up to the first refusal, and takes the finalizer off exactly if nothing was refused and the
      update succeeds. */
  lemma PassDoesExactly(disabled: bool, f: Faults, w: World)
    ensures var w' := DeletionPass(disabled, f, w);
            if !f.configFails && !disabled && DELETE_PVC in w.finalizers && !f.listClaimsFails && !f.listSetsFails
            then exists n: nat :: WorksUpTo(f, w, n, w')
            else w' == w
  {
    var n := DeletionsUpToRefusal(w.sets, w.claims, f);
    AllDeletedMeans(w.sets, w.claims, f, n);
    hide Deletions, SetEvents, ClaimEvents, Without, AllDeleted, Refused;
    if !f.configFails && !disabled && DELETE_PVC in w.finalizers && !f.listClaimsFails && !f.listSetsFails {
      assert WorksUpTo(f, w, n, DeletionPass(disabled, f, w));
    }
  }

  lemma AllDeletedMeans(sets: seq<string>, claims: seq<string>, f: Faults, n: nat)
    requires FirstRefusal(f, SetEvents(sets) + ClaimEvents(claims), n)
    ensures AllDeleted(sets, claims, f) <==> n == |SetEvents(sets) + ClaimEvents(claims)|
  {
    var all := SetEvents(sets) + ClaimEvents(claims);
    if n == |all| {
      forall i | 0 <= i < |sets| ensures sets[i] !in f.setFails { assert all[i] == DeletedStatefulSet(sets[i]); }
      forall i | 0 <= i < |claims| ensures claims[i] !in f.claimFails {
        assert all[|sets| + i] == DeletedPvc(claims[i]);
      }
    }
  }

  /** The finalizer leaves the resource in exactly the clean passes, each of which has deleted every
      listed StatefulSet and then every listed claim; foreign finalizers keep their order. */
  lemma RemovedExactlyWhenClean(disabled: bool, f: Faults, w: World)
    requires DELETE_PVC in w.finalizers
    ensures var w' := DeletionPass(disabled, f, w);
            && (DELETE_PVC !in w'.finalizers <==> Clean(disabled, f, w))
            && (Clean(disabled, f, w) ==> w'.log == w.log + SetEvents(w.sets) + ClaimEvents(w.claims))
            && Without(w'.finalizers, DELETE_PVC) == Without(w.finalizers, DELETE_PVC)
  {
    WithoutAbsent(w.finalizers, DELETE_PVC);
    WithoutAbsent(Without(w.finalizers, DELETE_PVC), DELETE_PVC);
    var n, k := Accepted(w.sets, f.setFails), Accepted(w.claims, f.claimFails);
    if AllDeleted(w.sets, w.claims, f) {
      assert n == |w.sets| && k == |w.claims|;
      assert w.sets[..n] == w.sets && w.claims[..k] == w.claims;
    }
  }

  /** A deletion run: between passes others may change the listed objects and their own finalizers at
      will, but leave the operator's alone. */
  ghost predicate IsRun(disabled: bool, states: seq<World>, faults: seq<Faults>) {
    && |states| == |faults| + 1
    && forall i :: 0 <= i < |faults| ==>
         var w := DeletionPass(disabled, faults[i], states[i]);
         (DELETE_PVC in states[i + 1].finalizers <==> DELETE_PVC in w.finalizers) && states[i + 1].log == w.log
  }

  /** Nobody else changes the finalizer list either. */
  ghost predicate ForeignUntouched(disabled: bool, states: seq<World>, faults: seq<Faults>)
    requires IsRun(disabled, states, faults)
  {
    forall i :: 0 <= i < |faults| ==>
      states[i + 1].finalizers == DeletionPass(disabled, faults[i], states[i]).finalizers
  }

  /** Along any run the finalizer is still there exactly if it was at the start and no pass so far was
      clean; no pass changes foreign finalizers or their order. */
  lemma {:induction false} PresentUntilCleanPass(disabled: bool, states: seq<World>, faults: seq<Faults>, n: nat)
    requires IsRun(disabled, states, faults) && n < |states|
    ensures DELETE_PVC in states[n].finalizers <==>
            DELETE_PVC in states[0].finalizers && forall i :: 0 <= i < n ==> !Clean(disabled, faults[i], states[i])
    ensures forall i :: 0 <= i < n ==>
              Without(DeletionPass(disabled, faults[i], states[i]).finalizers, DELETE_PVC) ==
              Without(states[i].finalizers, DELETE_PVC)
  {
    if n > 0 {
      hide Deletions, Without, Clean;
      PresentUntilCleanPass(disabled, states, faults, n - 1);
      if DELETE_PVC in states[n - 1].finalizers {
        RemovedExactlyWhenClean(disabled, faults[n - 1], states[n - 1]);
      }
    }
  }

  lemma {:induction false} ForeignKept(disabled: bool, states: seq<World>, faults: seq<Faults>, n: nat)
    requires IsRun(disabled, states, faults) && n < |states| && ForeignUntouched(disabled, states, faults)
    ensures Without(states[n].finalizers, DELETE_PVC) == Without(states[0].finalizers, DELETE_PVC)
  {
    if n > 0 {
      ForeignKept(disabled, states, faults, n - 1);
      PresentUntilCleanPass(disabled, states, faults, n);
    }
  }

  /** Finitely many failures: once a pass meets none, the finalizer is gone for good, and unless someone
      else changes them the others are left in their original order. */
  lemma RetrySucceeds(states: seq<World>, faults: seq<Faults>, good: nat, n: nat)
    requires IsRun(false, states, faults)
    requires good < n < |states| && Clean(false, faults[good], states[good])
    ensures DELETE_PVC !in states[n].finalizers
    ensures ForeignUntouched(false, states, faults) ==>
              states[n].finalizers == Without(states[0].finalizers, DELETE_PVC)
  {
    PresentUntilCleanPass(false, states, faults, n);
    WithoutAbsent(states[n].finalizers, DELETE_PVC);
    if ForeignUntouched(false, states, faults) { ForeignKept(false, states, faults, n); }
  }

  /** Without the operator's finalizer, however it came to be missing, no pass of the rest of a run deletes
      anything or touches the list. */
  lemma {:induction false} AbsentStaysQuiet(disabled: bool, states: seq<World>, faults: seq<Faults>, i: nat, n: nat)
    requires IsRun(disabled, states, faults) && i <= n < |states| && DELETE_PVC !in states[i].finalizers
    ensures DELETE_PVC !in states[n].finalizers && states[n].log == states[i].log
    ensures forall k :: i <= k < n ==> DeletionPass(disabled, faults[k], states[k]) == states[k]
  {
    if i < n {
      AbsentStaysQuiet(disabled, states, faults, i, n - 1);
      PassDoesExactly(disabled, faults[n - 1], states[n - 1]);
      hide DeletionPass;
    }
  }

  /** The clean pass that takes the finalizer off is the last one that deletes anything: the log stays as
      it left it. */
  lemma CleanPassIsLast(disabled: bool, states: seq<World>, faults: seq<Faults>, c: nat, n: nat)
    requires IsRun(disabled, states, faults) && c < n < |states|
    requires DELETE_PVC in states[c].finalizers && Clean(disabled, faults[c], states[c])
    ensures states[n].log == states[c].log + SetEvents(states[c].sets) + ClaimEvents(states[c].claims)
  {
    RemovedExactlyWhenClean(disabled, faults[c], states[c]);
    hide DeletionPass, Clean;
    AbsentStaysQuiet(disabled, states, faults, c + 1, n);
  }

  /** While PVC deletion is disabled the deletion path does nothing, so the finalizer never leaves. */
  lemma DisabledNeverFinishes(states: seq<World>, faults: seq<Faults>, n: nat)
    requires IsRun(true, states, faults) && n < |states|
    requires DELETE_PVC in states[0].finalizers
    ensures DELETE_PVC in states[n].finalizers
  {
    PresentUntilCleanPass(true, states, faults, n);
  }
}
