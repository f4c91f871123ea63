/** Which members a revalidation brings back, what it takes over of its updates, and exactly when it is carried out. */
module Restoration {
  import opened Prelude
  import opened Assignment
  import opened AssignmentProofs
  import opened Lifecycle
  import opened Records
  import opened Sorting
  import opened Groups
  import opened GroupProofs
  import opened Governor
  import opened Invariants
  import opened Plans
  import opened Endings
  import opened Attempts
  import opened Refusals
  import opened Disturbance
  import opened Admission

  // ----- Who comes back -----

  /** The group needs no set, or its set is current in the recorded generation and contains the path of the entry. */
  predicate SetProven(up: Upstream, g: Group, e: MemberEntry) {
    g.source == DIRECT_PATH_SET ||
    (g.multipathSet != NIL && SetContains(up, g.multipathSet, g.multipathGen, e.record.path))
  }

  /** A declared entry as a revalidation leaves it: each proof is what upstream says now, and the member is active exactly
      when it is enabled and upstream vouches for it in every respect. */
  ghost predicate BackExactly(up: Upstream, g: Group, e: MemberEntry) {
    e.record.declared ==>
      && (e.pathCurrent <==> PathProven(up, e)) && (e.multipathCurrent <==> SetProven(up, g, e)) && e.costCurrent
      && (e.record.state == MemberActive <==> e.record.enabled && PathProven(up, e) && SetProven(up, g, e))
  }

  /** A group as a revalidation leaves it: every declared entry is back exactly as upstream says, a kind of staleness is
      noted exactly when some declared entry lacks that proof, and authority is no longer in doubt. */
  ghost predicate BackGroup(up: Upstream, g: Group) {
    && (forall i :: 0 <= i < |g.members| ==> BackExactly(up, g, g.members[i]))
    && (g.currentness.stalePath <==>
        exists i :: 0 <= i < |g.members| && g.members[i].record.declared && !PathProven(up, g.members[i]))
    && (g.currentness.staleMultipath <==>
        exists i :: 0 <= i < |g.members| && g.members[i].record.declared && !SetProven(up, g, g.members[i]))
    && !g.currentness.staleCost && !g.currentness.staleEpoch && !g.currentness.fenced && !g.currentness.revalidation
  }

  lemma {:induction false} EvictedElements(ms: seq<MemberEntry>, max: nat, e: MemberEntry)
    ensures e in Evict(ms, max) ==> e in ms
    ensures e in ms && e.record.declared ==> e in Evict(ms, max)
    decreases |ms|
  {
    if |ms| > max {
      var i := FirstUndeclared(ms);
      if i < |ms| {
        var rest := ms[..i] + ms[i + 1..];
        assert ms == ms[..i] + [ms[i]] + ms[i + 1..];
        EvictedElements(rest, max, e);
      }
    }
  }

  /** Entries before their states are derived, with the same flags as after a revalidation. */
  ghost predicate Observed(up: Upstream, g: Group, e: MemberEntry) {
    e.record.declared ==>
      (e.pathCurrent <==> PathProven(up, e)) && (e.multipathCurrent <==> SetProven(up, g, e)) && e.costCurrent
  }

  lemma RestoredObserved(up: Upstream, h: Group)
    ensures var g := Restored(up, h);
            && (forall i :: 0 <= i < |g.members| ==> Observed(up, g, g.members[i]))
            && (g.currentness.stalePath <==> AnyPathStale(g.members))
            && (g.currentness.staleMultipath <==> g.source == MULTIPATH_FABRIC && AnyMultipathStale(g.members))
            && !g.currentness.staleCost && !g.currentness.staleEpoch && !g.currentness.fenced
            && !g.currentness.revalidation
            && g.source == h.source && g.multipathSet == h.multipathSet && g.multipathGen == h.multipathGen
  {
  }

  /** Deriving states and evicting withdrawn entries keeps what the observation found. */
  lemma BackAfterRefresh(up: Upstream, g: Group, f: Group, max: nat)
    requires forall i :: 0 <= i < |g.members| ==> Observed(up, g, g.members[i])
    requires g.currentness.stalePath <==> AnyPathStale(g.members)
    requires g.currentness.staleMultipath <==> g.source == MULTIPATH_FABRIC && AnyMultipathStale(g.members)
    requires !g.currentness.staleCost && !g.currentness.staleEpoch && !g.currentness.fenced && !g.currentness.revalidation
    requires f.members == MapEntries(DeriveEntry, g.members) && f.currentness == g.currentness
    requires f.source == g.source && f.multipathSet == g.multipathSet && f.multipathGen == g.multipathGen
    ensures BackGroup(up, f.(members := Evict(f.members, max)))
  {
    var done := f.(members := Evict(f.members, max));
    forall i | 0 <= i < |done.members| ensures BackExactly(up, done, done.members[i]) {
      EvictedElements(f.members, max, done.members[i]);
      var k :| 0 <= k < |f.members| && f.members[k] == done.members[i];
      assert Observed(up, g, g.members[k]) && f.members[k] == DeriveEntry(g.members[k]);
    }
    if AnyPathStale(g.members) {
      var k :| 0 <= k < |g.members| && g.members[k].record.declared && !g.members[k].pathCurrent;
      KeptSomewhere(up, g, f, done, k, max);
    }
    if g.source == MULTIPATH_FABRIC && AnyMultipathStale(g.members) {
      var k :| 0 <= k < |g.members| && g.members[k].record.declared && !g.members[k].multipathCurrent;
      KeptSomewhere(up, g, f, done, k, max);
    }
    forall i | 0 <= i < |done.members| && done.members[i].record.declared
      ensures !PathProven(up, done.members[i]) ==> AnyPathStale(g.members)
      ensures !SetProven(up, done, done.members[i]) ==> g.source == MULTIPATH_FABRIC && AnyMultipathStale(g.members)
    {
      EvictedElements(f.members, max, done.members[i]);
      var k :| 0 <= k < |f.members| && f.members[k] == done.members[i];
      assert Observed(up, g, g.members[k]) && f.members[k] == DeriveEntry(g.members[k]);
    }
  }

  lemma KeptSomewhere(up: Upstream, g: Group, f: Group, done: Group, k: nat, max: nat)
    requires k < |g.members| && g.members[k].record.declared && f.members == MapEntries(DeriveEntry, g.members)
    requires done.members == Evict(f.members, max) && Observed(up, g, g.members[k])
    requires done.source == g.source && done.multipathSet == g.multipathSet && done.multipathGen == g.multipathGen
    ensures exists i :: 0 <= i < |done.members| && done.members[i].record.declared &&
                        PathProven(up, done.members[i]) == g.members[k].pathCurrent &&
                        SetProven(up, done, done.members[i]) == g.members[k].multipathCurrent
  {
    EvictedElements(f.members, max, f.members[k]);
    var i :| 0 <= i < |done.members| && done.members[i] == f.members[k];
    assert PathProven(up, done.members[i]) == PathProven(up, g.members[k]);
    assert SetProven(up, done, done.members[i]) == SetProven(up, g, g.members[k]);
  }

  /** The group that a revalidation stores: its updated, restored group, refreshed and within its bound. */
  lemma RevalidationStores(s: State, r: Request, up: Upstream)
    requires Inv(s) && r.Revalidate? && Revalidation(s, r, up).outcome == REVALIDATED
    ensures UpdatesBegun(s, r) && r.group in s.groups && r.group in Revalidation(s, r, up).state.groups
    ensures var t := Restored(up, WithMultipath(Updated(s, r, up), r.newMultipathGen));
            var c := ContextFor(s, r.authority, ChangeReason.REVALIDATION, GroupEvent.REVALIDATE);
            var f := Refresh(t, c, s.limits.maxHistory).group;
            && RefreshedFrom(t, c, s.limits, f)
            && Revalidation(s, r, up).state.groups[r.group] == Evicted(f, s.limits)
    ensures RevalidationSteps(s, r, up)
  {
    hide Preamble, Finish, GroupOk, Loose, Inv, ApplyUpdates, Tweaked, Restored, WithMultipath, Adopt, Claims, StepOk,
         CheckAdoption, CheckMultipathUpdate, Advances, AdoptionNeeded, RefreshedFrom, EntriesOk, Refresh, RepeatsMember,
         LifecycleAllows, Evict;
    var event := GroupEvent.REVALIDATE;
    if Preamble(s, r, event).Some? {
      RefusalIsNotAccepted(s, r, event);
    } else {
      Ready(s, r, event);
      RevalidationRefuses(s, r, up);
      UpdatedTweaks(s, r, up);
      var g, updated := s.groups[r.group], Updated(s, r, up);
      TweakedOk(g, updated, s.limits);
      TweakedIdentity(g, updated);
      RestoredStores(s, r, up, g, updated);
    }
  }

  /** Every update was applied and the new set generation, if any, is the current one. */
  ghost predicate RevalidationSteps(s: State, r: Request, up: Upstream)
    requires r.Revalidate? && r.group in s.groups
  {
    var g, claims := s.groups[r.group], Claims(r.updates);
    var adopted := if AdoptionNeeded(g, claims) then Adopt(g, claims[0]) else g;
    && ApplyUpdates(up, adopted, r.updates, 0).1.None?
    && CheckMultipathUpdate(up, Updated(s, r, up), r.newMultipathGen).None?
  }

  lemma RestoredStores(s: State, r: Request, up: Upstream, g: Group, updated: Group)
    requires Inv(s) && r.Revalidate? && g.id in s.groups && s.groups[g.id] == g && g.successor == NIL && g.id == r.group
    requires GroupOk(updated, s.limits) && Advances(g, updated) && updated.id == g.id && updated.plan == g.plan
    requires updated.lifecycle == g.lifecycle && updated.successor == g.successor
    requires LifecycleAllows(g.lifecycle, GroupEvent.REVALIDATE)
    ensures var t := Restored(up, WithMultipath(updated, r.newMultipathGen));
            var c := ContextFor(s, r.authority, ChangeReason.REVALIDATION, GroupEvent.REVALIDATE);
            var f := Refresh(t, c, s.limits.maxHistory).group;
            && RefreshedFrom(t, c, s.limits, f)
            && Finish(s, t, c, r, REVALIDATED).state.groups == s.groups[g.id := Evicted(f, s.limits)]
  {
    hide Finish, LifecycleAllows, Inv, StepOk, Restored, WithMultipath, GroupOk, Loose, Refresh, RefreshedFrom, Advances,
         EntriesOk, Derived;
    var c := ContextFor(s, r.authority, ChangeReason.REVALIDATION, GroupEvent.REVALIDATE);
    var t := Restored(up, WithMultipath(updated, r.newMultipathGen));
    DeclaredBound(updated, s.limits);
    OkIsLoose(updated, s.limits);
    RestoredLedger(up, updated, r.newMultipathGen);
    LedgerKeepsLoose(updated, t, s.limits);
    AdvancesTransitive(g, updated, t);
    FinishOk(s, g, t, c, r, REVALIDATED);
    RefreshFacts(t, c, s.limits);
  }

  lemma RefreshedFrame(t: Group, c: Context, limits: Limits, f: Group)
    requires RefreshedFrom(t, c, limits, f)
    ensures f.members == MapEntries(DeriveEntry, t.members) && f.currentness == t.currentness
    ensures f.source == t.source && f.multipathSet == t.multipathSet && f.multipathGen == t.multipathGen
    ensures f.semantics == t.semantics && f.canonicalCost == t.canonicalCost && f.plan == t.plan
  {
  }

  /** A revalidation that is carried out makes exactly those declared members active that are enabled and for which the
      path authority vouches now, in the recorded generation, and, in a fabric group, whose path is in the current set. */
  lemma RevalidationBringsBack(s: State, r: Request, up: Upstream)
    requires Inv(s) && r.Revalidate? && Revalidation(s, r, up).outcome == REVALIDATED
    ensures r.group in Revalidation(s, r, up).state.groups
    ensures BackGroup(up, Revalidation(s, r, up).state.groups[r.group])
  {
    hide Revalidation, Inv, Restored, WithMultipath, RefreshedFrom, Refresh, Evict, BackGroup, Observed, UpdatesBegun,
         RevalidationSteps, Updated;
    RevalidationStores(s, r, up);
    var h := WithMultipath(Updated(s, r, up), r.newMultipathGen);
    var t := Restored(up, h);
    var c := ContextFor(s, r.authority, ChangeReason.REVALIDATION, GroupEvent.REVALIDATE);
    RestoredObserved(up, h);
    RefreshedFrame(t, c, s.limits, Refresh(t, c, s.limits.maxHistory).group);
    BackAfterRefresh(up, t, Refresh(t, c, s.limits.maxHistory).group, s.limits.maxMembersPerGroup);
  }

  // ----- What it takes over of its updates -----

  /** What an update makes of a record: its path authority unless that is zero, and its cost claim if it has one. */
  function Renewed(r: MemberRecord, u: MemberRevalidation): MemberRecord {
    MemberRecord(r.member, r.path, if u.pathAuthority != 0 then u.pathAuthority else r.pathAuthority, r.memberGeneration,
                 match u.cost case None => r.cost case Some(claim) => claim,
                 r.provenance, r.enabled, r.declared, r.state)
  }

  /** From update i on: an entry that is named is renewed by the update that names it, any other stays as it is. */
  ghost predicate Takes(e: MemberEntry, e': MemberEntry, updates: seq<MemberRevalidation>, i: nat) {
    && ((forall j :: i <= j < |updates| ==> updates[j].member != e.record.member) ==> e' == e)
    && forall j :: i <= j < |updates| && updates[j].member == e.record.member ==>
         e' == MemberEntry(Renewed(e.record, updates[j]), e.pathCurrent, e.pathAuthorized, e.multipathCurrent,
                           e.costCurrent)
  }

  /** The update names a declared member, whose renewed record meets the conditions of the group. */
  ghost predicate Applicable(up: Upstream, g: Group, u: MemberRevalidation) {
    exists k :: 0 <= k < |g.members| && g.members[k].record.declared && g.members[k].record.member == u.member &&
                MeetsIn(up, g, SpecOf(Renewed(g.members[k].record, u)))
  }

  ghost predicate DistinctFrom(updates: seq<MemberRevalidation>, i: nat) {
    forall j, k :: i <= j < k < |updates| ==> updates[j].member != updates[k].member
  }

  lemma UpdateStep(up: Upstream, g: Group, u: MemberRevalidation, k: nat)
    requires EntriesOk(g.members) && k == Locate(g.members, u.member)
    ensures Applicable(up, g, u) <==>
            k < |g.members| && g.members[k].record.declared && ValidateFor(up, g, UpdatedSpec(g.members[k], u)).None?
    ensures k < |g.members| ==>
              Reproved(g.members[k], UpdatedSpec(g.members[k], u)) ==
              g.members[k].(record := Renewed(g.members[k].record, u)) &&
              SpecOf(Renewed(g.members[k].record, u)) == UpdatedSpec(g.members[k], u)
  {
    hide EntriesOk, ValidateSpec, Meets, Locate;
    forall i | 0 <= i < |g.members| && g.members[i].record.member == u.member ensures i == k {
      OnlyEntryOf(g.members, i);
    }
    if k < |g.members| {
      MeetsExactly(up, UpdatedSpec(g.members[k], u), g.semantics, g.canonicalCost, g.source, g.multipathSet,
                   g.multipathGen);
    }
  }

  lemma RenewedPlaces(g: Group, k: nat, u: MemberRevalidation)
    requires EntriesOk(g.members) && k < |g.members|
    ensures EntriesOk(g.members[k := g.members[k].(record := Renewed(g.members[k].record, u))])
  {
    SamePlacesKeepsEntries(g.members, g.members[k := g.members[k].(record := Renewed(g.members[k].record, u))]);
  }

  /** The updates of others do not decide whether an update applies. */
  lemma ApplicableElsewhere(up: Upstream, g: Group, k: nat, e: MemberEntry, u: MemberRevalidation)
    requires k < |g.members| && e.record.member == g.members[k].record.member && u.member != e.record.member
    ensures Applicable(up, g.(members := g.members[k := e]), u) <==> Applicable(up, g, u)
  {
    hide MeetsIn;
    var h := g.(members := g.members[k := e]);
    SameTermsMeet(up, g, h);
    if Applicable(up, g, u) {
      var i :| 0 <= i < |g.members| && g.members[i].record.declared && g.members[i].record.member == u.member &&
               MeetsIn(up, g, SpecOf(Renewed(g.members[i].record, u)));
      assert h.members[i] == g.members[i];
    }
    if Applicable(up, h, u) {
      var i :| 0 <= i < |h.members| && h.members[i].record.declared && h.members[i].record.member == u.member &&
               MeetsIn(up, h, SpecOf(Renewed(h.members[i].record, u)));
      assert h.members[i] == g.members[i];
    }
  }

  lemma SameTermsMeet(up: Upstream, g: Group, h: Group)
    requires h == g.(members := h.members)
    ensures forall spec :: MeetsIn(up, h, spec) <==> MeetsIn(up, g, spec)
  {
    hide Meets;
  }

  /** When no member is named twice, the updates go through exactly when each of them applies to the group as it is, and
      then every entry takes its own update. */
  lemma {:induction false} UpdatesExactly(up: Upstream, g: Group, updates: seq<MemberRevalidation>, i: nat)
    requires EntriesOk(g.members) && i <= |updates| && DistinctFrom(updates, i)
    ensures ApplyUpdates(up, g, updates, i).1.None? <==>
            forall j :: i <= j < |updates| ==> Applicable(up, g, updates[j])
    ensures var g' := ApplyUpdates(up, g, updates, i).0; g' == g.(members := g'.members) && |g'.members| == |g.members|
    ensures ApplyUpdates(up, g, updates, i).1.None? ==>
              var g' := ApplyUpdates(up, g, updates, i).0;
              forall n :: 0 <= n < |g.members| ==> Takes(g.members[n], g'.members[n], updates, i)
    decreases |updates| - i
  {
    hide EntriesOk, ValidateFor, Applicable, Locate, Renewed, UpdatedSpec, Reproved, SpecOf;
    if i < |updates| {
      var u := updates[i];
      var k := Locate(g.members, u.member);
      UpdateStep(up, g, u, k);
      if Applicable(up, g, u) {
        var e := g.members[k].(record := Renewed(g.members[k].record, u));
        var h := g.(members := g.members[k := e]);
        RenewedPlaces(g, k, u);
        UpdatesExactly(up, h, updates, i + 1);
        RenewedMember(g.members[k].record, u);
        forall j | i < j < |updates| ensures Applicable(up, h, updates[j]) <==> Applicable(up, g, updates[j]) {
          ApplicableElsewhere(up, g, k, e, updates[j]);
        }
        if ApplyUpdates(up, g, updates, i).1.None? {
          TakesAfter(g, updates, i, k, ApplyUpdates(up, h, updates, i + 1).0);
        }
      }
    }
  }

  lemma RenewedMember(r: MemberRecord, u: MemberRevalidation)
    ensures Renewed(r, u).member == r.member
  {
  }

  lemma TakesAfter(g: Group, updates: seq<MemberRevalidation>, i: nat, k: nat, g': Group)
    requires EntriesOk(g.members) && i < |updates| && DistinctFrom(updates, i) && k == Locate(g.members, updates[i].member)
    requires k < |g.members| && |g'.members| == |g.members|
    requires var h := g.members[k := g.members[k].(record := Renewed(g.members[k].record, updates[i]))];
             forall n :: 0 <= n < |h| ==> Takes(h[n], g'.members[n], updates, i + 1)
    ensures forall n :: 0 <= n < |g.members| ==> Takes(g.members[n], g'.members[n], updates, i)
  {
    hide EntriesOk, Locate;
    var h := g.members[k := g.members[k].(record := Renewed(g.members[k].record, updates[i]))];
    forall n | 0 <= n < |g.members| ensures Takes(g.members[n], g'.members[n], updates, i) {
      OnlyEntryOf(g.members, n);
      assert Takes(h[n], g'.members[n], updates, i + 1);
    }
  }

  // ----- Exactly when it is carried out -----

  /** Some update brings a cost claim under another policy than the group follows. */
  ghost predicate BringsPolicy(g: Group, updates: seq<MemberRevalidation>) {
    exists j :: 0 <= j < |updates| && updates[j].cost.Some? &&
                updates[j].cost.value.binding.policyGeneration != g.semantics.binding.policyGeneration
  }

  /** Positions of the updates with a cost claim. */
  function Claiming(updates: seq<MemberRevalidation>): set<nat> { set j: nat | j < |updates| && updates[j].cost.Some? }

  /** A new policy is taken over only from as many claims as there are declared members, all with one binding and one
      cost in the class of the group, and only when it is the policy last announced for the class. */
  ghost predicate MayAdopt(s: State, g: Group, updates: seq<MemberRevalidation>, claim: CostClaim) {
    && |Claiming(updates)| == |DeclaredIds(g.members)|
    && (forall j :: 0 <= j < |updates| && updates[j].cost.Some? ==>
          var c := updates[j].cost.value;
          c.costClass == g.semantics.costClass && c.binding == claim.binding && c.cost == claim.cost)
    && g.semantics.costClass in s.costPolicy
    && s.costPolicy[g.semantics.costClass] == claim.binding.policyGeneration
  }

  lemma {:induction false} ClaimsCounted(updates: seq<MemberRevalidation>)
    ensures |Claims(updates)| == |Claiming(updates)|
  {
    if updates == [] {
      assert Claiming(updates) == {};
    } else {
      var n := |updates| - 1;
      ClaimsCounted(updates[..n]);
      OneMorePosition(n, Claiming(updates[..n]), Claiming(updates), updates[n].cost.Some?);
    }
  }

  lemma {:induction false} ClaimElements(updates: seq<MemberRevalidation>, claim: CostClaim)
    ensures claim in Claims(updates) <==> exists j :: 0 <= j < |updates| && updates[j].cost == Some(claim)
  {
    if updates != [] {
      var n := |updates| - 1;
      ClaimElements(updates[..n], claim);
      if claim in Claims(updates[..n]) {
        var j :| 0 <= j < n && updates[..n][j].cost == Some(claim);
        assert updates[j].cost == Some(claim);
      }
      if exists j :: 0 <= j < |updates| && updates[j].cost == Some(claim) {
        var j :| 0 <= j < |updates| && updates[j].cost == Some(claim);
        if j < n { assert updates[..n][j].cost == Some(claim); }
      }
    }
  }

  lemma NeededExactly(g: Group, updates: seq<MemberRevalidation>)
    ensures AdoptionNeeded(g, Claims(updates)) <==> BringsPolicy(g, updates)
  {
    var claims := Claims(updates);
    hide Claims;
    if AdoptionNeeded(g, claims) {
      var i :| 0 <= i < |claims| && claims[i].binding.policyGeneration != g.semantics.binding.policyGeneration;
      ClaimElements(updates, claims[i]);
    }
    if BringsPolicy(g, updates) {
      var j :| 0 <= j < |updates| && updates[j].cost.Some? &&
               updates[j].cost.value.binding.policyGeneration != g.semantics.binding.policyGeneration;
      ClaimElements(updates, updates[j].cost.value);
      assert updates[j].cost.value in claims;
    }
  }

  lemma AdoptedExactly(s: State, g: Group, updates: seq<MemberRevalidation>)
    requires |Claims(updates)| > 0
    ensures CheckAdoption(s, g, Claims(updates)).None? <==> MayAdopt(s, g, updates, Claims(updates)[0])
    ensures exists j :: 0 <= j < |updates| && updates[j].cost == Some(Claims(updates)[0])
  {
    var claims := Claims(updates);
    hide Claims;
    ClaimsCounted(updates);
    ClaimElements(updates, claims[0]);
    assert claims[0] in claims;
    forall i | 0 <= i < |claims| ensures exists j :: 0 <= j < |updates| && updates[j].cost == Some(claims[i]) {
      ClaimElements(updates, claims[i]);
      assert claims[i] in claims;
    }
    forall j | 0 <= j < |updates| && updates[j].cost.Some? ensures updates[j].cost.value in claims {
      ClaimElements(updates, updates[j].cost.value);
    }
  }

  /** A new set generation is only for fabric groups, and only the current one. */
  predicate SetRenewable(up: Upstream, g: Group, generation: Option<U64>) {
    generation == None ||
    (g.source == MULTIPATH_FABRIC && g.multipathSet in up.sets && up.sets[g.multipathSet] == generation.value)
  }

  /** The group with the terms that the updates bring. */
  ghost function WithTerms(g: Group, updates: seq<MemberRevalidation>): Group
  {
    if AdoptionNeeded(g, Claims(updates)) then Adopt(g, Claims(updates)[0]) else g
  }

  /** What is asked of a revalidation beyond the common checks. */
  ghost predicate Revalidates(s: State, r: Request, up: Upstream)
    requires r.Revalidate? && r.group in s.groups
  {
    var g := s.groups[r.group];
    && |r.updates| <= s.limits.maxBatchSize && DistinctFrom(r.updates, 0)
    && (BringsPolicy(g, r.updates) ==>
          exists j :: 0 <= j < |r.updates| && r.updates[j].cost.Some? &&
                      MayAdopt(s, g, r.updates, r.updates[j].cost.value))
    && (forall j :: 0 <= j < |r.updates| ==> Applicable(up, WithTerms(g, r.updates), r.updates[j]))
    && SetRenewable(up, g, r.newMultipathGen)
  }

  lemma AdoptableExactly(s: State, g: Group, updates: seq<MemberRevalidation>)
    requires AdoptionNeeded(g, Claims(updates))
    ensures |Claims(updates)| > 0
    ensures CheckAdoption(s, g, Claims(updates)).None? <==>
            exists j :: 0 <= j < |updates| && updates[j].cost.Some? && MayAdopt(s, g, updates, updates[j].cost.value)
  {
    hide Claims, MayAdopt;
    assert |Claims(updates)| > 0;
    AdoptedExactly(s, g, updates);
    var n :| 0 <= n < |updates| && updates[n].cost == Some(Claims(updates)[0]);
    if exists j :: 0 <= j < |updates| && updates[j].cost.Some? && MayAdopt(s, g, updates, updates[j].cost.value) {
      var j :| 0 <= j < |updates| && updates[j].cost.Some? && MayAdopt(s, g, updates, updates[j].cost.value);
      OneClaimForAll(s, g, updates, j, n);
    }
  }

  lemma OneClaimForAll(s: State, g: Group, updates: seq<MemberRevalidation>, j: nat, n: nat)
    requires j < |updates| && n < |updates| && updates[j].cost.Some? && updates[n].cost.Some?
    requires MayAdopt(s, g, updates, updates[j].cost.value)
    ensures MayAdopt(s, g, updates, updates[n].cost.value)
  {
    hide Claiming;
  }

  lemma DistinctExactly(updates: seq<MemberRevalidation>)
    ensures RepeatsMember(updates) <==> !DistinctFrom(updates, 0)
  {
  }

  lemma TermsKeepEntries(g: Group, updates: seq<MemberRevalidation>)
    ensures var h := WithTerms(g, updates);
            h.members == g.members && h.source == g.source && h.multipathSet == g.multipathSet
  {
    hide Claims, AdoptionNeeded;
  }

  lemma SetExactly(up: Upstream, g: Group, h: Group, generation: Option<U64>)
    requires h.source == g.source && h.multipathSet == g.multipathSet
    ensures CheckMultipathUpdate(up, h, generation).None? <==> SetRenewable(up, g, generation)
  {
  }

  /** Past the common checks a revalidation is carried out exactly when it fits the batch, names no member twice, may adopt
      the cost policy it brings, every update applies under the terms that result, and the set generation it names, if
      any, is the current one. */
  lemma RevalidatedExactly(s: State, r: Request, up: Upstream)
    requires Inv(s) && r.Revalidate? && Preamble(s, r, GroupEvent.REVALIDATE).None?
    ensures r.group in s.groups
    ensures Revalidation(s, r, up).outcome == REVALIDATED <==> Revalidates(s, r, up)
  {
    hide Preamble, Finish, GroupOk, Loose, Inv, ApplyUpdates, Adopt, Claims, CheckAdoption, CheckMultipathUpdate,
         AdoptionNeeded, EntriesOk, LifecycleAllows, RepeatsMember, Restored, WithMultipath, MayAdopt, Applicable,
         BringsPolicy, DistinctFrom, SetRenewable;
    Ready(s, r, GroupEvent.REVALIDATE);
    var g := s.groups[r.group];
    RevalidationRefuses(s, r, up);
    DistinctExactly(r.updates);
    NeededExactly(g, r.updates);
    if AdoptionNeeded(g, Claims(r.updates)) { AdoptableExactly(s, g, r.updates); }
    TermsKeepEntries(g, r.updates);
    if DistinctFrom(r.updates, 0) { UpdatesExactly(up, WithTerms(g, r.updates), r.updates, 0); }
    UpdatedKeepsSet(s, r, up);
    SetExactly(up, g, Updated(s, r, up), r.newMultipathGen);
    RevalidationSucceeds(s, r, up);
  }

  lemma UpdatedKeepsSet(s: State, r: Request, up: Upstream)
    requires r.Revalidate? && r.group in s.groups
    ensures var g, h := s.groups[r.group], Updated(s, r, up); h.source == g.source && h.multipathSet == g.multipathSet
  {
    hide Updated;
    UpdatedTweaks(s, r, up);
  }

  // ----- The terms and records it leaves -----

  /** A record renewed by the update that names it, if any, whatever its state. */
  ghost predicate TakesRecord(r: MemberRecord, r': MemberRecord, updates: seq<MemberRevalidation>) {
    && ((forall j :: 0 <= j < |updates| ==> updates[j].member != r.member) ==> r'.(state := r.state) == r)
    && forall j :: 0 <= j < |updates| && updates[j].member == r.member ==> r'.(state := r.state) == Renewed(r, updates[j])
  }

  /** The terms of the group are those of the claims when they bring another policy and stay otherwise; the set
      generation is the one named, if any. */
  ghost predicate TakesTerms(g: Group, g': Group, r: Request)
    requires r.Revalidate?
  {
    && (BringsPolicy(g, r.updates) ==>
          forall j :: 0 <= j < |r.updates| && r.updates[j].cost.Some? ==>
            var claim := r.updates[j].cost.value;
            g'.semantics == CostSemantics(g.semantics.costClass, claim.binding) && g'.canonicalCost == claim.cost)
    && (!BringsPolicy(g, r.updates) ==> g'.semantics == g.semantics && g'.canonicalCost == g.canonicalCost)
    && g'.multipathGen == (match r.newMultipathGen case None => g.multipathGen case Some(n) => n)
  }

  lemma RestoredKeepsRecords(up: Upstream, h: Group, generation: Option<U64>)
    ensures var t := Restored(up, WithMultipath(h, generation));
            && |t.members| == |h.members| && t.semantics == h.semantics && t.canonicalCost == h.canonicalCost
            && t.multipathGen == (match generation case None => h.multipathGen case Some(n) => n)
            && forall n :: 0 <= n < |h.members| ==> t.members[n].record == h.members[n].record
  {
  }

  lemma BegunParts(s: State, r: Request)
    requires r.Revalidate? && r.group in s.groups && UpdatesBegun(s, r) && Inv(s)
    ensures EntriesOk(s.groups[r.group].members) && !RepeatsMember(r.updates)
    ensures var g, claims := s.groups[r.group], Claims(r.updates);
            AdoptionNeeded(g, claims) ==> CheckAdoption(s, g, claims).None?
  {
    hide Preamble, Claims, CheckAdoption, AdoptionNeeded, RepeatsMember;
    OkIsLoose(s.groups[r.group], s.limits);
  }

  lemma AdoptedTerms(s: State, g: Group, updates: seq<MemberRevalidation>)
    requires AdoptionNeeded(g, Claims(updates)) ==> CheckAdoption(s, g, Claims(updates)).None?
    ensures var h := WithTerms(g, updates);
            && h.multipathGen == g.multipathGen
            && (BringsPolicy(g, updates) ==>
                  forall j :: 0 <= j < |updates| && updates[j].cost.Some? ==>
                    var claim := updates[j].cost.value;
                    h.semantics == CostSemantics(g.semantics.costClass, claim.binding) && h.canonicalCost == claim.cost)
            && (!BringsPolicy(g, updates) ==> h.semantics == g.semantics && h.canonicalCost == g.canonicalCost)
  {
    hide Claims, CheckAdoption, AdoptionNeeded, MayAdopt, BringsPolicy;
    NeededExactly(g, updates);
    if AdoptionNeeded(g, Claims(updates)) {
      AdoptableExactly(s, g, updates);
      AdoptedExactly(s, g, updates);
      AllClaimAlike(s, g, updates, Claims(updates)[0]);
    }
  }

  lemma AllClaimAlike(s: State, g: Group, updates: seq<MemberRevalidation>, claim: CostClaim)
    requires MayAdopt(s, g, updates, claim)
    ensures forall j :: 0 <= j < |updates| && updates[j].cost.Some? ==>
              updates[j].cost.value.binding == claim.binding && updates[j].cost.value.cost == claim.cost
  {
  }

  /** Every declared record of the group is found afterwards as its own update renews it, and the terms are those that the
      updates bring. */
  lemma RevalidationTakes(s: State, r: Request, up: Upstream)
    requires Inv(s) && r.Revalidate? && Revalidation(s, r, up).outcome == REVALIDATED
    ensures r.group in s.groups && r.group in Revalidation(s, r, up).state.groups
    ensures var g, g' := s.groups[r.group], Revalidation(s, r, up).state.groups[r.group];
            && TakesTerms(g, g', r)
            && forall n :: 0 <= n < |g.members| && g.members[n].record.declared ==>
                 RecordIn(g.members[n].record, g'.members, r.updates)
  {
    hide Revalidation, Inv, Restored, WithMultipath, RefreshedFrom, Refresh, Evict, UpdatesBegun, Takes, EntriesOk,
         Claims, CheckAdoption, AdoptionNeeded, ApplyUpdates, CheckMultipathUpdate, BringsPolicy, RepeatsMember,
         DistinctFrom, RecordIn, WithTerms;
    RevalidationStores(s, r, up);
    var g := s.groups[r.group];
    BegunParts(s, r);
    DistinctExactly(r.updates);
    AdoptedTerms(s, g, r.updates);
    TermsKeepEntries(g, r.updates);
    UpdatesExactly(up, WithTerms(g, r.updates), r.updates, 0);
    StepsWithTerms(s, r, up);
    var h := Updated(s, r, up);
    RestoredKeepsRecords(up, h, r.newMultipathGen);
    var t := Restored(up, WithMultipath(h, r.newMultipathGen));
    var c := ContextFor(s, r.authority, ChangeReason.REVALIDATION, GroupEvent.REVALIDATE);
    var f := Refresh(t, c, s.limits.maxHistory).group;
    RefreshedFrame(t, c, s.limits, f);
    forall n | 0 <= n < |g.members| && g.members[n].record.declared
      ensures RecordIn(g.members[n].record, Evicted(f, s.limits).members, r.updates)
    {
      RecordFound(g.members[n], h.members[n], f.members, n, s.limits.maxMembersPerGroup, r.updates);
    }
  }

  /** Some entry holds the renewed record. */
  ghost predicate RecordIn(r: MemberRecord, ms: seq<MemberEntry>, updates: seq<MemberRevalidation>) {
    exists k :: 0 <= k < |ms| && TakesRecord(r, ms[k].record, updates)
  }

  lemma StepsWithTerms(s: State, r: Request, up: Upstream)
    requires r.Revalidate? && r.group in s.groups && RevalidationSteps(s, r, up)
    ensures var g := s.groups[r.group];
            ApplyUpdates(up, WithTerms(g, r.updates), r.updates, 0).1.None? &&
            Updated(s, r, up) == ApplyUpdates(up, WithTerms(g, r.updates), r.updates, 0).0
  {
    hide ApplyUpdates, Claims, AdoptionNeeded, CheckMultipathUpdate, Adopt;
  }

  lemma RecordFound(e: MemberEntry, updated: MemberEntry, fs: seq<MemberEntry>, n: nat, max: nat,
                    updates: seq<MemberRevalidation>)
    requires Takes(e, updated, updates, 0) && e.record.declared && n < |fs|
    requires fs[n].record == updated.record.(state := fs[n].record.state)
    ensures RecordIn(e.record, Evict(fs, max), updates)
  {
    assert fs[n].record.declared;
    EvictedElements(fs, max, fs[n]);
    var k :| 0 <= k < |Evict(fs, max)| && Evict(fs, max)[k] == fs[n];
    assert TakesRecord(e.record, fs[n].record, updates);
  }
}
