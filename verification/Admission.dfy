/** What an admitted member satisfies upstream and in cost, and that nothing else is asked of it: every operation that
    validates members admits them exactly under these conditions. */
module Admission {
  import opened Prelude
  import opened Assignment
  import opened AssignmentProofs
  import opened Lifecycle
  import opened Records
  import opened Groups
  import opened GroupProofs
  import opened Governor
  import opened Invariants
  import opened Endings
  import opened Attempts
  import opened OrderFree
  import opened Refusals
  import opened Diff
  import opened Sorting

  // ----- Who is declared -----

  /** The declared list has exactly the members of the declared entries. */
  lemma {:induction false} DeclaredMembers(ms: seq<MemberEntry>, x: Id)
    ensures x in DeclaredIds(ms) <==> exists i :: 0 <= i < |ms| && ms[i].record.declared && ms[i].record.member == x
  {
    if ms != [] {
      var init := ms[..|ms| - 1];
      DeclaredMembers(init, x);
      if x in DeclaredIds(init) {
        var i :| 0 <= i < |init| && init[i].record.declared && init[i].record.member == x;
        assert ms[i] == init[i];
      }
      if exists i :: 0 <= i < |ms| && ms[i].record.declared && ms[i].record.member == x {
        var i :| 0 <= i < |ms| && ms[i].record.declared && ms[i].record.member == x;
        if i < |init| { assert init[i] == ms[i]; }
      }
    }
  }

  lemma OnlyEntryOf(ms: seq<MemberEntry>, i: nat)
    requires EntriesOk(ms) && i < |ms|
    ensures Locate(ms, ms[i].record.member) == i
  {
    assert MemberIds(ms)[i] == ms[i].record.member;
    ListedIndex(MemberIds(ms), i);
  }

  lemma DeclaredInExactly(ms: seq<MemberEntry>, x: Id)
    requires EntriesOk(ms)
    ensures DeclaredIn(ms, x) <==> x in DeclaredIds(ms)
  {
    hide EntriesOk, Locate;
    DeclaredMembers(ms, x);
    if x in DeclaredIds(ms) {
      var i :| 0 <= i < |ms| && ms[i].record.declared && ms[i].record.member == x;
      OnlyEntryOf(ms, i);
    }
  }

  // ----- One spec -----

  /** Every identity is named and the cost is a number the program can hold. */
  predicate Complete(spec: MemberSpec) {
    && spec.member != NIL && spec.path != NIL && spec.provenance != NIL
    && spec.cost.costClass != NIL && spec.cost.binding.model != NIL && spec.cost.binding.routeClass != NIL
    && spec.cost.source != NIL && spec.cost.cost.scale <= 9
  }

  /** The path authority knows the path, authorizes it, and does so in the generation the spec names. */
  predicate PathGranted(up: Upstream, spec: MemberSpec) {
    && spec.path in up.paths && up.paths[spec.path].authorized
    && up.paths[spec.path].generation == spec.pathAuthority
  }

  /** The set is current in this generation and contains the path. */
  predicate SetContains(up: Upstream, mset: Id, generation: U64, path: Id) {
    mset in up.sets && up.sets[mset] == generation && (mset, generation, path) in up.contains
  }

  /** A group over direct paths asks for no set. */
  predicate SetGranted(up: Upstream, path: Id, source: MembershipSource, mset: Id, generation: U64) {
    source == DIRECT_PATH_SET || SetContains(up, mset, generation, path)
  }

  predicate SameCostModel(claim: CostClaim, semantics: CostSemantics) {
    && claim.costClass == semantics.costClass && claim.binding.model == semantics.binding.model
    && claim.binding.modelVersion == semantics.binding.modelVersion
    && claim.binding.routeClass == semantics.binding.routeClass
  }

  predicate SamePolicy(claim: CostClaim, semantics: CostSemantics) {
    claim.binding.policyGeneration == semantics.binding.policyGeneration
  }

  /** Everything an admitted spec satisfies. */
  predicate Meets(up: Upstream, spec: MemberSpec, semantics: CostSemantics, cost: PathCost, source: MembershipSource,
                  mset: Id, generation: U64)
  {
    && Complete(spec) && PathGranted(up, spec) && SetGranted(up, spec.path, source, mset, generation)
    && SameCostModel(spec.cost, semantics) && SamePolicy(spec.cost, semantics)
    && spec.cost.cost.units == cost.units && spec.cost.cost.scale == cost.scale
  }

  predicate MeetsIn(up: Upstream, g: Group, spec: MemberSpec) {
    Meets(up, spec, g.semantics, g.canonicalCost, g.source, g.multipathSet, g.multipathGen)
  }

  /** The first condition that a spec fails decides how it is refused, and a spec that meets all of them is not refused. */
  lemma ValidatedExactly(up: Upstream, spec: MemberSpec, semantics: CostSemantics, cost: PathCost,
                         source: MembershipSource, mset: Id, generation: U64)
    ensures ValidateSpec(up, spec, semantics, cost, source, mset, generation) ==
            if !Complete(spec) then Some(MALFORMED_REQUEST)
            else if !PathGranted(up, spec) then Some(STALE_PATH_AUTHORITY)
            else if !SetGranted(up, spec.path, source, mset, generation) then Some(STALE_MULTIPATH_SET)
            else if !SameCostModel(spec.cost, semantics) then Some(COST_CLASS_MISMATCH)
            else if !SamePolicy(spec.cost, semantics) then Some(STALE_COST_GENERATION)
            else if !Meets(up, spec, semantics, cost, source, mset, generation) then Some(COST_MISMATCH)
            else None
  {
  }

  lemma MeetsExactly(up: Upstream, spec: MemberSpec, semantics: CostSemantics, cost: PathCost, source: MembershipSource,
                     mset: Id, generation: U64)
    ensures ValidateSpec(up, spec, semantics, cost, source, mset, generation).None? <==>
            Meets(up, spec, semantics, cost, source, mset, generation)
  {
  }

  /** Every spec of the list meets the conditions of the group. */
  ghost predicate AllMeet(up: Upstream, g: Group, specs: seq<MemberSpec>) {
    forall k :: 0 <= k < |specs| ==> MeetsIn(up, g, specs[k])
  }

  lemma {:induction false} AllValidated(up: Upstream, g: Group, specs: seq<MemberSpec>, i: nat)
    requires i <= |specs|
    ensures ValidateAll(up, g, specs, i).None? <==> forall k :: i <= k < |specs| ==> MeetsIn(up, g, specs[k])
    decreases |specs| - i
  {
    hide Meets, ValidateSpec;
    if i < |specs| {
      MeetsExactly(up, specs[i], g.semantics, g.canonicalCost, g.source, g.multipathSet, g.multipathGen);
      AllValidated(up, g, specs, i + 1);
    }
  }

  /** A declared member may not come back on another path. */
  ghost predicate PathsKept(g: Group, specs: seq<MemberSpec>) {
    forall k, i ::
      0 <= k < |specs| && 0 <= i < |g.members| && g.members[i].record.declared &&
      g.members[i].record.member == specs[k].member
      ==> g.members[i].record.path == specs[k].path
  }

  lemma MovedExactly(g: Group, spec: MemberSpec)
    requires EntriesOk(g.members)
    ensures PathMoved(g, spec) <==>
            exists i :: 0 <= i < |g.members| && g.members[i].record.declared &&
                        g.members[i].record.member == spec.member && g.members[i].record.path != spec.path
  {
    var ids := MemberIds(g.members);
    IndexOfFirst(ids, spec.member);
    forall i | 0 <= i < |g.members| && g.members[i].record.member == spec.member
      ensures i == Locate(g.members, spec.member)
    {
      assert ids[i] == spec.member;
      ListedIndex(ids, i);
    }
  }

  lemma NothingMovedExactly(g: Group, specs: seq<MemberSpec>)
    requires EntriesOk(g.members)
    ensures !AnyPathMoved(g, specs) <==> PathsKept(g, specs)
  {
    hide PathMoved, EntriesOk;
    forall k | 0 <= k < |specs|
      ensures PathMoved(g, specs[k]) <==>
              exists i :: 0 <= i < |g.members| && g.members[i].record.declared &&
                          g.members[i].record.member == specs[k].member && g.members[i].record.path != specs[k].path
    {
      MovedExactly(g, specs[k]);
    }
  }

  lemma {:induction false} TargetsExactly(up: Upstream, g: Group, specs: seq<MemberSpec>, i: nat)
    requires i <= |specs|
    ensures CheckTargets(up, g, specs, i).None? <==>
            forall k :: i <= k < |specs| ==> !PathMoved(g, specs[k]) && MeetsIn(up, g, specs[k])
    decreases |specs| - i
  {
    hide Meets, ValidateSpec, PathMoved;
    if i < |specs| {
      MeetsExactly(up, specs[i], g.semantics, g.canonicalCost, g.source, g.multipathSet, g.multipathGen);
      TargetsExactly(up, g, specs, i + 1);
    }
  }

  /** Complete specs, each for another member. */
  ghost predicate WellShaped(specs: seq<MemberSpec>) {
    && (forall k :: 0 <= k < |specs| ==> Complete(specs[k]))
    && (forall j, k :: 0 <= j < k < |specs| ==> specs[j].member != specs[k].member)
  }

  lemma {:induction false} ShapeExactly(specs: seq<MemberSpec>, i: nat)
    requires i <= |specs|
    ensures CheckSpecShape(specs, i).None? <==>
            && (forall k :: i <= k < |specs| ==> Complete(specs[k]))
            && (forall j, k :: i <= j < k < |specs| ==> specs[j].member != specs[k].member)
    decreases |specs| - i
  {
    if i < |specs| {
      ShapeExactly(specs, i + 1);
      RepeatedLater(specs, i);
    }
  }

  lemma RepeatedLater(specs: seq<MemberSpec>, i: nat)
    requires i < |specs|
    ensures specs[i].member in SpecIds(specs[i + 1..]) <==>
            exists k :: i < k < |specs| && specs[i].member == specs[k].member
  {
    var later := SpecIds(specs[i + 1..]);
    if specs[i].member in later {
      var k :| 0 <= k < |later| && later[k] == specs[i].member;
      assert specs[i + 1 + k].member == specs[i].member;
    }
    if exists k :: i < k < |specs| && specs[i].member == specs[k].member {
      var k :| i < k < |specs| && specs[i].member == specs[k].member;
      assert later[k - i - 1] == specs[i].member;
    }
  }

  // ----- Changes, counted -----

  /** A set of positions below n + 1 is the set below n, and n itself when it belongs. */
  lemma OneMorePosition(n: nat, below: set<nat>, upto: set<nat>, last: bool)
    requires forall k: nat :: k in upto <==> (k in below || (k == n && last))
    requires n !in below
    ensures |upto| == |below| + (if last then 1 else 0)
  {
    if last { assert upto == below + {n}; } else { assert upto == below; }
  }

  /** No declared entry of the member is enabled alike, in the same generations and at the same cost. */
  predicate AsksForChange(g: Group, spec: MemberSpec) {
    forall i :: 0 <= i < |g.members| && g.members[i].record.declared && g.members[i].record.member == spec.member ==>
      var r := g.members[i].record;
      r.enabled != spec.enabled || r.pathAuthority != spec.pathAuthority ||
      r.memberGeneration != spec.memberGeneration || r.cost != spec.cost
  }

  function Asking(g: Group, specs: seq<MemberSpec>): set<nat> {
    set k: nat | k < |specs| && AsksForChange(g, specs[k])
  }

  predicate Leaves(e: MemberEntry, specs: seq<MemberSpec>) {
    e.record.declared && forall k :: 0 <= k < |specs| ==> specs[k].member != e.record.member
  }

  function Leaving(ms: seq<MemberEntry>, specs: seq<MemberSpec>): set<nat> {
    set i: nat | i < |ms| && Leaves(ms[i], specs)
  }

  /** How many specs ask for a change and how many declared members they leave out. */
  function ChangesWanted(g: Group, specs: seq<MemberSpec>): nat {
    |Asking(g, specs)| + |Leaving(g.members, specs)|
  }

  lemma AsksExactly(g: Group, spec: MemberSpec)
    requires EntriesOk(g.members)
    ensures AsksForChange(g, spec) <==>
            !DeclaredIn(g.members, spec.member) ||
            SpecDiffers(g.members[Locate(g.members, spec.member)].record, spec)
  {
    hide EntriesOk;
    var n := Locate(g.members, spec.member);
    forall i | 0 <= i < |g.members| && g.members[i].record.member == spec.member ensures i == n {
      OnlyEntryOf(g.members, i);
    }
  }

  lemma {:induction false} AskingCounted(g: Group, specs: seq<MemberSpec>)
    requires EntriesOk(g.members)
    ensures SpecChanges(g, specs) == |Asking(g, specs)|
  {
    hide EntriesOk, AsksForChange, SpecDiffers, DeclaredIn, Locate;
    if specs == [] {
      assert Asking(g, specs) == {};
    } else {
      var n := |specs| - 1;
      AskingCounted(g, specs[..n]);
      AsksExactly(g, specs[n]);
      OneMorePosition(n, Asking(g, specs[..n]), Asking(g, specs), AsksForChange(g, specs[n]));
    }
  }

  lemma NotNamed(specs: seq<MemberSpec>, x: Id)
    ensures x !in SpecIds(specs) <==> forall k :: 0 <= k < |specs| ==> specs[k].member != x
  {
    if x !in SpecIds(specs) {
      forall k | 0 <= k < |specs| ensures specs[k].member != x { assert SpecIds(specs)[k] == specs[k].member; }
    }
  }

  lemma {:induction false} LeavingCounted(ms: seq<MemberEntry>, specs: seq<MemberSpec>)
    ensures Departures(ms, specs) == |Leaving(ms, specs)|
  {
    hide Leaves;
    if ms == [] {
      assert Leaving(ms, specs) == {};
    } else {
      var n := |ms| - 1;
      LeavingCounted(ms[..n], specs);
      LeavesExactly(ms[n], specs);
      OneMorePosition(n, Leaving(ms[..n], specs), Leaving(ms, specs), Leaves(ms[n], specs));
    }
  }

  lemma LeavesExactly(e: MemberEntry, specs: seq<MemberSpec>)
    ensures Leaves(e, specs) <==> e.record.declared && e.record.member !in SpecIds(specs)
  {
    NotNamed(specs, e.record.member);
  }

  lemma ChangesCounted(g: Group, specs: seq<MemberSpec>)
    requires EntriesOk(g.members)
    ensures TargetChanges(g, specs) == ChangesWanted(g, specs)
  {
    hide EntriesOk, Asking, Leaving, SpecChanges, Departures;
    AskingCounted(g, specs);
    LeavingCounted(g.members, specs);
  }

  // ----- The operations -----

  /** Past the common checks a member is added exactly when it is not declared yet, there is room for it in the group, in
      its map and in the governor, and its spec meets the conditions of the group. */
  lemma AddedExactly(s: State, r: Request, up: Upstream)
    requires Inv(s) && r.AddMember? && Preamble(s, r, GroupEvent.ADD_MEMBER).None?
    ensures r.group in s.groups
    ensures var g := s.groups[r.group];
            Add(s, r, up).outcome == MEMBER_ADDED <==>
            && r.spec.member !in DeclaredIds(g.members) && MeetsIn(up, g, r.spec)
            && |DeclaredIds(g.members)| < s.limits.maxMembersPerGroup && |DeclaredIds(g.members)| < g.bucketCount
            && Total(s.groups) < s.limits.maxTotalMembers
  {
    hide Preamble, Finish, ValidateSpec, WithMember, Total, LifecycleAllows, Meets, DeclaredIn, Inv, GroupOk, Loose,
         EntriesOk;
    Ready(s, r, GroupEvent.ADD_MEMBER);
    var g := s.groups[r.group];
    DeclaredInExactly(g.members, r.spec.member);
    MeetsExactly(up, r.spec, g.semantics, g.canonicalCost, g.source, g.multipathSet, g.multipathGen);
    ValidateRefuses(up, g, r.spec);
    FinishSucceeds(s, g.(members := WithMember(g.members, r.spec)),
                   ContextFor(s, r.authority, ChangeReason.ADD_MEMBER, GroupEvent.ADD_MEMBER), r, MEMBER_ADDED);
  }

  /** A declared, disabled entry whose recorded spec meets the conditions of its group. */
  predicate Enableable(up: Upstream, g: Group, e: MemberEntry) {
    && e.record.declared && !e.record.enabled
    && MeetsIn(up, g, MemberSpec(e.record.member, e.record.path, e.record.pathAuthority, e.record.memberGeneration,
                                 e.record.cost, e.record.provenance, e.record.enabled))
  }

  /** Past the common checks a declared, disabled member is enabled exactly when the cost policy of the group is current
      and what the governor recorded of the member still meets the conditions of the group. */
  lemma EnabledExactly(s: State, r: Request, up: Upstream)
    requires Inv(s) && r.SetEnabled? && r.enabled && Preamble(s, r, GroupEvent.ENABLE_MEMBER).None?
    ensures r.group in s.groups
    ensures var g := s.groups[r.group];
            Enable(s, r, up).outcome == MEMBER_ENABLED <==>
            && !g.currentness.staleCost
            && exists i :: 0 <= i < |g.members| && g.members[i].record.member == r.member && Enableable(up, g, g.members[i])
  {
    hide Preamble, Finish, ValidateSpec, LifecycleAllows, Meets, RememberAttempt, PayloadOf, Locate, Inv, GroupOk, Loose,
         EntriesOk;
    Ready(s, r, GroupEvent.ENABLE_MEMBER);
    var g := s.groups[r.group];
    var i := Locate(g.members, r.member);
    forall j | 0 <= j < |g.members| && g.members[j].record.member == r.member ensures j == i {
      OnlyEntryOf(g.members, j);
    }
    if i < |g.members| {
      MeetsExactly(up, SpecOf(g.members[i].record), g.semantics, g.canonicalCost, g.source, g.multipathSet,
                   g.multipathGen);
      ValidateRefuses(up, g, SpecOf(g.members[i].record));
      FinishSucceeds(s, g.(members := g.members[i := Enabling(g.members[i])]),
                     ContextFor(s, r.authority, ChangeReason.ENABLE_MEMBER, GroupEvent.ENABLE_MEMBER), r, MEMBER_ENABLED);
    }
  }

  /** Past the common checks exactly the declared members can be removed; anyone else is unknown. */
  lemma RemovedExactly(s: State, r: Request)
    requires Inv(s) && r.RemoveMember? && Preamble(s, r, GroupEvent.REMOVE_MEMBER).None?
    ensures r.group in s.groups
    ensures Remove(s, r).outcome ==
            if r.member in DeclaredIds(s.groups[r.group].members) then MEMBER_REMOVED else UNKNOWN_MEMBER
  {
    hide Preamble, Finish, LifecycleAllows, Locate, Inv, GroupOk, Loose, EntriesOk;
    Ready(s, r, GroupEvent.REMOVE_MEMBER);
    var g := s.groups[r.group];
    DeclaredInExactly(g.members, r.member);
    var i := Locate(g.members, r.member);
    if i < |g.members| {
      FinishSucceeds(s, g.(members := g.members[i := Departing(g.members[i])]),
                     ContextFor(s, r.authority, ChangeReason.REMOVE_MEMBER, GroupEvent.REMOVE_MEMBER), r, MEMBER_REMOVED);
    }
  }

  /** Past the common checks a declared, enabled member is disabled whatever upstream says; one that is disabled already is
      no change, and one that is not declared is unknown. */
  lemma DisabledExactly(s: State, r: Request, up: Upstream)
    requires Inv(s) && r.SetEnabled? && !r.enabled && Preamble(s, r, GroupEvent.DISABLE_MEMBER).None?
    ensures r.group in s.groups
    ensures var g := s.groups[r.group];
            && (Enable(s, r, up).outcome == UNKNOWN_MEMBER <==> r.member !in DeclaredIds(g.members))
            && (Enable(s, r, up).outcome == MEMBER_DISABLED <==>
                exists i :: 0 <= i < |g.members| && g.members[i].record.member == r.member &&
                            g.members[i].record.declared && g.members[i].record.enabled)
            && (Enable(s, r, up).outcome == UNKNOWN_MEMBER || Enable(s, r, up).outcome == MEMBER_DISABLED ||
                Enable(s, r, up).outcome == NO_CHANGE)
  {
    hide Preamble, Finish, LifecycleAllows, RememberAttempt, PayloadOf, Locate, Inv, GroupOk, Loose, EntriesOk, ValidateFor;
    Ready(s, r, GroupEvent.DISABLE_MEMBER);
    var g := s.groups[r.group];
    DeclaredInExactly(g.members, r.member);
    var i := Locate(g.members, r.member);
    forall j | 0 <= j < |g.members| && g.members[j].record.member == r.member ensures j == i {
      OnlyEntryOf(g.members, j);
    }
    if i < |g.members| {
      FinishSucceeds(s, g.(members := g.members[i := Disabled(g.members[i])]),
                     ContextFor(s, r.authority, ChangeReason.DISABLE_MEMBER, GroupEvent.DISABLE_MEMBER), r,
                     MEMBER_DISABLED);
    }
  }

  /** Where a member set stands before the number of buckets it would move is known. */
  ghost predicate SetAdmitted(s: State, g: Group, specs: seq<MemberSpec>, up: Upstream) {
    && WellShaped(specs) && |specs| <= s.limits.maxMembersPerGroup && |specs| <= g.bucketCount
    && PathsKept(g, specs) && ChangesWanted(g, specs) <= s.limits.maxBatchSize && AllMeet(up, g, specs)
  }

  lemma SetCheckExactly(s: State, g: Group, specs: seq<MemberSpec>, up: Upstream)
    requires EntriesOk(g.members)
    ensures CheckSetRequest(s, g, specs, up).None? <==> SetAdmitted(s, g, specs, up)
  {
    hide CheckSpecShape, ValidateAll, TargetChanges, AnyPathMoved, MeetsIn, Complete, EntriesOk, PathsKept,
         ChangesWanted;
    ChangesCounted(g, specs);
    ShapeExactly(specs, 0);
    NothingMovedExactly(g, specs);
    AllValidated(up, g, specs, 0);
  }

  lemma PlanCheckExactly(s: State, g: Group, specs: seq<MemberSpec>, up: Upstream)
    requires EntriesOk(g.members)
    ensures CheckPlanRequest(s, g, specs, up).None? <==> SetAdmitted(s, g, specs, up)
  {
    hide CheckSpecShape, CheckTargets, TargetChanges, PathMoved, MeetsIn, Complete, EntriesOk, PathsKept,
         ChangesWanted;
    ChangesCounted(g, specs);
    ShapeExactly(specs, 0);
    NothingMovedExactly(g, specs);
    TargetsExactly(up, g, specs, 0);
  }

  /** How many buckets the set would move: the map as it is against its rebalance for the enabled members of the set. */
  function WouldMove(g: Group, specs: seq<MemberSpec>): nat {
    Churn(g.owners, Rebalanced(g.owners, EnabledIds(SortBy(SpecKey, specs))))
  }

  lemma ChurnIsCounted(g: Group, t: Group, c: Context, limits: Limits)
    requires t.owners == g.owners && t.assignmentGen == g.assignmentGen && |t.owners| == t.bucketCount && c.recompute
    requires RefreshedFrom(t, c, limits, Refresh(t, c, limits.maxHistory).group)
    ensures var f := Refresh(t, c, limits.maxHistory).group;
            |f.owners| == |g.owners| && ChurnOf(g, f) == Churn(g.owners, f.owners)
  {
    RefreshRecordsTheDiff(t, c, limits.maxHistory);
    hide Refresh, Loose, Derived, Advances, Moves, Transforms;
    var f := Refresh(t, c, limits.maxHistory).group;
    MovesTransform(g.owners, f.owners, ActiveIds(f.members));
    CountOfMoves(Moves(g.owners, f.owners, ActiveIds(f.members)), g.owners, f.owners);
  }

  lemma CountOfMoves(moves: seq<BucketMove>, p: seq<Id>, r: seq<Id>)
    requires Transforms(moves, p, r)
    ensures |moves| == Churn(p, r)
  {
  }

  /** The trial of a set moves what the set would move. */
  lemma TrialMoves(s: State, a: Authority, g: Group, specs: seq<MemberSpec>)
    requires Loose(g, s.limits) && g.successor == NIL && Listed(SpecIds(specs))
    requires |specs| <= g.bucketCount && |specs| <= s.limits.maxMembersPerGroup
    requires LifecycleAllows(g.lifecycle, GroupEvent.ADD_MEMBER) || LifecycleAllows(g.lifecycle, PLAN_REBALANCE)
    ensures var f := Refresh(Retargeted(g, specs), TargetContext(s, a, g, specs), s.limits.maxHistory);
            f.ok && ChurnOf(g, f.group) == WouldMove(g, specs)
  {
    hide Refresh, RefreshedFrom, ApplyTarget, AddedCount, Loose, FinishedFrom, LifecycleAllows, Rebalanced, ChurnOf, SortBy,
         EnabledIds;
    TrialOk(s, a, g, specs);
    TargetContextAllowed(s, a, g, specs);
    var t, c := Retargeted(g, specs), TargetContext(s, a, g, specs);
    LooseOwners(g, s.limits);
    ChurnIsCounted(g, t, c, s.limits);
    TrialMatches(g, specs, c, s.limits, Refresh(t, c, s.limits.maxHistory).group);
  }

  lemma LooseOwners(g: Group, limits: Limits)
    requires Loose(g, limits)
    ensures |g.owners| == g.bucketCount
  {
  }

  lemma AdmittedShape(s: State, g: Group, specs: seq<MemberSpec>, up: Upstream)
    requires SetAdmitted(s, g, specs, up)
    ensures Listed(SpecIds(specs)) && |specs| <= g.bucketCount && |specs| <= s.limits.maxMembersPerGroup
  {
  }

  /** Past the common checks a member set is carried out exactly when it is admitted and moves no more buckets than
      allowed. */
  lemma AppliedSetExactly(s: State, r: Request, up: Upstream)
    requires Inv(s) && r.ApplySet? && Preamble(s, r, GroupEvent.ADD_MEMBER).None?
    ensures r.group in s.groups
    ensures var g := s.groups[r.group];
            CarriedOut(Apply(s, r, up).outcome) <==>
            SetAdmitted(s, g, r.members, up) && WouldMove(g, r.members) <= s.limits.maxRebalanceMoves
  {
    hide Preamble, Refresh, LifecycleAllows, CheckSetRequest, RememberAttempt, PayloadOf, ChurnOf, TargetContext,
         Retargeted, SetAdmitted, Inv, EntriesOk, Loose, GroupOk, WouldMove;
    Ready(s, r, GroupEvent.ADD_MEMBER);
    var g := s.groups[r.group];
    SetCheckExactly(s, g, r.members, up);
    SetRequestRefuses(s, g, r.members, up);
    if SetAdmitted(s, g, r.members, up) {
      AdmittedShape(s, g, r.members, up);
      TrialMoves(s, r.authority, g, r.members);
    }
  }

  /** Past the common checks a plan is accepted exactly when none is pending, the set is admitted and it would move no
      more buckets than allowed. */
  lemma PlannedExactly(s: State, r: Request, up: Upstream)
    requires Inv(s) && r.PlanRebalance? && Preamble(s, r, PLAN_REBALANCE).None?
    ensures r.group in s.groups
    ensures var g := s.groups[r.group];
            Planning(s, r, up).outcome == REBALANCE_PLANNED <==>
            && g.plan.None? && SetAdmitted(s, g, r.members, up)
            && WouldMove(g, r.members) <= s.limits.maxRebalanceMoves
  {
    hide Preamble, Finish, Refresh, LifecycleAllows, CheckPlanRequest, PayloadOf, ChurnOf, TargetContext, Retargeted,
         SetAdmitted, Inv, PlanFor, EntriesOk, Loose, GroupOk, WouldMove;
    Ready(s, r, PLAN_REBALANCE);
    var g := s.groups[r.group];
    PlanCheckExactly(s, g, r.members, up);
    SetRequestRefuses(s, g, r.members, up);
    if SetAdmitted(s, g, r.members, up) {
      AdmittedShape(s, g, r.members, up);
      TrialMoves(s, r.authority, g, r.members);
    }
    var f := Refresh(Retargeted(g, r.members), TargetContext(s, r.authority, g, r.members), s.limits.maxHistory);
    FinishSucceeds(s, g.(plan := Some(PlanFor(s, r, g, f.group))),
                   ContextFor(s, r.authority, ChangeReason.REVALIDATION, PLAN_REBALANCE), r, REBALANCE_PLANNED);
  }

  // ----- Creation -----

  /** Identities named, sizes positive and within the limits, and neither identity nor key in use. */
  ghost predicate CreationFits(s: State, r: Request)
    requires r.CreateGroup?
  {
    && r.group != NIL && r.key.fabric != NIL && r.key.routingNamespace != NIL && r.key.destination != NIL
    && r.key.costClass != NIL && r.authority.scope.Covers(r.key, r.group)
    && r.semantics.costClass == r.key.costClass && r.semantics.binding.model != NIL && r.semantics.binding.routeClass != NIL
    && r.hashDomain != NIL && r.provenance != NIL && (r.source == MULTIPATH_FABRIC ==> r.multipathSet != NIL)
    && 0 < r.bucketCount <= s.limits.maxBuckets && 0 < r.minActive <= s.limits.maxMembersPerGroup
    && r.minActive <= |r.members| <= s.limits.maxMembersPerGroup && |r.members| <= r.bucketCount
    && |s.groups| < s.limits.maxGroups && Total(s.groups) + |r.members| <= s.limits.maxTotalMembers
    && r.group !in s.groups && forall id :: id in s.groups ==> s.groups[id].key != r.key
  }

  lemma FitsExactly(s: State, r: Request)
    requires r.CreateGroup?
    ensures CheckCreation(s, r).None? <==> CreationFits(s, r)
    ensures Refusal(CheckCreation(s, r))
  {
    hide Total;
  }

  /** Each member is named once and meets the terms of the creation, the cost of the first member being the reference. */
  ghost predicate MembersMeet(up: Upstream, r: Request)
    requires r.CreateGroup?
  {
    && (forall j, k :: 0 <= j < k < |r.members| ==> r.members[j].member != r.members[k].member)
    && forall k :: 0 <= k < |r.members| ==>
         Meets(up, r.members[k], r.semantics, r.members[0].cost.cost, r.source, r.multipathSet, r.multipathGen)
  }

  lemma FirstNamed(specs: seq<MemberSpec>, k: nat)
    requires k < |specs|
    ensures IndexOf(SpecIds(specs), specs[k].member) >= k <==> forall j :: 0 <= j < k ==> specs[j].member != specs[k].member
  {
    var ids := SpecIds(specs);
    IndexOfFirst(ids, specs[k].member);
    var n := IndexOf(ids, specs[k].member);
    if n >= k {
      forall j | 0 <= j < k ensures specs[j].member != specs[k].member { assert ids[j] == specs[j].member; }
    } else {
      assert ids[n] == specs[n].member;
    }
  }

  lemma MembersExactly(up: Upstream, r: Request)
    requires r.CreateGroup?
    ensures CheckNewMembers(up, r, 0).None? <==> MembersMeet(up, r)
  {
    hide ValidateSpec, CheckNewMembers, Meets;
    NewMembersExactly(up, r, 0);
    forall k | 0 <= k < |r.members|
      ensures IndexOf(SpecIds(r.members), r.members[k].member) >= k <==>
              forall j :: 0 <= j < k ==> r.members[j].member != r.members[k].member
      ensures Admissible(up, r, r.members[0].cost.cost, r.members[k]) <==>
              Meets(up, r.members[k], r.semantics, r.members[0].cost.cost, r.source, r.multipathSet, r.multipathGen)
    {
      FirstNamed(r.members, k);
      MeetsExactly(up, r.members[k], r.semantics, r.members[0].cost.cost, r.source, r.multipathSet, r.multipathGen);
    }
  }

  function Enabled(specs: seq<MemberSpec>): set<nat> { set k: nat | k < |specs| && specs[k].enabled }

  lemma {:induction false} EnabledCounted(specs: seq<MemberSpec>)
    ensures EnabledCount(specs) == |Enabled(specs)|
  {
    if specs == [] {
      assert Enabled(specs) == {};
    } else {
      var n := |specs| - 1;
      EnabledCounted(specs[..n]);
      OneMorePosition(n, Enabled(specs[..n]), Enabled(specs), specs[n].enabled);
    }
  }

  /** An authorized creation under a new attempt succeeds exactly when it fits, its members meet its terms, and enough of
      them are enabled. */
  lemma CreatedExactly(s: State, r: Request, up: Upstream)
    requires r.CreateGroup? && Authorize(s, r.authority, MUTATE_GROUP, r.group).None?
    requires r.authority.attempt !in s.attempts
    ensures Create(s, r, up).outcome == CREATED <==>
            CreationFits(s, r) && MembersMeet(up, r) && |Enabled(r.members)| >= r.minActive
  {
    hide Authorize, CheckCreation, CheckNewMembers, EnabledCount, Refresh, RememberAttempt, PayloadOf, CreationFits,
         MembersMeet, Enabled;
    FitsExactly(s, r);
    MembersExactly(up, r);
    NewMembersRefuse(up, r, 0);
    EnabledCounted(r.members);
    if |r.members| > 0 {
      RefreshSucceeds(NewGroup(s, r), ContextFor(s, r.authority, ChangeReason.CREATE, GroupEvent.ADD_MEMBER),
                      s.limits.maxHistory);
    } else {
      NobodyToCreate(s, r);
    }
  }
}
