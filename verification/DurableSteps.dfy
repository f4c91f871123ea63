/** Every step keeps every group fit for the store file; only one kind of refused revalidation spoils a group. */
module DurableSteps {
  import opened Prelude
  import opened Assignment
  import opened AssignmentProofs
  import opened Lifecycle
  import opened Records
  import opened Sorting
  import opened Groups
  import opened GroupProofs
  import opened TargetProofs
  import opened Governor
  import opened Invariants
  import opened Durable

  ghost predicate AllSturdy(groups: map<Id, Group>) {
    forall id :: id in groups ==> Sturdy(groups[id])
  }

  /** The cost terms of the group are what they were. */
  ghost predicate SameTerms(g: Group, g': Group) {
    g'.semantics == g.semantics && g'.canonicalCost == g.canonicalCost
  }

  /** After the step every group is still sturdy and keeps its cost terms, and a new one has complete terms. */
  ghost predicate Lasting(s: State, s': State) {
    && AllSturdy(s'.groups) && s'.limits == s.limits && |s'.groups| <= s.limits.maxGroups
    && (forall id :: id in s.groups ==> id in s'.groups && SameTerms(s.groups[id], s'.groups[id]))
    && (forall id :: id in s'.groups && id !in s.groups ==> Priced(s'.groups[id]))
  }

  /** What a step may rely on. */
  ghost predicate Savable(s: State) {
    Inv(s) && AllSturdy(s.groups) && |s.groups| <= s.limits.maxGroups
  }

  // ----- Refresh -----

  lemma DerivedSound(ms: seq<MemberEntry>)
    requires SoundEntries(ms)
    ensures SoundEntries(MapEntries(DeriveEntry, ms))
  {
    forall i | 0 <= i < |ms| ensures EntrySound(MapEntries(DeriveEntry, ms)[i]) {
      assert EntrySound(ms[i]);
    }
  }

  lemma ChangedBound(p: seq<Id>, r: seq<Id>, n: nat)
    requires n <= |p| && n <= |r|
    ensures Changed(p, r, n) <= n
  {
    if n > 0 { ChangedBound(p, r, n - 1); }
  }

  lemma MovesBounded(p: seq<Id>, r: seq<Id>, members: seq<Id>)
    requires |p| == |r|
    ensures MovesWithin(Moves(p, r, members), |p|)
  {
    MovesAreChanges(p, r, members, |p|);
    ChangedBound(p, r, |p|);
  }

  lemma ReassignSturdy(before: Group, g: Group, c: Context)
    requires Sturdy(g)
    ensures var g' := Reassign(before, g, c); Sturdy(g') && SameTerms(g, g') && g'.id == g.id
  {
    var active := ActiveIds(g.members);
    var previous := Padded(g.owners, g.bucketCount);
    var owners := Rebalanced(previous, active);
    MovesBounded(previous, owners, active);
    hide Rebalanced, Moves, ActiveIds, SoundEntries, SoundSpecs, MovesWithin;
  }

  lemma RefreshSturdy(g: Group, c: Context, maxHistory: nat)
    requires Sturdy(g)
    ensures var g' := Refresh(g, c, maxHistory).group; Sturdy(g') && SameTerms(g, g') && g'.id == g.id
  {
    hide Reassign, SoundEntries, SoundSpecs, MovesWithin, ApplyGroupEvent, InputsOf, DeclaredIds;
    var bound := Bind(g, c);
    DerivedSound(bound.members);
    ReassignSturdy(g, DeriveMembers(bound), c);
  }

  lemma {:induction false} EvictSound(ms: seq<MemberEntry>, max: nat)
    requires SoundEntries(ms)
    ensures SoundEntries(Evict(ms, max))
    decreases |ms|
  {
    if |ms| > max {
      var i := FirstUndeclared(ms);
      if i < |ms| { EvictSound(ms[..i] + ms[i + 1..], max); }
    }
  }

  /** Storing one sturdy group with the terms it had. */
  lemma StoreLasts(s: State, s': State, g: Group)
    requires Savable(s) && g.id in s.groups && Sturdy(g) && SameTerms(s.groups[g.id], g)
    requires s'.groups == s.groups[g.id := g] && s'.limits == s.limits
    ensures Lasting(s, s')
  {
    hide Sturdy, Inv;
  }

  lemma NothingLost(s: State, s': State)
    requires Savable(s) && s'.groups == s.groups && s'.limits == s.limits
    ensures Lasting(s, s')
  {
    hide Sturdy, Inv;
  }

  lemma FinishedSturdy(g: Group, c: Context, limits: Limits)
    requires Sturdy(g)
    ensures var g' := Evicted(Refresh(g, c, limits.maxHistory).group, limits);
            Sturdy(g') && SameTerms(g, g') && g'.id == g.id
  {
    RefreshSturdy(g, c, limits.maxHistory);
    hide Refresh, SoundEntries, SoundSpecs, MovesWithin;
    EvictSound(Refresh(g, c, limits.maxHistory).group.members, limits.maxMembersPerGroup);
  }

  lemma FinishLasts(s: State, g: Group, c: Context, r: Request, success: Outcome)
    requires Savable(s) && g.id in s.groups && Sturdy(g) && SameTerms(s.groups[g.id], g)
    ensures Lasting(s, Finish(s, g, c, r, success).state)
  {
    var f := Refresh(g, c, s.limits.maxHistory);
    RefreshSturdy(g, c, s.limits.maxHistory);
    FinishedSturdy(g, c, s.limits);
    hide Refresh, Sturdy, Inv, SameTerms, Lasting, Savable, AllSturdy, Evict;
    var done := Evicted(f.group, s.limits);
    AttemptsOnly(Stored(s, done), r.authority.attempt, AttemptEntry(PayloadOf(r), success, g.id));
    TermsChain(s.groups[g.id], g, f.group);
    TermsChain(s.groups[g.id], g, done);
    if f.ok { StoreLasts(s, Finish(s, g, c, r, success).state, done); }
    else { StoreLasts(s, Finish(s, g, c, r, success).state, f.group); }
  }

  lemma TermsChain(a: Group, b: Group, c: Group)
    requires SameTerms(a, b) && SameTerms(b, c)
    ensures SameTerms(a, c)
  {
  }

  // ----- Changes of the members -----

  /** Replacing the member list by a sound one. */
  lemma WithSoundMembers(g: Group, ms: seq<MemberEntry>)
    requires Sturdy(g) && SoundEntries(ms)
    ensures Sturdy(g.(members := ms)) && SameTerms(g, g.(members := ms))
  {
    hide SoundEntries, SoundSpecs, MovesWithin;
  }

  lemma SortedSound(ms: seq<MemberEntry>)
    requires SoundEntries(ms)
    ensures SoundEntries(SortBy(EntryKey, ms))
  {
    var sorted := SortBy(EntryKey, ms);
    forall i | 0 <= i < |sorted| ensures EntrySound(sorted[i]) {
      var a := SortedEntry(ms, i);
      assert EntrySound(ms[a]);
    }
  }

  lemma WithMemberSound(ms: seq<MemberEntry>, spec: MemberSpec)
    requires SoundEntries(ms) && spec.WellFormed()
    ensures SoundEntries(WithMember(ms, spec))
  {
    var i := Locate(ms, spec.member);
    assert EntrySound(FreshEntry(spec));
    SortedSound(if i < |ms| then ms[i := FreshEntry(spec)] else ms + [FreshEntry(spec)]);
  }

  /** A change of flags leaves every entry sound. */
  lemma FlagsSound(f: MemberEntry -> MemberEntry, ms: seq<MemberEntry>)
    requires SoundEntries(ms)
    requires forall e :: f(e).record.path == e.record.path && f(e).record.cost == e.record.cost
    ensures SoundEntries(MapEntries(f, ms))
  {
    forall i | 0 <= i < |ms| ensures EntrySound(MapEntries(f, ms)[i]) { assert EntrySound(ms[i]); }
  }

  lemma OneSound(ms: seq<MemberEntry>, i: nat, e: MemberEntry)
    requires SoundEntries(ms) && i < |ms| && e.record.path == ms[i].record.path && e.record.cost == ms[i].record.cost
    ensures SoundEntries(ms[i := e])
  {
    assert EntrySound(ms[i]);
  }

  lemma TargetSound(ms: seq<MemberEntry>, specs: seq<MemberSpec>)
    requires SoundEntries(ms) && SoundSpecs(specs)
    ensures SoundEntries(ApplyTarget(ms, specs))
  {
    var raw := RawTarget(ms, specs);
    forall i | 0 <= i < |raw| ensures EntrySound(raw[i]) {
      if i < |ms| {
        assert EntrySound(ms[i]);
      } else {
        NewcomerElements(ms, specs, raw[i]);
        assert raw[i] in Newcomers(ms, specs);
        var k :| 0 <= k < |specs| && raw[i] == FreshEntry(specs[k]);
        assert specs[k].WellFormed();
      }
    }
    SortedSound(raw);
  }

  lemma {:induction false} ShapedSound(specs: seq<MemberSpec>, i: nat)
    requires i <= |specs| && CheckSpecShape(specs, i).None?
    ensures forall k :: i <= k < |specs| ==> specs[k].WellFormed()
    decreases |specs| - i
  {
    if i < |specs| { ShapedSound(specs, i + 1); }
  }

  lemma SortedSpecsSound(specs: seq<MemberSpec>)
    requires SoundSpecs(specs)
    ensures SoundSpecs(SortBy(SpecKey, specs))
  {
    var sorted := SortBy(SpecKey, specs);
    forall i | 0 <= i < |sorted| ensures sorted[i].WellFormed() {
      SortElements(SpecKey, specs, sorted[i]);
      assert sorted[i] in specs;
    }
  }

  // ----- One lemma per operation -----

  /** What the preamble adds for a sturdy state. */
  lemma SoundGroup(s: State, r: Request, event: GroupEvent)
    requires Savable(s) && Preamble(s, r, event).None?
    ensures r.group in s.groups && s.groups[r.group].id == r.group && Sturdy(s.groups[r.group])
  {
    hide Preamble, Sturdy;
    Ready(s, r, event);
  }

  lemma AddLasts(s: State, r: Request, up: Upstream)
    requires Savable(s) && r.AddMember?
    ensures Lasting(s, Add(s, r, up).state)
  {
    hide Preamble, Finish, Inv, Savable, Lasting, WithMember, ValidateFor, Total, DeclaredIds, SoundEntries;
    NothingLost(s, s);
    if Preamble(s, r, GroupEvent.ADD_MEMBER).None? {
      SoundGroup(s, r, GroupEvent.ADD_MEMBER);
      var g := s.groups[r.group];
      if ValidateFor(up, g, r.spec).None? {
        ValidSpecNamed(up, g, r.spec);
        WithMemberSound(g.members, r.spec);
        WithSoundMembers(g, WithMember(g.members, r.spec));
        FinishLasts(s, g.(members := WithMember(g.members, r.spec)),
                    ContextFor(s, r.authority, ChangeReason.ADD_MEMBER, GroupEvent.ADD_MEMBER), r, MEMBER_ADDED);
      }
    }
  }

  lemma OneChangedSturdy(g: Group, i: nat, e: MemberEntry)
    requires Sturdy(g) && i < |g.members|
    requires e.record.path == g.members[i].record.path && e.record.cost == g.members[i].record.cost
    ensures Sturdy(g.(members := g.members[i := e])) && SameTerms(g, g.(members := g.members[i := e]))
  {
    hide SoundEntries, SoundSpecs, MovesWithin;
    OneSound(g.members, i, e);
  }

  lemma RemoveLasts(s: State, r: Request)
    requires Savable(s) && r.RemoveMember?
    ensures Lasting(s, Remove(s, r).state)
  {
    hide Preamble, Finish, Inv, Savable, Lasting, Sturdy, SameTerms;
    NothingLost(s, s);
    if Preamble(s, r, GroupEvent.REMOVE_MEMBER).None? {
      SoundGroup(s, r, GroupEvent.REMOVE_MEMBER);
      var g := s.groups[r.group];
      var i := Locate(g.members, r.member);
      if i < |g.members| {
        OneChangedSturdy(g, i, Departing(g.members[i]));
        FinishLasts(s, g.(members := g.members[i := Departing(g.members[i])]),
                    ContextFor(s, r.authority, ChangeReason.REMOVE_MEMBER, GroupEvent.REMOVE_MEMBER), r, MEMBER_REMOVED);
      }
    }
  }

  lemma EnableLasts(s: State, r: Request, up: Upstream)
    requires Savable(s) && r.SetEnabled?
    ensures Lasting(s, Enable(s, r, up).state)
  {
    hide Preamble, Finish, Inv, Savable, Lasting, Sturdy, SameTerms, ValidateFor, RememberAttempt;
    NothingLost(s, s);
    var event := if r.enabled then GroupEvent.ENABLE_MEMBER else GroupEvent.DISABLE_MEMBER;
    var reason := if r.enabled then ChangeReason.ENABLE_MEMBER else ChangeReason.DISABLE_MEMBER;
    if Preamble(s, r, event).None? {
      SoundGroup(s, r, event);
      var g := s.groups[r.group];
      var i := Locate(g.members, r.member);
      var entry := AttemptEntry(PayloadOf(r), NO_CHANGE, g.id);
      AttemptsOnly(s, r.authority.attempt, entry);
      NothingLost(s, RememberAttempt(s, r.authority.attempt, entry));
      if i < |g.members| {
        var e := if r.enabled then Enabling(g.members[i]) else Disabled(g.members[i]);
        OneChangedSturdy(g, i, e);
        FinishLasts(s, g.(members := g.members[i := e]), ContextFor(s, r.authority, reason, event), r,
                    if r.enabled then MEMBER_ENABLED else MEMBER_DISABLED);
      }
    }
  }

  lemma RetargetedSturdy(g: Group, specs: seq<MemberSpec>)
    requires Sturdy(g) && SoundSpecs(specs)
    ensures Sturdy(Retargeted(g, specs)) && SameTerms(g, Retargeted(g, specs)) && Retargeted(g, specs).id == g.id
  {
    hide SoundEntries, ApplyTarget;
    TargetSound(g.members, specs);
    WithSoundMembers(g, ApplyTarget(g.members, specs));
  }

  lemma ApplyLasts(s: State, r: Request, up: Upstream)
    requires Savable(s) && r.ApplySet?
    ensures Lasting(s, Apply(s, r, up).state)
  {
    hide Preamble, Inv, Savable, Lasting, Sturdy, SameTerms, Retargeted, Refresh, TargetContext, RememberAttempt, ChurnOf,
         AnyPathMoved, TargetChanges, ValidateAll, Evict, Stored, PayloadOf;
    NothingLost(s, s);
    if Preamble(s, r, GroupEvent.ADD_MEMBER).None? && CheckSpecShape(r.members, 0).None? {
      SoundGroup(s, r, GroupEvent.ADD_MEMBER);
      var g := s.groups[r.group];
      ShapedSound(r.members, 0);
      RetargetedSturdy(g, r.members);
      var t, c := Retargeted(g, r.members), TargetContext(s, r.authority, g, r.members);
      FinishedSturdy(t, c, s.limits);
      var f := Refresh(t, c, s.limits.maxHistory).group;
      var done := Evicted(f, s.limits);
      TermsChain(g, t, done);
      StoredLasts(s, done, r.authority.attempt,
                  AttemptEntry(PayloadOf(r), if f.assignmentGen != g.assignmentGen then REBALANCED else NO_CHANGE, g.id));
    }
  }

  lemma StoredLasts(s: State, done: Group, attempt: Id, entry: AttemptEntry)
    requires Savable(s) && done.id in s.groups && Sturdy(done) && SameTerms(s.groups[done.id], done)
    ensures Lasting(s, RememberAttempt(Stored(s, done), attempt, entry)) && Lasting(s, Stored(s, done))
  {
    hide Savable, Sturdy, SameTerms, Lasting, RememberAttempt;
    AttemptsOnly(Stored(s, done), attempt, entry);
    StoreLasts(s, RememberAttempt(Stored(s, done), attempt, entry), done);
    StoreLasts(s, Stored(s, done), done);
  }

  /** The plan an accepted request leaves keeps the group sturdy. */
  lemma PlanSturdy(s: State, r: Request, g: Group, trial: Group)
    requires r.PlanRebalance? && Sturdy(g) && SoundSpecs(r.members)
    requires Sturdy(trial) && trial.bucketCount == g.bucketCount
    ensures var g' := g.(plan := Some(PlanFor(s, r, g, trial))); Sturdy(g') && SameTerms(g, g')
  {
    hide SoundEntries, SoundSpecs, MovesWithin;
    SortedSpecsSound(r.members);
    NoMoves(g.bucketCount);
  }

  lemma NoMoves(n: nat)
    ensures MovesWithin([], n)
  {
  }

  lemma RefreshKeepsBuckets(g: Group, c: Context, maxHistory: nat)
    ensures Refresh(g, c, maxHistory).group.bucketCount == g.bucketCount
  {
    hide Padded, Rebalanced, Moves, ActiveIds, DeclaredIds, MapEntries, ApplyGroupEvent, InputsOf;
  }

  lemma PlanningLasts(s: State, r: Request, up: Upstream)
    requires Savable(s) && r.PlanRebalance?
    ensures Lasting(s, Planning(s, r, up).state)
  {
    hide Preamble, Finish, Inv, Savable, Lasting, Sturdy, SameTerms, ApplyTarget, Refresh, TargetContext, ChurnOf, PlanFor,
         CheckTargets, TargetChanges;
    NothingLost(s, s);
    if Preamble(s, r, PLAN_REBALANCE).None? && CheckSpecShape(r.members, 0).None? {
      SoundGroup(s, r, PLAN_REBALANCE);
      var g := s.groups[r.group];
      ShapedSound(r.members, 0);
      RetargetedSturdy(g, r.members);
      var t, c := Retargeted(g, r.members), TargetContext(s, r.authority, g, r.members);
      RefreshSturdy(t, c, s.limits.maxHistory);
      RefreshKeepsBuckets(t, c, s.limits.maxHistory);
      var f := Refresh(t, c, s.limits.maxHistory).group;
      PlanSturdy(s, r, g, f);
      FinishLasts(s, g.(plan := Some(PlanFor(s, r, g, f))),
                  ContextFor(s, r.authority, ChangeReason.REVALIDATION, PLAN_REBALANCE), r, REBALANCE_PLANNED);
    }
  }

  /** Without its plan a sturdy group is still sturdy. */
  lemma WithoutPlan(g: Group)
    requires Sturdy(g)
    ensures Sturdy(g.(plan := None)) && SameTerms(g, g.(plan := None))
    ensures g.plan.Some? ==> SoundSpecs(g.plan.value.targetMembers)
  {
    hide SoundEntries, SoundSpecs, MovesWithin;
  }

  lemma CommitLasts(s: State, r: Request)
    requires Savable(s) && r.CommitRebalance?
    ensures Lasting(s, Commit(s, r).state)
  {
    hide Preamble, Finish, Inv, Savable, Lasting, Sturdy, SameTerms, Retargeted, CheckPlanCurrent;
    NothingLost(s, s);
    if Preamble(s, r, COMMIT_REBALANCE).None? {
      SoundGroup(s, r, COMMIT_REBALANCE);
      var g := s.groups[r.group];
      if CheckPlan(g, r.plan).None? {
        WithoutPlan(g);
        RetargetedSturdy(g.(plan := None), g.plan.value.targetMembers);
        TermsChain(g, g.(plan := None), Retargeted(g.(plan := None), g.plan.value.targetMembers));
        FinishLasts(s, Retargeted(g.(plan := None), g.plan.value.targetMembers),
                    ContextFor(s, r.authority, ChangeReason.REBALANCE_COMMIT, COMMIT_REBALANCE), r, REBALANCED);
      }
    }
  }

  lemma AbortLasts(s: State, r: Request)
    requires Savable(s) && r.AbortRebalance?
    ensures Lasting(s, Abort(s, r).state)
  {
    hide Preamble, Finish, Inv, Savable, Lasting, Sturdy, SameTerms;
    NothingLost(s, s);
    if Preamble(s, r, ABORT_REBALANCE).None? {
      SoundGroup(s, r, ABORT_REBALANCE);
      var g := s.groups[r.group];
      WithoutPlan(g);
      FinishLasts(s, g.(plan := None),
                  ContextFor(s, r.authority, ChangeReason.PLAN_ABORTED, ABORT_REBALANCE), r, REBALANCE_ABORTED);
    }
  }

  // ----- Administrative ends -----

  /** The change of an administrative end: flags, bits, links, and perhaps no plan any more. */
  lemma EndedSturdy(g: Group, f: MemberEntry -> MemberEntry, drop: bool, successor: Id)
    requires Sturdy(g) && forall e :: f(e).record.path == e.record.path && f(e).record.cost == e.record.cost
    ensures var g' := Retiring(g.(members := MapEntries(f, g.members), plan := if drop then None else g.plan,
                                  successor := successor));
            Sturdy(g') && SameTerms(g, g')
  {
    hide SoundEntries, SoundSpecs, MovesWithin;
    FlagsSound(f, g.members);
  }

  lemma WithdrawLasts(s: State, r: Request)
    requires Savable(s) && r.WithdrawGroup?
    ensures Lasting(s, Withdraw(s, r).state)
  {
    hide Preamble, Finish, Inv, Savable, Lasting, Sturdy, MapEntries;
    NothingLost(s, s);
    var completing := r.group in s.groups && s.groups[r.group].lifecycle.Withdrawing?;
    var event := if completing then COMPLETE_WITHDRAW else WITHDRAW;
    if Preamble(s, r, event).None? {
      SoundGroup(s, r, event);
      var g := s.groups[r.group];
      EndedSturdy(g, Undeclared, false, g.successor);
      var ended := if completing then Retiring(g.(members := MapEntries(Undeclared, g.members))) else g;
      FinishLasts(s, ended, ContextFor(s, r.authority, ADMIN_WITHDRAW, event), r, WITHDRAWN_OK);
    }
  }

  lemma RevokeLasts(s: State, r: Request)
    requires Savable(s) && r.RevokeGroup?
    ensures Lasting(s, Revoke(s, r).state)
  {
    hide Preamble, Finish, Inv, Savable, Lasting, Sturdy, MapEntries;
    NothingLost(s, s);
    if Preamble(s, r, REVOKE).None? {
      SoundGroup(s, r, REVOKE);
      var g := s.groups[r.group];
      EndedSturdy(g, Disabled, false, g.successor);
      FinishLasts(s, Retiring(g.(members := MapEntries(Disabled, g.members))),
                  ContextFor(s, r.authority, ADMIN_REVOKE, REVOKE), r, REVOKED_OK);
    }
  }

  lemma RetireLasts(s: State, r: Request)
    requires Savable(s) && r.RetireGroup?
    ensures Lasting(s, Retire(s, r).state)
  {
    hide Preamble, Finish, Inv, Savable, Lasting, Sturdy, MapEntries;
    NothingLost(s, s);
    if Preamble(s, r, RETIRE).None? {
      SoundGroup(s, r, RETIRE);
      var g := s.groups[r.group];
      EndedSturdy(g, RetiredEntry, true, g.successor);
      FinishLasts(s, Retiring(g.(members := MapEntries(RetiredEntry, g.members), plan := None)),
                  ContextFor(s, r.authority, ADMIN_WITHDRAW, RETIRE), r, RETIRED_OK);
    }
  }

  lemma LastingChain(a: State, b: State, c: State)
    requires Lasting(a, b) && Lasting(b, c) && a.groups.Keys == b.groups.Keys
    ensures Lasting(a, c)
  {
    hide Sturdy;
  }

  lemma NamedSturdy(g: Group, predecessor: Id)
    requires Sturdy(g)
    ensures Sturdy(g.(predecessor := predecessor)) && SameTerms(g, g.(predecessor := predecessor))
  {
    hide SoundEntries, SoundSpecs, MovesWithin;
  }

  lemma SupersedeLasts(s: State, r: Request)
    requires Savable(s) && r.SupersedeGroup?
    ensures Lasting(s, Supersede(s, r).state)
  {
    hide Preamble, Finish, Inv, Lasting, Sturdy, MapEntries, IsClosed, LifecycleOutcome;
    NothingLost(s, s);
    if Preamble(s, r, SUPERSEDE).None? {
      SoundGroup(s, r, SUPERSEDE);
      if r.successor in s.groups && r.successor != r.group { SupersededLasts(s, r); }
    }
  }

  lemma SupersededLasts(s: State, r: Request)
    requires Savable(s) && r.SupersedeGroup? && r.successor in s.groups && r.successor != r.group
    requires r.group in s.groups && s.groups[r.group].id == r.group && Sturdy(s.groups[r.group])
    ensures var g := s.groups[r.group];
            var linked := Stored(s, s.groups[r.successor].(predecessor := g.id));
            Lasting(s, Finish(linked, Retiring(g.(members := MapEntries(Disabled, g.members), plan := None,
                                                  successor := r.successor)),
                              ContextFor(s, r.authority, SUPERSESSION, SUPERSEDE), r, SUPERSEDED_OK).state)
  {
    hide Preamble, Finish, Inv, Lasting, Sturdy, MapEntries;
    var g, heir := s.groups[r.group], s.groups[r.successor].(predecessor := r.group);
    var linked := Stored(s, heir);
    NamedSturdy(s.groups[r.successor], r.group);
    HeirNamed(s, r.successor);
    StoreLasts(s, linked, heir);
    LinkedSound(s, linked, r.successor, r.group);
    EndedSturdy(g, Disabled, true, r.successor);
    var ended := Retiring(g.(members := MapEntries(Disabled, g.members), plan := None, successor := r.successor));
    var c := ContextFor(s, r.authority, SUPERSESSION, SUPERSEDE);
    FinishLasts(linked, ended, c, r, SUPERSEDED_OK);
    LastingChain(s, linked, Finish(linked, ended, c, r, SUPERSEDED_OK).state);
  }

  lemma HeirNamed(s: State, id: Id)
    requires Inv(s) && id in s.groups
    ensures s.groups[id].id == id
  {
  }

  lemma LinkedSound(s: State, linked: State, successor: Id, predecessor: Id)
    requires Savable(s) && Lasting(s, linked) && successor in s.groups && s.groups[successor].id == successor
    requires successor != predecessor && predecessor in s.groups
    requires linked == Stored(s, s.groups[successor].(predecessor := predecessor))
    ensures Savable(linked)
  {
    hide Sturdy, Inv, StepOk;
    LinkedOk(s, successor, predecessor);
    LinkedKeepsInv(s, linked);
  }

  lemma LinkedKeepsInv(s: State, linked: State)
    requires StepOk(s, linked, None)
    ensures Inv(linked)
  {
  }

  // ----- Creation -----

  lemma NewGroupSturdy(s: State, r: Request, up: Upstream)
    requires r.CreateGroup? && CheckNewMembers(up, r, 0).None? && |r.members| > 0
    requires r.group != NIL && r.key.WellFormed() && r.hashDomain != NIL && r.semantics.WellFormed()
    ensures Sturdy(NewGroup(s, r)) && Priced(NewGroup(s, r))
  {
    NewMembersFacts(up, r, 0);
    var entries := FreshEntries(r.members);
    forall i | 0 <= i < |entries| ensures EntrySound(entries[i]) { assert r.members[i].WellFormed(); }
    SortedSound(entries);
    assert r.members[0].WellFormed();
  }

  lemma AddedLasts(s: State, s': State, g: Group)
    requires Savable(s) && g.id !in s.groups && |s.groups| < s.limits.maxGroups && Sturdy(g) && Priced(g)
    requires s'.groups == s.groups[g.id := g] && s'.limits == s.limits
    ensures Lasting(s, s')
  {
    hide Sturdy, Inv, Priced;
  }

  /** A creation that passes its checks names a complete group that does not exist yet, within the limits. */
  lemma CreationFacts(s: State, r: Request)
    requires s.limits.Coherent() && r.CreateGroup? && CheckCreation(s, r).None?
    ensures r.group != NIL && r.key.WellFormed() && r.hashDomain != NIL && r.semantics.WellFormed() && |r.members| > 0
    ensures r.group !in s.groups && |s.groups| < s.limits.maxGroups
  {
    hide Total, KeyTaken;
  }

  lemma CreateLasts(s: State, r: Request, up: Upstream)
    requires Savable(s) && r.CreateGroup?
    ensures Lasting(s, Create(s, r, up).state)
  {
    hide GroupsOk, Lasting, Sturdy, Priced, NewGroup, Refresh, CheckCreation, CheckNewMembers, RememberAttempt, Authorize,
         HandleAttempt, EnabledCount, SameTerms;
    NothingLost(s, s);
    if CheckCreation(s, r).None? && CheckNewMembers(up, r, 0).None? {
      CreationFacts(s, r);
      NewGroupSturdy(s, r, up);
      NewGroupNamed(s, r);
      var c := ContextFor(s, r.authority, ChangeReason.CREATE, GroupEvent.ADD_MEMBER);
      RefreshSturdy(NewGroup(s, r), c, s.limits.maxHistory);
      var f := Refresh(NewGroup(s, r), c, s.limits.maxHistory).group;
      PricedBySameTerms(NewGroup(s, r), f);
      var entry := AttemptEntry(PayloadOf(r), CREATED, r.group);
      AttemptsOnly(Stored(s, f), r.authority.attempt, entry);
      AddedLasts(s, RememberAttempt(Stored(s, f), r.authority.attempt, entry), f);
    }
  }

  lemma NewGroupNamed(s: State, r: Request)
    requires r.CreateGroup? && |r.members| > 0
    ensures NewGroup(s, r).id == r.group
  {
  }

  lemma PricedBySameTerms(g: Group, g': Group)
    requires SameTerms(g, g')
    ensures Priced(g') <==> Priced(g)
  {
  }

  // ----- Revalidation -----

  /** A revalidation gets as far as adopting the terms of its claims. */
  predicate Adopts(s: State, r: Request) {
    r.Revalidate? && Preamble(s, r, GroupEvent.REVALIDATE).None? && r.group in s.groups &&
    var claims := Claims(r.updates);
    && |r.updates| <= s.limits.maxBatchSize && !RepeatsMember(r.updates)
    && AdoptionNeeded(s.groups[r.group], claims) && |claims| > 0 && CheckAdoption(s, s.groups[r.group], claims).None?
  }

  /** The first claim of a revalidation names complete terms. */
  predicate Complete(r: Request) {
    r.Revalidate? && |Claims(r.updates)| > 0 &&
    Claims(r.updates)[0].binding.WellFormed() && Claims(r.updates)[0].cost.WellFormed()
  }

  /** A revalidation that adopts incomplete terms. */
  predicate Spoils(s: State, r: Request) { Adopts(s, r) && !Complete(r) }

  lemma AdoptSturdy(g: Group, claim: CostClaim)
    requires Sturdy(g)
    ensures Sturdy(Adopt(g, claim)) && (Priced(Adopt(g, claim)) <==> claim.binding.WellFormed() && claim.cost.WellFormed())
  {
    hide SoundEntries, SoundSpecs, MovesWithin;
  }

  lemma {:induction false} UpdatesSturdy(up: Upstream, g: Group, updates: seq<MemberRevalidation>, i: nat)
    requires i <= |updates| && Sturdy(g)
    ensures var g' := ApplyUpdates(up, g, updates, i).0; Sturdy(g') && SameTerms(g, g') && g'.id == g.id
    decreases |updates| - i
  {
    hide CheckUpstream, CostRejection, Sturdy, SoundEntries;
    if i < |updates| {
      var k := Locate(g.members, updates[i].member);
      if k < |g.members| {
        var spec := UpdatedSpec(g.members[k], updates[i]);
        var g' := g.(members := g.members[k := Reproved(g.members[k], spec)]);
        if ValidateFor(up, g, spec).None? {
          ReprovedSturdy(g, k, spec);
          UpdatesSturdy(up, g', updates, i + 1);
        }
      }
    }
  }

  lemma ReprovedSturdy(g: Group, k: nat, spec: MemberSpec)
    requires Sturdy(g) && k < |g.members| && spec.WellFormed()
    ensures Sturdy(g.(members := g.members[k := Reproved(g.members[k], spec)]))
  {
    hide SoundSpecs, MovesWithin;
    assert EntrySound(g.members[k]);
  }

  lemma RestoredSturdy(up: Upstream, g: Group, generation: Option<U64>)
    requires Sturdy(g)
    ensures var g' := Restored(up, WithMultipath(g, generation)); Sturdy(g') && SameTerms(g, g') && g'.id == g.id
  {
    hide SoundSpecs, MovesWithin;
    var m := WithMultipath(g, generation);
    FlagsSound(CostProven, m.members);
    FlagsSound(e => ReobserveEntry(up, m.source, m.multipathSet, m.multipathGen, e), MapEntries(CostProven, m.members));
  }

  /** All groups stay sturdy, all but one keep their terms. */
  ghost predicate LastingBut(s: State, s': State, id: Id) {
    && AllSturdy(s'.groups) && s'.limits == s.limits && |s'.groups| <= s.limits.maxGroups
    && s'.groups.Keys == s.groups.Keys
    && forall x :: x in s.groups && x != id ==> SameTerms(s.groups[x], s'.groups[x])
  }

  lemma StoreLastsBut(s: State, s': State, g: Group)
    requires Savable(s) && g.id in s.groups && Sturdy(g)
    requires s'.groups == s.groups[g.id := g] && s'.limits == s.limits
    ensures LastingBut(s, s', g.id)
  {
    hide Sturdy, Inv;
  }

  lemma FinishLastsBut(s: State, g: Group, c: Context, r: Request, success: Outcome)
    requires Savable(s) && g.id in s.groups && Sturdy(g)
    ensures var s' := Finish(s, g, c, r, success).state;
            LastingBut(s, s', g.id) && g.id in s'.groups && SameTerms(g, s'.groups[g.id])
  {
    var f := Refresh(g, c, s.limits.maxHistory);
    RefreshSturdy(g, c, s.limits.maxHistory);
    FinishedSturdy(g, c, s.limits);
    hide Refresh, Sturdy, Inv, LastingBut, Savable, AllSturdy, Evict;
    var done := Evicted(f.group, s.limits);
    AttemptsOnly(Stored(s, done), r.authority.attempt, AttemptEntry(PayloadOf(r), success, g.id));
    if f.ok { StoreLastsBut(s, Finish(s, g, c, r, success).state, done); }
    else { StoreLastsBut(s, Finish(s, g, c, r, success).state, f.group); }
  }

  lemma UnchangedBut(s: State, id: Id)
    requires Savable(s)
    ensures LastingBut(s, s, id)
  {
    hide Sturdy, Inv;
  }

  /** What a revalidation leaves of the terms of its group: the claimed ones if it adopted them, even when it is then
      refused, and the old ones otherwise. */
  lemma RevalidationTerms(s: State, r: Request, up: Upstream)
    requires Savable(s) && r.Revalidate? && r.group in s.groups
    ensures var s' := Revalidation(s, r, up).state;
            && LastingBut(s, s', r.group)
            && (Priced(s'.groups[r.group]) <==> if Adopts(s, r) then Complete(r) else Priced(s.groups[r.group]))
            && (!Adopts(s, r) ==> SameTerms(s.groups[r.group], s'.groups[r.group]))
  {
    hide Preamble, Finish, Inv, Savable, LastingBut, Sturdy, ApplyUpdates, Restored, WithMultipath, Adopt, CheckAdoption,
         CheckMultipathUpdate, RepeatsMember, Claims, Priced;
    UnchangedBut(s, r.group);
    if Preamble(s, r, GroupEvent.REVALIDATE).None? {
      SoundGroup(s, r, GroupEvent.REVALIDATE);
      var g, claims := s.groups[r.group], Claims(r.updates);
      var adopted := if AdoptionNeeded(g, claims) then Adopt(g, claims[0]) else g;
      if |claims| > 0 { AdoptSturdy(g, claims[0]); AdoptNamed(g, claims[0]); }
      UpdatesSturdy(up, adopted, r.updates, 0);
      var updated := ApplyUpdates(up, adopted, r.updates, 0).0;
      StoreLastsBut(s, Stored(s, updated), updated);
      RestoredSturdy(up, updated, r.newMultipathGen);
      var restored := Restored(up, WithMultipath(updated, r.newMultipathGen));
      var c := ContextFor(s, r.authority, ChangeReason.REVALIDATION, GroupEvent.REVALIDATE);
      FinishLastsBut(s, restored, c, r, REVALIDATED);
      var finished := Finish(s, restored, c, r, REVALIDATED).state.groups[g.id];
      TermsChain(adopted, updated, restored);
      TermsChain(adopted, restored, finished);
      PricedBySameTerms(adopted, updated);
      PricedBySameTerms(adopted, finished);
    }
  }

  lemma AdoptNamed(g: Group, claim: CostClaim)
    ensures Adopt(g, claim).id == g.id
  {
  }

  // ----- Notices, publishers, epochs -----

  /** A group changed by itself: still sturdy, with the terms it had. */
  ghost predicate Lasts(g: Group, g': Group) {
    Sturdy(g') && SameTerms(g, g')
  }

  lemma FlaggedRefresh(g: Group, f: MemberEntry -> MemberEntry, current: Currentness, c: Context, maxHistory: nat)
    requires Sturdy(g) && forall e :: f(e).record.path == e.record.path && f(e).record.cost == e.record.cost
    ensures var g' := g.(members := MapEntries(f, g.members), currentness := current);
            Lasts(g, g') && Lasts(g, Refresh(g', c, maxHistory).group)
  {
    var g' := g.(members := MapEntries(f, g.members), currentness := current);
    FlagsSound(f, g.members);
    FlaggedSturdy(g, g');
    hide Sturdy, Refresh, MapEntries;
    RefreshSturdy(g', c, maxHistory);
  }

  lemma FlaggedSturdy(g: Group, g': Group)
    requires Sturdy(g) && SoundEntries(g'.members) && g' == g.(members := g'.members, currentness := g'.currentness)
    ensures Sturdy(g')
  {
    hide SoundEntries, SoundSpecs, MovesWithin;
  }

  lemma NoticePathLasts(g: Group, up: Upstream, path: Id, c: Context, maxHistory: nat)
    requires Sturdy(g)
    ensures Lasts(g, NoticePath(up, path, g, c, maxHistory).group)
  {
    hide Sturdy, Refresh, AnyPathStale;
    var f := (e: MemberEntry) => NoticePathEntry(up, path, e);
    var ms := MapEntries(f, g.members);
    assert ms == MapEntries(e => NoticePathEntry(up, path, e), g.members);
    FlaggedRefresh(g, f, g.currentness.(stalePath := AnyPathStale(ms)), c, maxHistory);
  }

  lemma NoticeMultipathLasts(g: Group, up: Upstream, c: Context, maxHistory: nat)
    requires Sturdy(g)
    ensures Lasts(g, NoticeMultipath(up, g, c, maxHistory).group)
  {
    hide Sturdy, Refresh, MultipathIsStale, MapEntries;
    FlaggedRefresh(g, MultipathStale, g.currentness.(staleMultipath := true), c, maxHistory);
    FlaggedRefresh(g, MultipathProven, g.currentness.(staleMultipath := false), c, maxHistory);
  }

  lemma NoticeCostLasts(g: Group, generation: U64, c: Context, maxHistory: nat)
    requires Sturdy(g)
    ensures Lasts(g, NoticeCost(generation, g, c, maxHistory).group)
  {
    hide Sturdy, Refresh, MapEntries;
    FlaggedRefresh(g, CostStale, g.currentness.(staleCost := true), c, maxHistory);
    FlaggedRefresh(g, CostProven, g.currentness.(staleCost := false), c, maxHistory);
  }

  lemma NoticeGroupLasts(s: State, up: Upstream, n: Notice, g: Group)
    requires Sturdy(g)
    ensures Lasts(g, NoticeGroup(s, up, n, g).group)
  {
    hide Sturdy, NoticePath, NoticeMultipath, NoticeCost, DependsOn;
    match n
    case PathNotice(_, p, b, path) =>
      NoticePathLasts(g, up, path, NoticeContext(PATH_INVALIDATION, INVALIDATE_PATH, p, b, s.epoch), s.limits.maxHistory);
    case MultipathNotice(_, p, b, _) =>
      NoticeMultipathLasts(g, up, NoticeContext(MULTIPATH_INVALIDATION, INVALIDATE_MULTIPATH, p, b, s.epoch),
                           s.limits.maxHistory);
    case CostNotice(_, p, b, _, generation) =>
      NoticeCostLasts(g, generation, NoticeContext(COST_INVALIDATION, INVALIDATE_COST, p, b, s.epoch),
                      s.limits.maxHistory);
  }

  /** A lapse of authority: flags, bits, no plan, perhaps a new authority generation. */
  lemma LapsedSturdy(g: Group, g': Group, c: Context, maxHistory: nat)
    requires Sturdy(g)
    requires g' == g.(members := MapEntries(Unproven, g.members), currentness := g'.currentness, plan := None,
                      authorityGen := g'.authorityGen, declaredDigest := g'.declaredDigest)
    ensures Lasts(g, Refresh(g', c, maxHistory).group)
  {
    FlagsSound(Unproven, g.members);
    UnprovenSturdy(g, g');
    hide Sturdy, Refresh, MapEntries;
    RefreshSturdy(g', c, maxHistory);
  }

  lemma UnprovenSturdy(g: Group, g': Group)
    requires Sturdy(g) && SoundEntries(g'.members)
    requires g' == g.(members := g'.members, currentness := g'.currentness, plan := None,
                      authorityGen := g'.authorityGen, declaredDigest := g'.declaredDigest)
    ensures Sturdy(g')
  {
    hide SoundEntries, SoundSpecs, MovesWithin;
  }

  lemma FencedLasts(g: Group, publisher: Id, boot: Id, epoch: nat, maxHistory: nat)
    requires Sturdy(g)
    ensures Lasts(g, FencedGroup(g, publisher, boot, epoch, maxHistory))
  {
    hide Sturdy, Refresh, MapEntries;
    LapsedSturdy(g, g.(currentness := g.currentness.(fenced := true, revalidation := true), plan := None,
                       members := MapEntries(Unproven, g.members)),
                 LapseContext(g, EPOCH_INVALIDATION, publisher, boot, epoch), maxHistory);
  }

  lemma EpochLasts(g: Group, epoch: nat, maxHistory: nat)
    requires Sturdy(g)
    ensures Lasts(g, EpochGroup(g, epoch, maxHistory))
  {
    hide Sturdy, Refresh, MapEntries;
    LapsedSturdy(g, g.(authorityGen := g.authorityGen + 1, plan := None, members := MapEntries(Unproven, g.members),
                       currentness := g.currentness.(staleEpoch := true, revalidation := true)),
                 LapseContext(g, EPOCH_INVALIDATION, g.publisher, g.boot, epoch), maxHistory);
  }

  lemma RecoveredLasts(g: Group, epoch: nat, maxHistory: nat)
    requires Sturdy(g)
    ensures Lasts(g, RecoveredGroup(g, epoch, maxHistory))
  {
    hide Sturdy, Refresh, MapEntries;
    var members := MapEntries(Unproven, g.members);
    LapsedSturdy(g, g.(members := members, currentness := g.currentness.(staleEpoch := true, revalidation := true),
                       plan := None, authorityGen := g.authorityGen + 1, declaredDigest := DeclaredIds(members)),
                 LapseContext(g, RECOVERY, g.publisher, g.boot, epoch), maxHistory);
  }

  /** Each group changed by itself. */
  lemma PointwiseLasts(s: State, s': State)
    requires Savable(s) && s'.limits == s.limits && s'.groups.Keys == s.groups.Keys
    requires forall id :: id in s.groups ==> Lasts(s.groups[id], s'.groups[id])
    ensures Lasting(s, s')
  {
    hide Sturdy, Inv;
    SameSize(s.groups, s'.groups);
  }

  lemma SameSize<K, V>(a: map<K, V>, b: map<K, V>)
    requires a.Keys == b.Keys
    ensures |a| == |b|
  {
    assert |a| == |a.Keys| && |b| == |b.Keys|;
  }

  lemma NotifyLasts(s: State, n: Notice, up: Upstream)
    requires Savable(s)
    ensures Lasting(s, Notify(s, n, up).state)
  {
    hide Savable, NoticeGroup, AuthorizeUpstream, Lasting, Sturdy, SameTerms;
    NothingLost(s, s);
    if Notify(s, n, up).state.groups == (map id | id in s.groups :: NoticeGroup(s, up, n, s.groups[id]).group) {
      forall id | id in s.groups ensures Lasts(s.groups[id], Notify(s, n, up).state.groups[id]) {
        SturdyOf(s, id);
        NoticeGroupLasts(s, up, n, s.groups[id]);
      }
      PointwiseLasts(s, Notify(s, n, up).state);
    }
  }

  lemma SturdyOf(s: State, id: Id)
    requires Savable(s) && id in s.groups
    ensures Sturdy(s.groups[id])
  {
    hide Inv, Sturdy;
  }

  lemma LastsReflexive(g: Group)
    requires Sturdy(g)
    ensures Lasts(g, g)
  {
  }

  lemma FenceLasts(s: State, publisher: Id, boot: Id)
    requires Savable(s)
    ensures Lasting(s, Fence(s, publisher, boot).state)
  {
    hide Savable, FencedGroup, Lasting, Lasts, Sturdy;
    NothingLost(s, s);
    var s' := Fence(s, publisher, boot).state;
    if s'.groups.Keys == s.groups.Keys {
      forall id | id in s.groups ensures Lasts(s.groups[id], s'.groups[id]) {
        SturdyOf(s, id);
        LastsReflexive(s.groups[id]);
        FencedLasts(s.groups[id], publisher, boot, s.epoch, s.limits.maxHistory);
      }
      PointwiseLasts(s, s');
    }
  }

  lemma SetEpochLasts(s: State, epoch: nat)
    requires Savable(s)
    ensures Lasting(s, SetEpoch(s, epoch).state)
  {
    hide Savable, EpochGroup, Lasting, Lasts, Sturdy;
    NothingLost(s, s);
    var s' := SetEpoch(s, epoch).state;
    if epoch > s.epoch {
      forall id | id in s.groups ensures Lasts(s.groups[id], s'.groups[id]) {
        SturdyOf(s, id);
        EpochLasts(s.groups[id], epoch, s.limits.maxHistory);
      }
      PointwiseLasts(s, s');
    }
  }

  // ----- Every step -----

  lemma ServeLasts(s: State, r: Request, up: Upstream)
    requires Savable(s) && !r.Revalidate?
    ensures Lasting(s, Serve(s, r, up).state)
  {
    hide Savable, Lasting, Create, Add, Remove, Enable, Apply, Planning, Commit, Abort, Withdraw, Revoke, Retire, Supersede;
    match r
    case CreateGroup(_, _, _, _, _, _, _, _, _, _, _, _) => CreateLasts(s, r, up);
    case AddMember(_, _, _) => AddLasts(s, r, up);
    case RemoveMember(_, _, _) => RemoveLasts(s, r);
    case SetEnabled(_, _, _, _) => EnableLasts(s, r, up);
    case ApplySet(_, _, _) => ApplyLasts(s, r, up);
    case PlanRebalance(_, _, _) => PlanningLasts(s, r, up);
    case CommitRebalance(_, _, _) => CommitLasts(s, r);
    case AbortRebalance(_, _, _) => AbortLasts(s, r);
    case WithdrawGroup(_, _, _) => WithdrawLasts(s, r);
    case RevokeGroup(_, _, _) => RevokeLasts(s, r);
    case RetireGroup(_, _, _) => RetireLasts(s, r);
    case SupersedeGroup(_, _, _) => SupersedeLasts(s, r);
  }

  predicate IsRevalidation(step: Step) { step.OnRequest? && step.request.Revalidate? }

  lemma StepLasts(s: State, step: Step)
    requires Savable(s) && !IsRevalidation(step)
    ensures Lasting(s, Next(s, step).state)
  {
    hide Savable, Lasting, Serve, Notify, Fence, SetEpoch;
    match step
    case OnRequest(r, up) => ServeLasts(s, r, up);
    case OnNotice(n, up) => NotifyLasts(s, n, up);
    case OnRegister(e, reg) => NothingLost(s, Register(s, e, reg).state);
    case OnFence(p, b) => FenceLasts(s, p, b);
    case OnEpoch(e) => SetEpochLasts(s, e);
  }
}
