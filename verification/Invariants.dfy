/** Every step keeps every group in order, and no generation ever falls. */
module Invariants {
  import opened Prelude
  import opened Assignment
  import opened AssignmentProofs
  import opened Lifecycle
  import opened Records
  import opened Sorting
  import opened Groups
  import opened GroupProofs
  import opened TargetProofs
  import opened Governor

  ghost predicate GroupsOk(groups: map<Id, Group>, limits: Limits) {
    forall id :: id in groups ==> groups[id].id == id && GroupOk(groups[id], limits)
  }

  /** The state invariant. */
  ghost predicate Inv(s: State) {
    s.limits.Coherent() && GroupsOk(s.groups, s.limits)
  }

  /** What one step does to a group it did not plan: generations advance, a pending plan is kept or dropped. */
  ghost predicate Follows(g: Group, g': Group) {
    Advances(g, g') && (g'.plan.Some? ==> g'.plan == g.plan)
  }

  /** A step from s: the invariant still holds and every group but `planned` follows. */
  ghost predicate StepOk(s: State, s': State, planned: Option<Id>) {
    && Inv(s') && s'.limits == s.limits && s.groups.Keys <= s'.groups.Keys
    && forall id :: id in s.groups ==>
         Advances(s.groups[id], s'.groups[id]) && (planned != Some(id) ==> Follows(s.groups[id], s'.groups[id]))
  }

  // ----- Finishing a change -----

  ghost predicate NobodyEligible(ms: seq<MemberEntry>) {
    forall i :: 0 <= i < |ms| ==> !(ms[i].record.declared && ms[i].record.enabled)
  }

  /** A changed group that a refresh can finish. */
  ghost predicate Finishable(g: Group, c: Context, limits: Limits) {
    && Loose(g, limits) && LifecycleAllows(g.lifecycle, c.event) && c.recompute
    && (c.event.PLAN_REBALANCE? ==> g.plan.Some?)
    && (EndsGroup(c.event) ==> NobodyEligible(g.members))
    && (g.successor != NIL ==> c.event.SUPERSEDE? || c.event.RETIRE?)
  }

  lemma NobodyEligibleNobodyActive(ms: seq<MemberEntry>)
    requires NobodyEligible(ms)
    ensures ActiveIds(MapEntries(DeriveEntry, ms)) == []
  {
    NobodyActive(MapEntries(DeriveEntry, ms));
  }

  /** The lifecycle a recomputing refresh leaves behind. */
  lemma FinishedLifecycle(g: Group, c: Context, limits: Limits, r: Group)
    requires Finishable(g, c, limits) && RefreshedFrom(g, c, limits, r)
    requires Some(r.lifecycle) == ApplyGroupEvent(g.lifecycle, c.event, InputsOf(r))
    ensures !IsClosed(r.lifecycle) ==> r.lifecycle == DeriveLifecycle(InputsOf(r))
    ensures IsTerminal(r.lifecycle) ==> Settled(r.owners, []) && ActiveIds(r.members) == []
    ensures r.successor != NIL ==> r.lifecycle.Superseded? || r.lifecycle.Retired?
  {
    EventTarget(g.lifecycle, c.event, InputsOf(r));
    hide ApplyGroupEvent, LifecycleAllows, Loose, Advances, Rebalanced;
    if EndsGroup(c.event) { NobodyEligibleNobodyActive(g.members); }
  }

  function Evicted(g: Group, limits: Limits): Group {
    g.(members := Evict(g.members, limits.maxMembersPerGroup))
  }

  /** A group as a finished change leaves it. */
  ghost predicate FinishedFrom(g: Group, limits: Limits, r: Group) {
    && GroupOk(r, limits) && Advances(g, r) && r.plan == g.plan
    && ActiveIds(r.members) == ActiveIds(MapEntries(DeriveEntry, g.members))
    && r.owners == Rebalanced(g.owners, ActiveIds(r.members))
  }

  lemma LooseWithMembers(g: Group, ms: seq<MemberEntry>, limits: Limits)
    requires Loose(g, limits) && EntriesOk(ms) && |DeclaredIds(ms)| <= g.bucketCount
    ensures Loose(g.(members := ms), limits)
  {
  }

  lemma EvictedIsOk(g: Group, c: Context, limits: Limits, r: Group)
    requires Finishable(g, c, limits) && RefreshedFrom(g, c, limits, r)
    requires |DeclaredIds(g.members)| <= limits.maxMembersPerGroup
    requires Some(r.lifecycle) == ApplyGroupEvent(g.lifecycle, c.event, InputsOf(r))
    ensures FinishedFrom(g, limits, Evicted(r, limits))
  {
    FinishedLifecycle(g, c, limits, r);
    hide ApplyGroupEvent, LifecycleAllows, PlanOk, EntriesOk, Settled, Rebalanced, Derived;
    EvictFacts(r.members, limits.maxMembersPerGroup);
    LooseWithMembers(r, Evict(r.members, limits.maxMembersPerGroup), limits);
    OwnersListed(r.owners, Evict(r.members, limits.maxMembersPerGroup));
  }

  /** Refresh and eviction re-establish the group invariant. */
  lemma RefreshedIsOk(g: Group, c: Context, limits: Limits)
    requires Finishable(g, c, limits) && |DeclaredIds(g.members)| <= limits.maxMembersPerGroup
    ensures var f := Refresh(g, c, limits.maxHistory);
            f.ok && FinishedFrom(g, limits, Evicted(f.group, limits))
  {
    RefreshFacts(g, c, limits);
    hide Refresh;
    EvictedIsOk(g, c, limits, Refresh(g, c, limits.maxHistory).group);
  }

  lemma AttemptsOnly(s: State, attempt: Id, entry: AttemptEntry)
    ensures var r := RememberAttempt(s, attempt, entry);
            && r.groups == s.groups && r.limits == s.limits && r.epoch == s.epoch && r.fenced == s.fenced
            && r.publishers == s.publishers && r.costPolicy == s.costPolicy
  {
  }

  lemma AdvancesReflexive(g: Group)
    ensures Follows(g, g)
  {
  }

  lemma Unchanged(s: State)
    requires Inv(s)
    ensures StepOk(s, s, None)
  {
    hide GroupOk, Follows, Advances;
    forall id | id in s.groups ensures Follows(s.groups[id], s.groups[id]) && Advances(s.groups[id], s.groups[id]) {
      AdvancesReflexive(s.groups[id]);
    }
  }

  lemma StoreKeepsInv(s: State, s': State, g: Group, done: Group)
    requires Inv(s) && g.id in s.groups && s.groups[g.id] == g
    requires s'.groups == s.groups[g.id := done] && s'.limits == s.limits
    requires GroupOk(done, s.limits) && Advances(g, done)
    ensures Inv(s')
  {
    hide GroupOk;
  }

  /** Replacing one group by a good successor of it is a good step. */
  lemma StoreOk(s: State, s': State, g: Group, done: Group)
    requires Inv(s) && g.id in s.groups && s.groups[g.id] == g
    requires s'.groups == s.groups[g.id := done] && s'.limits == s.limits
    requires GroupOk(done, s.limits) && Advances(g, done)
    ensures StepOk(s, s', Some(g.id))
    ensures (done.plan.Some? ==> done.plan == g.plan) ==> StepOk(s, s', None)
  {
    hide GroupOk, Advances, Inv;
    StoreKeepsInv(s, s', g, done);
    forall id | id in s.groups ensures Advances(s.groups[id], s'.groups[id]) {
      AdvancesReflexive(s.groups[id]);
    }
    forall id | id in s.groups && id != g.id ensures Follows(s.groups[id], s'.groups[id]) {
      AdvancesReflexive(s.groups[id]);
    }
  }

  /** Finishing a change that can be finished succeeds and keeps everything in order. */
  lemma FinishOk(s: State, g0: Group, g: Group, c: Context, r: Request, success: Outcome)
    requires Inv(s) && g0.id in s.groups && s.groups[g0.id] == g0 && Advances(g0, g)
    requires Finishable(g, c, s.limits) && |DeclaredIds(g.members)| <= s.limits.maxMembersPerGroup
    ensures var a := Finish(s, g, c, r, success);
            && a.outcome == success && StepOk(s, a.state, Some(g.id))
            && a.state.groups == s.groups[g.id := Evicted(Refresh(g, c, s.limits.maxHistory).group, s.limits)]
            && ((g.plan.Some? ==> g.plan == g0.plan) ==> StepOk(s, a.state, None))
  {
    RefreshedIsOk(g, c, s.limits);
    var done := Evicted(Refresh(g, c, s.limits.maxHistory).group, s.limits);
    AdvancesTransitive(g0, g, done);
    AttemptsOnly(Stored(s, done), r.authority.attempt, AttemptEntry(PayloadOf(r), success, g.id));
    hide Refresh, GroupOk, Finishable, RememberAttempt, StepOk, Inv, Evict;
    StoreOk(s, Finish(s, g, c, r, success).state, g0, done);
  }

  // ----- Changes of the member list -----

  lemma {:induction false} DeclaredShrinks(ms: seq<MemberEntry>, ms': seq<MemberEntry>)
    requires SamePlaces(ms, ms')
    requires forall i :: 0 <= i < |ms| && ms'[i].record.declared ==> ms[i].record.declared
    ensures |DeclaredIds(ms')| <= |DeclaredIds(ms)|
  {
    if ms != [] { DeclaredShrinks(ms[..|ms| - 1], ms'[..|ms| - 1]); }
  }

  /** Changing flags, or undeclaring members, leaves a loose group loose. */
  lemma FlagsKeepLoose(g: Group, ms: seq<MemberEntry>, limits: Limits)
    requires Loose(g, limits) && SamePlaces(g.members, ms)
    requires forall i :: 0 <= i < |ms| && ms[i].record.declared ==> g.members[i].record.declared
    ensures Loose(g.(members := ms), limits) && |DeclaredIds(ms)| <= |DeclaredIds(g.members)|
  {
    SamePlacesKeepsEntries(g.members, ms);
    DeclaredShrinks(g.members, ms);
  }

  lemma DeclaredBound(g: Group, limits: Limits)
    requires GroupOk(g, limits)
    ensures |DeclaredIds(g.members)| <= limits.maxMembersPerGroup
  {
    ActiveNotMoreThanDeclared(g.members);
  }

  lemma {:induction false} DeclaredCountUpdate(ms: seq<MemberEntry>, i: nat, e: MemberEntry)
    requires i < |ms|
    ensures |DeclaredIds(ms[i := e])| <= |DeclaredIds(ms)| + 1
  {
    var a, b := ms[..i], ms[i + 1..];
    assert ms == a + [ms[i]] + b && ms[i := e] == a + [e] + b;
    DeclaredAppend(a + [ms[i]], b);
    DeclaredAppend(a + [e], b);
    DeclaredAppend(a, [ms[i]]);
    DeclaredAppend(a, [e]);
    OneDeclared(e);
    OneDeclared(ms[i]);
  }

  lemma OneDeclared(e: MemberEntry)
    ensures |DeclaredIds([e])| <= 1
  {
    assert DeclaredIds([e][..0]) == [];
  }

  lemma {:induction false} InsertDeclaredCount(xs: seq<MemberEntry>, x: MemberEntry)
    ensures |DeclaredIds(InsertBy(EntryKey, xs, x))| == |DeclaredIds(xs)| + |DeclaredIds([x])|
  {
    if xs == [] || !Less(EntryKey(x), EntryKey(xs[|xs| - 1])) {
      DeclaredAppend(xs, [x]);
    } else {
      var init, last := xs[..|xs| - 1], [xs[|xs| - 1]];
      InsertDeclaredCount(init, x);
      DeclaredAppend(InsertBy(EntryKey, init, x), last);
      DeclaredAppend(init, last);
      assert xs == init + last;
    }
  }

  lemma {:induction false} SortedDeclaredCount(xs: seq<MemberEntry>)
    ensures |DeclaredIds(SortBy(EntryKey, xs))| == |DeclaredIds(xs)|
  {
    if xs != [] {
      var init, last := xs[..|xs| - 1], xs[|xs| - 1];
      SortedDeclaredCount(init);
      InsertDeclaredCount(SortBy(EntryKey, init), last);
      DeclaredAppend(init, [last]);
      assert xs == init + [last];
    }
  }

  /** Adding a member that was not declared leaves canonical entries and one more declared member. */
  lemma WithMemberFacts(ms: seq<MemberEntry>, spec: MemberSpec)
    requires EntriesOk(ms) && spec.member != NIL
    ensures EntriesOk(WithMember(ms, spec)) && |DeclaredIds(WithMember(ms, spec))| <= |DeclaredIds(ms)| + 1
  {
    var i := Locate(ms, spec.member);
    IndexOfFirst(MemberIds(ms), spec.member);
    if i < |ms| {
      var raw := ms[i := FreshEntry(spec)];
      assert MemberIds(raw) == MemberIds(ms);
      DeclaredCountUpdate(ms, i, FreshEntry(spec));
      SortedEntriesOk(raw);
      SortedDeclaredCount(raw);
    } else {
      var raw := ms + [FreshEntry(spec)];
      assert MemberIds(raw) == MemberIds(ms) + [spec.member];
      DeclaredAppend(ms, [FreshEntry(spec)]);
      OneDeclared(FreshEntry(spec));
      SortedEntriesOk(raw);
      SortedDeclaredCount(raw);
    }
  }

  // ----- One lemma per operation -----

  /** What the common preamble establishes when it lets a request through. */
  lemma Ready(s: State, r: Request, event: GroupEvent)
    requires Inv(s) && Preamble(s, r, event).None?
    ensures r.group in s.groups && r.authority.attempt !in s.attempts
    ensures var g := s.groups[r.group];
            && g.id == r.group && GroupOk(g, s.limits) && Loose(g, s.limits) && EntriesOk(g.members)
            && |DeclaredIds(g.members)| <= s.limits.maxMembersPerGroup
            && LifecycleAllows(g.lifecycle, event) && (g.successor != NIL ==> event.RETIRE?)
  {
    DeclaredBound(s.groups[r.group], s.limits);
  }

  lemma AddFinish(s: State, r: Request, g: Group)
    requires Inv(s) && r.AddMember? && g.id in s.groups && s.groups[g.id] == g && Loose(g, s.limits) && g.successor == NIL
    requires r.spec.member != NIL && LifecycleAllows(g.lifecycle, GroupEvent.ADD_MEMBER)
    requires |DeclaredIds(g.members)| + 1 <= s.limits.maxMembersPerGroup && |DeclaredIds(g.members)| + 1 <= g.bucketCount
    ensures StepOk(s, Finish(s, g.(members := WithMember(g.members, r.spec)),
                             ContextFor(s, r.authority, ChangeReason.ADD_MEMBER, GroupEvent.ADD_MEMBER), r,
                             MEMBER_ADDED).state, None)
  {
    LooseEntries(g, s.limits);
    hide Finish, Refresh, LifecycleAllows, WithMember, StepOk, Loose, Inv, EntriesOk, PayloadOf;
    WithMemberFacts(g.members, r.spec);
    LooseWithMembers(g, WithMember(g.members, r.spec), s.limits);
    FinishOk(s, g, g.(members := WithMember(g.members, r.spec)),
             ContextFor(s, r.authority, ChangeReason.ADD_MEMBER, GroupEvent.ADD_MEMBER), r, MEMBER_ADDED);
  }

  lemma LooseEntries(g: Group, limits: Limits)
    requires Loose(g, limits)
    ensures EntriesOk(g.members)
  {
  }

  lemma ValidSpecNamed(up: Upstream, g: Group, spec: MemberSpec)
    requires ValidateFor(up, g, spec).None?
    ensures spec.WellFormed()
  {
  }

  lemma AddOk(s: State, r: Request, up: Upstream)
    requires Inv(s) && r.AddMember?
    ensures StepOk(s, Add(s, r, up).state, None)
  {
    hide Preamble, Finish, LifecycleAllows, WithMember, StepOk, GroupOk, Loose, Inv, ValidateFor, EntriesOk, ContextFor,
         Total, DeclaredIds;
    var event := GroupEvent.ADD_MEMBER;
    Unchanged(s);
    if Preamble(s, r, event).None? {
      Ready(s, r, event);
      var g := s.groups[r.group];
      if |DeclaredIds(g.members)| + 1 <= s.limits.maxMembersPerGroup && |DeclaredIds(g.members)| + 1 <= g.bucketCount &&
         ValidateFor(up, g, r.spec).None? {
        ValidSpecNamed(up, g, r.spec);
        AddFinish(s, r, g);
      }
    }
  }

  lemma RemoveOk(s: State, r: Request)
    requires Inv(s) && r.RemoveMember?
    ensures StepOk(s, Remove(s, r).state, None)
  {
    hide Preamble, Finish, Refresh, LifecycleAllows, StepOk, GroupOk, Loose, Inv;
    var event := GroupEvent.REMOVE_MEMBER;
    Unchanged(s);
    if Preamble(s, r, event).None? {
      Ready(s, r, event);
      var g := s.groups[r.group];
      var i := Locate(g.members, r.member);
      if i < |g.members| {
        var ms := g.members[i := Departing(g.members[i])];
        FlagsKeepLoose(g, ms, s.limits);
        FinishOk(s, g, g.(members := ms), ContextFor(s, r.authority, ChangeReason.REMOVE_MEMBER, event), r,
                 MEMBER_REMOVED);
      }
    }
  }

  /** Changing the flags of one entry leaves a loose group loose. */
  lemma OneFlagged(g: Group, i: nat, e: MemberEntry, limits: Limits)
    requires Loose(g, limits) && i < |g.members| && g.members[i].record.declared
    requires e.record.member == g.members[i].record.member && e.record.path == g.members[i].record.path
    ensures var g' := g.(members := g.members[i := e]);
            Loose(g', limits) && |DeclaredIds(g'.members)| <= |DeclaredIds(g.members)| && Advances(g, g')
  {
    hide Loose;
    FlagsKeepLoose(g, g.members[i := e], limits);
  }

  lemma EnableFinish(s: State, r: Request, g: Group, i: nat, event: GroupEvent, reason: ChangeReason)
    requires Inv(s) && r.SetEnabled? && i < |g.members| && g.members[i].record.declared
    requires g.id in s.groups && s.groups[g.id] == g && Loose(g, s.limits) && g.successor == NIL
    requires |DeclaredIds(g.members)| <= s.limits.maxMembersPerGroup
    requires LifecycleAllows(g.lifecycle, event) && IsMemberEvent(event)
    ensures var e := if r.enabled then Enabling(g.members[i]) else Disabled(g.members[i]);
            StepOk(s, Finish(s, g.(members := g.members[i := e]), ContextFor(s, r.authority, reason, event), r,
                             if r.enabled then MEMBER_ENABLED else MEMBER_DISABLED).state, None)
  {
    hide Finish, LifecycleAllows, StepOk, Loose, Inv, PayloadOf, DeclaredIds, Advances, Refresh;
    var e := if r.enabled then Enabling(g.members[i]) else Disabled(g.members[i]);
    OneFlagged(g, i, e, s.limits);
    FinishOk(s, g, g.(members := g.members[i := e]), ContextFor(s, r.authority, reason, event), r,
             if r.enabled then MEMBER_ENABLED else MEMBER_DISABLED);
  }

  lemma EnableOk(s: State, r: Request, up: Upstream)
    requires Inv(s) && r.SetEnabled?
    ensures StepOk(s, Enable(s, r, up).state, None)
  {
    hide Preamble, Finish, LifecycleAllows, StepOk, GroupOk, Loose, Inv, ValidateFor, RememberAttempt, Enabling, Disabled,
         PayloadOf, SpecOf, ContextFor, EntriesOk, DeclaredIds;
    var event := if r.enabled then GroupEvent.ENABLE_MEMBER else GroupEvent.DISABLE_MEMBER;
    var reason := if r.enabled then ChangeReason.ENABLE_MEMBER else ChangeReason.DISABLE_MEMBER;
    Unchanged(s);
    if Preamble(s, r, event).None? {
      Ready(s, r, event);
      var g := s.groups[r.group];
      var i := Locate(g.members, r.member);
      Remembered(s, r.authority.attempt, AttemptEntry(PayloadOf(r), NO_CHANGE, g.id));
      if i < |g.members| && g.members[i].record.declared {
        EnableFinish(s, r, g, i, event, reason);
      }
    }
  }

  lemma Remembered(s: State, attempt: Id, entry: AttemptEntry)
    requires Inv(s)
    ensures StepOk(s, RememberAttempt(s, attempt, entry), None)
  {
    AttemptsOnly(s, attempt, entry);
    SameGroups(s, RememberAttempt(s, attempt, entry));
  }

  lemma SameGroups(s: State, s': State)
    requires Inv(s) && s'.groups == s.groups && s'.limits == s.limits
    ensures StepOk(s, s', None)
  {
    hide GroupOk, Advances, Follows;
    forall id | id in s.groups ensures Follows(s.groups[id], s'.groups[id]) && Advances(s.groups[id], s'.groups[id]) {
      AdvancesReflexive(s.groups[id]);
    }
  }

  // ----- Target sets -----

  lemma {:induction false} SpecShapeFacts(specs: seq<MemberSpec>, i: nat)
    requires i <= |specs| && CheckSpecShape(specs, i).None?
    ensures forall k :: i <= k < |specs| ==> specs[k].WellFormed() && specs[k].member !in SpecIds(specs[k + 1..])
    decreases |specs| - i
  {
    if i < |specs| { SpecShapeFacts(specs, i + 1); }
  }

  lemma ShapedSpecsListed(specs: seq<MemberSpec>)
    requires CheckSpecShape(specs, 0).None?
    ensures Listed(SpecIds(specs))
  {
    SpecShapeFacts(specs, 0);
    forall i, j | 0 <= i < j < |specs| ensures SpecIds(specs)[i] != SpecIds(specs)[j] {
      assert SpecIds(specs[i + 1..])[j - i - 1] == specs[j].member;
    }
  }

  /** A group with its declared set replaced can be finished. */
  lemma RetargetedLoose(g: Group, specs: seq<MemberSpec>, limits: Limits)
    requires Loose(g, limits) && Listed(SpecIds(specs)) && |specs| <= g.bucketCount
    ensures Loose(Retargeted(g, specs), limits) && |DeclaredIds(Retargeted(g, specs).members)| == |specs|
    ensures Advances(g, Retargeted(g, specs))
  {
    hide PlanOk, ApplyTarget;
    TargetFacts(g.members, specs);
    LooseWithMembers(g, ApplyTarget(g.members, specs), limits);
  }

  lemma TargetContextAllowed(s: State, a: Authority, g: Group, specs: seq<MemberSpec>)
    requires LifecycleAllows(g.lifecycle, GroupEvent.ADD_MEMBER) || LifecycleAllows(g.lifecycle, PLAN_REBALANCE)
    ensures LifecycleAllows(g.lifecycle, TargetContext(s, a, g, specs).event)
    ensures var c := TargetContext(s, a, g, specs);
            IsMemberEvent(c.event) && c.recompute && c.bind && c.epoch == s.epoch && c.publisher == a.publisher &&
            c.boot == a.boot
  {
  }

  /** The trial of a member set: what its refresh yields and that it is in order. */
  lemma TrialOk(s: State, a: Authority, g: Group, specs: seq<MemberSpec>)
    requires Loose(g, s.limits) && g.successor == NIL && Listed(SpecIds(specs))
    requires |specs| <= g.bucketCount && |specs| <= s.limits.maxMembersPerGroup
    requires LifecycleAllows(g.lifecycle, GroupEvent.ADD_MEMBER) || LifecycleAllows(g.lifecycle, PLAN_REBALANCE)
    ensures var c, t := TargetContext(s, a, g, specs), Retargeted(g, specs);
            var f := Refresh(t, c, s.limits.maxHistory);
            && f.ok && RefreshedFrom(t, c, s.limits, f.group)
            && FinishedFrom(t, s.limits, Evicted(f.group, s.limits)) && Advances(g, Evicted(f.group, s.limits))
  {
    hide Refresh, LifecycleAllows, RefreshedFrom, FinishedFrom;
    var c, t := TargetContext(s, a, g, specs), Retargeted(g, specs);
    RetargetedLoose(g, specs, s.limits);
    TargetContextAllowed(s, a, g, specs);
    TrialRefreshed(t, c, s.limits);
    FinishedAdvances(g, t, s.limits, Evicted(Refresh(t, c, s.limits.maxHistory).group, s.limits));
  }

  lemma TrialRefreshed(t: Group, c: Context, limits: Limits)
    requires Loose(t, limits) && LifecycleAllows(t.lifecycle, c.event) && IsMemberEvent(c.event) && c.recompute
    requires t.successor == NIL && |DeclaredIds(t.members)| <= limits.maxMembersPerGroup
    ensures var f := Refresh(t, c, limits.maxHistory);
            f.ok && RefreshedFrom(t, c, limits, f.group) && FinishedFrom(t, limits, Evicted(f.group, limits))
  {
    hide Refresh, LifecycleAllows, RefreshedFrom, FinishedFrom, Loose;
    RefreshFacts(t, c, limits);
    RefreshedIsOk(t, c, limits);
  }

  lemma FinishedAdvances(g0: Group, g: Group, limits: Limits, r: Group)
    requires Advances(g0, g) && FinishedFrom(g, limits, r)
    ensures Advances(g0, r)
  {
    AdvancesTransitive(g0, g, r);
  }

  lemma ApplyOk(s: State, r: Request, up: Upstream)
    requires Inv(s) && r.ApplySet?
    ensures StepOk(s, Apply(s, r, up).state, None)
  {
    hide Preamble, Refresh, LifecycleAllows, StepOk, GroupOk, Loose, Inv, ValidateAll, RememberAttempt, TargetChanges,
         CheckSpecShape, TargetContext, ApplyTarget, Evict, RefreshedFrom, AnyPathMoved;
    var event := GroupEvent.ADD_MEMBER;
    Unchanged(s);
    if Preamble(s, r, event).None? {
      Ready(s, r, event);
      var g := s.groups[r.group];
      if CheckSetRequest(s, g, r.members, up).None? {
        ShapedSpecsListed(r.members);
        TrialOk(s, r.authority, g, r.members);
        var f := Refresh(Retargeted(g, r.members), TargetContext(s, r.authority, g, r.members), s.limits.maxHistory);
        var done := Evicted(f.group, s.limits);
        var outcome := if f.group.assignmentGen != g.assignmentGen then REBALANCED else NO_CHANGE;
        var entry := AttemptEntry(PayloadOf(r), outcome, g.id);
        AttemptsOnly(Stored(s, done), r.authority.attempt, entry);
        StoreOk(s, RememberAttempt(Stored(s, done), r.authority.attempt, entry), g, done);
      }
    }
  }

  // ----- Plans -----

  /** What a plan needs to know of its trial. */
  ghost predicate TrialFor(g: Group, specs: seq<MemberSpec>, trial: Group) {
    && DeclaredIds(trial.members) == SpecIds(specs)
    && trial.owners == Rebalanced(g.owners, EnabledIds(specs))
    && trial.membershipGen == g.membershipGen + (if SpecIds(specs) == g.declaredDigest then 0 else 1)
  }

  lemma PlanForOk(s: State, r: Request, g: Group, trial: Group)
    requires r.PlanRebalance? && Loose(g, s.limits)
    requires var sorted := SortBy(SpecKey, r.members);
             TargetOk(sorted) && |sorted| <= g.bucketCount && |sorted| <= s.limits.maxMembersPerGroup &&
             TrialFor(g, sorted, trial)
    ensures Loose(g.(plan := Some(PlanFor(s, r, g, trial))), s.limits)
  {
    hide Rebalanced, EntriesOk, TargetOk, SortBy, EnabledIds, DeclaredIds, SpecIds;
    var p := PlanFor(s, r, g, trial);
    var g' := g.(plan := Some(p));
    assert p.targetMembers == SortBy(SpecKey, r.members);
    assert p.targetDigest == SpecIds(p.targetMembers);
    assert p.assignment == Rebalanced(g.owners, EnabledIds(p.targetMembers));
    assert PlanOk(g');
  }

  lemma TrialMatches(g: Group, specs: seq<MemberSpec>, c: Context, limits: Limits, trial: Group)
    requires Loose(g, limits) && Listed(SpecIds(specs)) && c.recompute
    requires RefreshedFrom(Retargeted(g, specs), c, limits, trial)
    ensures TrialFor(g, SortBy(SpecKey, specs), trial)
  {
    hide Rebalanced, ApplyTarget, PlanOk, Settled, EntriesOk;
    TargetFacts(g.members, specs);
    assert trial.members == MapEntries(DeriveEntry, ApplyTarget(g.members, specs));
  }

  /** A fresh plan foresees the commit it stands for. */
  lemma FreshPlanOk(s: State, r: Request, g: Group)
    requires r.PlanRebalance? && Loose(g, s.limits) && g.successor == NIL && Listed(SpecIds(r.members))
    requires |r.members| <= g.bucketCount && |r.members| <= s.limits.maxMembersPerGroup
    requires LifecycleAllows(g.lifecycle, PLAN_REBALANCE)
    ensures var trial := Refresh(Retargeted(g, r.members), TargetContext(s, r.authority, g, r.members),
                                 s.limits.maxHistory).group;
            Loose(g.(plan := Some(PlanFor(s, r, g, trial))), s.limits)
  {
    hide Refresh, LifecycleAllows, TargetContext, FinishedFrom, ApplyTarget, Loose, RefreshedFrom, PlanFor, TrialFor;
    var c, t := TargetContext(s, r.authority, g, r.members), Retargeted(g, r.members);
    TargetContextAllowed(s, r.authority, g, r.members);
    TrialOk(s, r.authority, g, r.members);
    SortedTarget(r.members);
    var trial := Refresh(t, c, s.limits.maxHistory).group;
    TrialMatches(g, r.members, c, s.limits, trial);
    PlanForOk(s, r, g, trial);
  }

  /** The group an accepted plan request leaves behind. */
  lemma PlanningFinish(s: State, r: Request, up: Upstream, g: Group)
    requires Inv(s) && r.PlanRebalance? && g.id in s.groups && s.groups[g.id] == g && g.id == r.group
    requires Loose(g, s.limits) && g.successor == NIL && |DeclaredIds(g.members)| <= s.limits.maxMembersPerGroup
    requires LifecycleAllows(g.lifecycle, PLAN_REBALANCE) && CheckPlanRequest(s, g, r.members, up).None?
    ensures var trial := Refresh(Retargeted(g, r.members), TargetContext(s, r.authority, g, r.members),
                                 s.limits.maxHistory);
            var c := ContextFor(s, r.authority, ChangeReason.REVALIDATION, PLAN_REBALANCE);
            && trial.ok
            && StepOk(s, Finish(s, g.(plan := Some(PlanFor(s, r, g, trial.group))), c, r, REBALANCE_PLANNED).state,
                      Some(r.group))
            && Finish(s, g.(plan := Some(PlanFor(s, r, g, trial.group))), c, r, REBALANCE_PLANNED).outcome ==
               REBALANCE_PLANNED
  {
    hide Finish, Refresh, LifecycleAllows, StepOk, Loose, Inv, CheckTargets, TargetChanges, TargetContext, Retargeted,
         PlanFor, PayloadOf;
    ShapedSpecsListed(r.members);
    FreshPlanOk(s, r, g);
    TrialOk(s, r.authority, g, r.members);
    var trial := Refresh(Retargeted(g, r.members), TargetContext(s, r.authority, g, r.members),
                         s.limits.maxHistory).group;
    FinishOk(s, g, g.(plan := Some(PlanFor(s, r, g, trial))),
             ContextFor(s, r.authority, ChangeReason.REVALIDATION, PLAN_REBALANCE), r, REBALANCE_PLANNED);
  }

  lemma PlanningOk(s: State, r: Request, up: Upstream)
    requires Inv(s) && r.PlanRebalance?
    ensures StepOk(s, Planning(s, r, up).state, Some(r.group))
    ensures Planning(s, r, up).outcome != REBALANCE_PLANNED ==> StepOk(s, Planning(s, r, up).state, None)
  {
    hide Preamble, Finish, Refresh, LifecycleAllows, StepOk, GroupOk, Loose, Inv, CheckPlanRequest, TargetContext,
         Retargeted, PlanFor, ContextFor, ChurnOf, EntriesOk, DeclaredIds;
    Unchanged(s);
    UnchangedFor(s, r.group);
    if Preamble(s, r, PLAN_REBALANCE).None? {
      Ready(s, r, PLAN_REBALANCE);
      var g := s.groups[r.group];
      if CheckPlanRequest(s, g, r.members, up).None? {
        PlanningFinish(s, r, up, g);
      }
    }
  }

  lemma UnchangedFor(s: State, id: Id)
    requires Inv(s)
    ensures StepOk(s, s, Some(id))
  {
    hide Inv, Advances;
    Unchanged(s);
  }

  lemma CommitReady(g: Group, limits: Limits)
    requires Loose(g, limits) && g.plan.Some?
    ensures var target := g.plan.value.targetMembers;
            && TargetOk(target) && |target| <= g.bucketCount && |target| <= limits.maxMembersPerGroup
            && Loose(Retargeted(g.(plan := None), target), limits)
            && |DeclaredIds(Retargeted(g.(plan := None), target).members)| == |target|
            && Advances(g, Retargeted(g.(plan := None), target))
  {
    hide ApplyTarget, Rebalanced;
    RetargetedLoose(g.(plan := None), g.plan.value.targetMembers, limits);
  }

  lemma CommitOk(s: State, r: Request)
    requires Inv(s) && r.CommitRebalance?
    ensures StepOk(s, Commit(s, r).state, None)
  {
    hide Preamble, Finish, Refresh, LifecycleAllows, StepOk, GroupOk, Loose, Inv, ApplyTarget;
    Unchanged(s);
    if Preamble(s, r, COMMIT_REBALANCE).None? {
      Ready(s, r, COMMIT_REBALANCE);
      var g := s.groups[r.group];
      if CheckPlan(g, r.plan).None? && CheckPlanCurrent(g).None? {
        CommitReady(g, s.limits);
        FinishOk(s, g, Retargeted(g.(plan := None), g.plan.value.targetMembers),
                 ContextFor(s, r.authority, ChangeReason.REBALANCE_COMMIT, COMMIT_REBALANCE), r, REBALANCED);
      }
    }
  }

  lemma PlanDropped(g: Group, limits: Limits)
    requires Loose(g, limits)
    ensures Loose(g.(plan := None), limits) && Advances(g, g.(plan := None))
  {
  }

  lemma AbortOk(s: State, r: Request)
    requires Inv(s) && r.AbortRebalance?
    ensures StepOk(s, Abort(s, r).state, None)
  {
    hide Preamble, Finish, Refresh, LifecycleAllows, StepOk, GroupOk, Loose, Inv;
    Unchanged(s);
    if Preamble(s, r, ABORT_REBALANCE).None? {
      Ready(s, r, ABORT_REBALANCE);
      var g := s.groups[r.group];
      if CheckPlan(g, r.plan).None? {
        PlanDropped(g, s.limits);
        FinishOk(s, g, g.(plan := None),
                 ContextFor(s, r.authority, ChangeReason.PLAN_ABORTED, ABORT_REBALANCE), r, REBALANCE_ABORTED);
      }
    }
  }

  // ----- Administrative ends -----

  /** The fields that a change before its refresh leaves alone. */
  ghost predicate SameLedger(g: Group, g': Group) {
    && g'.id == g.id && g'.key == g.key && g'.bucketCount == g.bucketCount && g'.minActive == g.minActive
    && g'.owners == g.owners && g'.history == g.history && g'.declaredDigest == g.declaredDigest
    && g'.membershipGen == g.membershipGen && g'.assignmentGen == g.assignmentGen && g.authorityGen <= g'.authorityGen
    && (g'.plan == g.plan || g'.plan.None?)
  }

  lemma LedgerKeepsLoose(g: Group, g': Group, limits: Limits)
    requires Loose(g, limits) && SameLedger(g, g') && SamePlaces(g.members, g'.members)
    requires forall i :: 0 <= i < |g.members| && g'.members[i].record.declared ==> g.members[i].record.declared
    ensures Loose(g', limits) && |DeclaredIds(g'.members)| <= |DeclaredIds(g.members)| && Advances(g, g')
  {
    hide EntriesOk, Rebalanced, TargetOk;
    SamePlacesKeepsEntries(g.members, g'.members);
    DeclaredShrinks(g.members, g'.members);
  }

  /** An administrative end whose changed group keeps its ledger goes through. */
  lemma EndOk(s: State, g: Group, g': Group, c: Context, r: Request, success: Outcome)
    requires Inv(s) && g.id in s.groups && s.groups[g.id] == g && Loose(g, s.limits)
    requires SameLedger(g, g') && SamePlaces(g.members, g'.members) && g'.lifecycle == g.lifecycle
    requires forall i :: 0 <= i < |g.members| && g'.members[i].record.declared ==> g.members[i].record.declared
    requires |DeclaredIds(g.members)| <= s.limits.maxMembersPerGroup
    requires LifecycleAllows(g.lifecycle, c.event) && c.recompute && !c.event.PLAN_REBALANCE?
    requires EndsGroup(c.event) ==> NobodyEligible(g'.members)
    requires g'.successor != NIL ==> c.event.SUPERSEDE? || c.event.RETIRE?
    ensures StepOk(s, Finish(s, g', c, r, success).state, None) && Finish(s, g', c, r, success).outcome == success
  {
    hide Finish, LifecycleAllows, Loose, Inv, StepOk, Advances;
    LedgerKeepsLoose(g, g', s.limits);
    FinishOk(s, g, g', c, r, success);
  }

  lemma WithdrawOk(s: State, r: Request)
    requires Inv(s) && r.WithdrawGroup?
    ensures StepOk(s, Withdraw(s, r).state, None)
  {
    hide Preamble, Finish, LifecycleAllows, StepOk, GroupOk, Loose, Inv;
    Unchanged(s);
    var completing := r.group in s.groups && s.groups[r.group].lifecycle.Withdrawing?;
    var event := if completing then COMPLETE_WITHDRAW else WITHDRAW;
    if Preamble(s, r, event).None? {
      Ready(s, r, event);
      var g := s.groups[r.group];
      var ended := if completing then Retiring(g.(members := MapEntries(Undeclared, g.members))) else g;
      EndOk(s, g, ended, ContextFor(s, r.authority, ADMIN_WITHDRAW, event), r, WITHDRAWN_OK);
    }
  }

  lemma RevokeOk(s: State, r: Request)
    requires Inv(s) && r.RevokeGroup?
    ensures StepOk(s, Revoke(s, r).state, None)
  {
    hide Preamble, Finish, LifecycleAllows, StepOk, GroupOk, Loose, Inv;
    Unchanged(s);
    if Preamble(s, r, REVOKE).None? {
      Ready(s, r, REVOKE);
      var g := s.groups[r.group];
      EndOk(s, g, Retiring(g.(members := MapEntries(Disabled, g.members))),
            ContextFor(s, r.authority, ADMIN_REVOKE, REVOKE), r, REVOKED_OK);
    }
  }

  lemma RetireOk(s: State, r: Request)
    requires Inv(s) && r.RetireGroup?
    ensures StepOk(s, Retire(s, r).state, None)
  {
    hide Preamble, Finish, LifecycleAllows, StepOk, GroupOk, Loose, Inv;
    Unchanged(s);
    if Preamble(s, r, RETIRE).None? {
      Ready(s, r, RETIRE);
      var g := s.groups[r.group];
      EndOk(s, g, Retiring(g.(members := MapEntries(RetiredEntry, g.members), plan := None)),
            ContextFor(s, r.authority, ADMIN_WITHDRAW, RETIRE), r, RETIRED_OK);
    }
  }

  /** Naming a predecessor concerns nothing the invariant speaks of. */
  lemma PredecessorOk(g: Group, predecessor: Id, limits: Limits)
    requires GroupOk(g, limits)
    ensures GroupOk(g.(predecessor := predecessor), limits) && Advances(g, g.(predecessor := predecessor))
  {
    hide EntriesOk, Settled, Derived, Rebalanced;
  }

  lemma StepOkTransitive(a: State, b: State, c: State)
    requires StepOk(a, b, None) && StepOk(b, c, None)
    ensures StepOk(a, c, None)
  {
    hide Inv, Advances;
    forall id | id in a.groups ensures Follows(a.groups[id], c.groups[id]) && Advances(a.groups[id], c.groups[id]) {
      AdvancesTransitive(a.groups[id], b.groups[id], c.groups[id]);
    }
  }

  lemma LinkedOk(s: State, successor: Id, predecessor: Id)
    requires Inv(s) && successor in s.groups && successor != predecessor && predecessor in s.groups
    ensures var linked := Stored(s, s.groups[successor].(predecessor := predecessor));
            StepOk(s, linked, None) && linked.groups[predecessor] == s.groups[predecessor]
  {
    var g := s.groups[successor];
    assert g.id == successor && GroupOk(g, s.limits);
    hide GroupOk, Inv, StepOk, Advances;
    PredecessorOk(g, predecessor, s.limits);
    StoreOk(s, Stored(s, g.(predecessor := predecessor)), g, g.(predecessor := predecessor));
  }

  lemma SupersedeOk(s: State, r: Request)
    requires Inv(s) && r.SupersedeGroup?
    ensures StepOk(s, Supersede(s, r).state, None)
  {
    hide Preamble, Finish, LifecycleAllows, GroupOk, Loose, Inv, Follows, StepOk;
    Unchanged(s);
    if Preamble(s, r, SUPERSEDE).None? {
      Ready(s, r, SUPERSEDE);
      var g := s.groups[r.group];
      if r.successor in s.groups && r.successor != g.id && r.successor != NIL {
        LinkedOk(s, r.successor, g.id);
        SupersedeFinish(s, r, g);
      }
    }
  }

  lemma SupersedeFinish(s: State, r: Request, g: Group)
    requires r.SupersedeGroup? && r.successor in s.groups && g.id in s.groups && s.groups[g.id] == g
    requires var linked := Stored(s, s.groups[r.successor].(predecessor := g.id));
             StepOk(s, linked, None) && linked.groups[g.id] == g
    requires Loose(g, s.limits) && |DeclaredIds(g.members)| <= s.limits.maxMembersPerGroup
    requires LifecycleAllows(g.lifecycle, SUPERSEDE)
    ensures var linked := Stored(s, s.groups[r.successor].(predecessor := g.id));
            var ended := Retiring(g.(members := MapEntries(Disabled, g.members), plan := None,
                                     successor := r.successor));
            var c := ContextFor(s, r.authority, SUPERSESSION, SUPERSEDE);
            StepOk(s, Finish(linked, ended, c, r, SUPERSEDED_OK).state, None)
  {
    hide Finish, LifecycleAllows, GroupOk, Loose, Inv, Follows, Advances;
    var linked := Stored(s, s.groups[r.successor].(predecessor := g.id));
    var ended := Retiring(g.(members := MapEntries(Disabled, g.members), plan := None, successor := r.successor));
    var c := ContextFor(s, r.authority, SUPERSESSION, SUPERSEDE);
    EndOk(linked, g, ended, c, r, SUPERSEDED_OK);
    StepOkTransitive(s, linked, Finish(linked, ended, c, r, SUPERSEDED_OK).state);
  }

  // ----- Revalidation -----

  /** Changes that touch neither places, flags, states nor authority. */
  ghost predicate Tweaked(g: Group, g': Group) {
    && SameLedger(g, g') && g'.plan == g.plan && g'.authorityGen == g.authorityGen && g'.lifecycle == g.lifecycle
    && g'.successor == g.successor && g'.source == g.source && g'.multipathSet == g.multipathSet
    && g'.publisher == g.publisher
    && g'.currentness.AuthorityCurrent() == g.currentness.AuthorityCurrent()
    && SamePlaces(g.members, g'.members)
    && forall i :: 0 <= i < |g.members| ==>
         var e, e' := g.members[i], g'.members[i];
         e'.record.declared == e.record.declared && e'.record.enabled == e.record.enabled &&
         e'.record.state == e.record.state && e'.UpstreamCurrent() == e.UpstreamCurrent()
  }

  lemma TweakedLists(g: Group, g': Group)
    requires Tweaked(g, g')
    ensures ActiveIds(g'.members) == ActiveIds(g.members) && DeclaredIds(g'.members) == DeclaredIds(g.members)
    ensures InputsOf(g') == InputsOf(g) && Derived(g.members) ==> Derived(g'.members)
  {
    SameActive(g.members, g'.members);
    SameDeclared(g.members, g'.members);
    if Derived(g.members) {
      forall i | 0 <= i < |g'.members| ensures DeriveEntry(g'.members[i]) == g'.members[i] {
        assert DeriveEntry(g.members[i]) == g.members[i];
      }
    }
  }

  lemma TweakedOk(g: Group, g': Group, limits: Limits)
    requires GroupOk(g, limits) && Tweaked(g, g')
    ensures GroupOk(g', limits) && Advances(g, g')
  {
    TweakedLists(g, g');
    LedgerKeepsLoose(g, g', limits);
    SamePlacesKeepsEntries(g.members, g'.members);
    hide EntriesOk, Loose, Settled, DeriveLifecycle;
  }

  lemma TweakedTransitive(a: Group, b: Group, c: Group)
    requires Tweaked(a, b) && Tweaked(b, c)
    ensures Tweaked(a, c)
  {
  }

  lemma {:induction false} UpdatesTweak(up: Upstream, g: Group, updates: seq<MemberRevalidation>, i: nat)
    requires i <= |updates|
    ensures Tweaked(g, ApplyUpdates(up, g, updates, i).0)
    decreases |updates| - i
  {
    hide ValidateFor;
    if i < |updates| {
      var k := Locate(g.members, updates[i].member);
      if k < |g.members| {
        var spec := UpdatedSpec(g.members[k], updates[i]);
        var g' := g.(members := g.members[k := Reproved(g.members[k], spec)]);
        UpdatesTweak(up, g', updates, i + 1);
        TweakedTransitive(g, g', ApplyUpdates(up, g', updates, i + 1).0);
      }
    }
  }

  lemma AdoptTweaks(g: Group, claim: CostClaim)
    ensures Tweaked(g, Adopt(g, claim))
  {
  }

  lemma RestoredLedger(up: Upstream, g: Group, generation: Option<U64>)
    ensures var g' := Restored(up, WithMultipath(g, generation));
            && SameLedger(g, g') && SamePlaces(g.members, g'.members) && g'.lifecycle == g.lifecycle
            && g'.successor == g.successor && g'.plan == g.plan
            && forall i :: 0 <= i < |g.members| ==> g'.members[i].record.declared == g.members[i].record.declared
  {
  }

  /** The group as the updates leave it, before observation. */
  function Updated(s: State, r: Request, up: Upstream): Group
    requires r.Revalidate? && r.group in s.groups
  {
    var g := s.groups[r.group];
    var claims := Claims(r.updates);
    ApplyUpdates(up, if AdoptionNeeded(g, claims) then Adopt(g, claims[0]) else g, r.updates, 0).0
  }

  lemma UpdatedTweaks(s: State, r: Request, up: Upstream)
    requires r.Revalidate? && r.group in s.groups
    ensures Tweaked(s.groups[r.group], Updated(s, r, up))
  {
    hide ApplyUpdates, Tweaked;
    var g := s.groups[r.group];
    var claims := Claims(r.updates);
    var adopted := if AdoptionNeeded(g, claims) then Adopt(g, claims[0]) else g;
    UpdatesTweak(up, adopted, r.updates, 0);
    if AdoptionNeeded(g, claims) {
      AdoptTweaks(g, claims[0]);
      TweakedTransitive(g, adopted, Updated(s, r, up));
    }
  }

  lemma RevalidationOk(s: State, r: Request, up: Upstream)
    requires Inv(s) && r.Revalidate?
    ensures StepOk(s, Revalidation(s, r, up).state, None)
  {
    hide Preamble, Finish, LifecycleAllows, GroupOk, Loose, Inv, StepOk, ApplyUpdates, Tweaked, Restored, WithMultipath,
         Adopt, CheckAdoption, CheckMultipathUpdate, Advances, AdoptionNeeded, Claims;
    Unchanged(s);
    if Preamble(s, r, GroupEvent.REVALIDATE).None? {
      Ready(s, r, GroupEvent.REVALIDATE);
      UpdatedTweaks(s, r, up);
      var g, updated := s.groups[r.group], Updated(s, r, up);
      TweakedOk(g, updated, s.limits);
      TweakedIdentity(g, updated);
      StoreOk(s, Stored(s, updated), g, updated);
      RevalidationFinish(s, r, up, g, updated);
    }
  }

  lemma TweakedIdentity(g: Group, g': Group)
    requires Tweaked(g, g')
    ensures g'.id == g.id && g'.plan == g.plan && g'.lifecycle == g.lifecycle && g'.successor == g.successor
    ensures DeclaredIds(g'.members) == DeclaredIds(g.members)
  {
    TweakedLists(g, g');
  }

  lemma RevalidationFinish(s: State, r: Request, up: Upstream, g: Group, updated: Group)
    requires Inv(s) && r.Revalidate? && g.id in s.groups && s.groups[g.id] == g && g.successor == NIL
    requires GroupOk(updated, s.limits) && Advances(g, updated) && updated.id == g.id && updated.plan == g.plan
    requires updated.lifecycle == g.lifecycle && updated.successor == g.successor
    requires LifecycleAllows(g.lifecycle, GroupEvent.REVALIDATE)
    ensures var c := ContextFor(s, r.authority, ChangeReason.REVALIDATION, GroupEvent.REVALIDATE);
            StepOk(s, Finish(s, Restored(up, WithMultipath(updated, r.newMultipathGen)), c, r, REVALIDATED).state, None)
  {
    hide Finish, LifecycleAllows, Inv, StepOk, Restored, WithMultipath;
    var c := ContextFor(s, r.authority, ChangeReason.REVALIDATION, GroupEvent.REVALIDATE);
    var g' := Restored(up, WithMultipath(updated, r.newMultipathGen));
    DeclaredBound(updated, s.limits);
    RestoredLedger(up, updated, r.newMultipathGen);
    hide GroupOk, Loose, EndsGroup;
    LedgerKeepsLoose(updated, g', s.limits);
    AdvancesTransitive(g, updated, g');
    FinishOk(s, g, g', c, r, REVALIDATED);
  }

  // ----- Creation -----

  lemma {:induction false} NewMembersFacts(up: Upstream, r: Request, i: nat)
    requires r.CreateGroup? && i <= |r.members| && CheckNewMembers(up, r, i).None?
    ensures forall k :: i <= k < |r.members| ==>
              r.members[k].WellFormed() && IndexOf(SpecIds(r.members), r.members[k].member) >= k
    decreases |r.members| - i
  {
    if i < |r.members| { NewMembersFacts(up, r, i + 1); }
  }

  lemma NewMembersListed(up: Upstream, r: Request)
    requires r.CreateGroup? && CheckNewMembers(up, r, 0).None?
    ensures Listed(SpecIds(r.members))
  {
    NewMembersFacts(up, r, 0);
    forall i, j | 0 <= i < j < |r.members| ensures SpecIds(r.members)[i] != SpecIds(r.members)[j] {
      IndexOfFirst(SpecIds(r.members), r.members[j].member);
    }
  }

  /** The group a creation starts from can be finished. */
  lemma NewGroupLoose(s: State, r: Request)
    requires r.CreateGroup? && Listed(SpecIds(r.members)) && 0 < |r.members| <= r.bucketCount
    requires 0 < r.bucketCount <= s.limits.maxBuckets && 0 < r.minActive <= s.limits.maxMembersPerGroup
    ensures var g := NewGroup(s, r);
            Loose(g, s.limits) && |g.members| == |r.members| && |DeclaredIds(g.members)| <= |r.members|
  {
    hide PlanOk;
    var raw := FreshEntries(r.members);
    assert MemberIds(raw) == SpecIds(r.members);
    SortedEntriesOk(raw);
    SortedDeclaredCount(raw);
    AllDeclaredCount(raw);
    NoPlan(NewGroup(s, r));
  }

  lemma NoPlan(g: Group)
    requires g.plan.None?
    ensures PlanOk(g)
  {
  }

  lemma AddGroupOk(s: State, s': State, g: Group)
    requires Inv(s) && g.id !in s.groups && GroupOk(g, s.limits)
    requires s'.groups == s.groups[g.id := g] && s'.limits == s.limits
    ensures StepOk(s, s', None)
  {
    hide GroupOk, Advances, Follows;
    forall id | id in s.groups ensures Follows(s.groups[id], s'.groups[id]) && Advances(s.groups[id], s'.groups[id]) {
      AdvancesReflexive(s.groups[id]);
    }
  }

  lemma CreatedGroupOk(s: State, r: Request)
    requires s.limits.Coherent() && r.CreateGroup? && Listed(SpecIds(r.members))
    requires 0 < |r.members| <= r.bucketCount && |r.members| <= s.limits.maxMembersPerGroup
    requires 0 < r.bucketCount <= s.limits.maxBuckets && 0 < r.minActive <= s.limits.maxMembersPerGroup
    ensures var c := ContextFor(s, r.authority, ChangeReason.CREATE, GroupEvent.ADD_MEMBER);
            var f := Refresh(NewGroup(s, r), c, s.limits.maxHistory);
            && f.ok && GroupOk(f.group, s.limits) && f.group.id == r.group
            && FinishedFrom(NewGroup(s, r), s.limits, f.group) && RefreshedFrom(NewGroup(s, r), c, s.limits, f.group)
  {
    hide Refresh, Loose, GroupOk, Advances, Rebalanced, Settled;
    var c := ContextFor(s, r.authority, ChangeReason.CREATE, GroupEvent.ADD_MEMBER);
    NewGroupLoose(s, r);
    RefreshedIsOk(NewGroup(s, r), c, s.limits);
    RefreshFacts(NewGroup(s, r), c, s.limits);
    var f := Refresh(NewGroup(s, r), c, s.limits.maxHistory);
    NothingToEvict(f.group, s.limits);
    AdvancesId(NewGroup(s, r), f.group);
  }

  lemma NothingToEvict(g: Group, limits: Limits)
    requires |g.members| <= limits.maxMembersPerGroup
    ensures Evicted(g, limits) == g
  {
  }

  lemma AdvancesId(g: Group, g': Group)
    requires Advances(g, g')
    ensures g'.id == g.id
  {
  }

  lemma CreateOk(s: State, r: Request, up: Upstream)
    requires Inv(s) && r.CreateGroup?
    ensures StepOk(s, Create(s, r, up).state, None)
  {
    hide Authorize, HandleAttempt, Refresh, StepOk, GroupOk, RememberAttempt, Loose, RefreshedFrom, FinishedFrom,
         CheckNewMembers, KeyTaken, NewGroup, GroupsOk;
    Unchanged(s);
    if CheckCreation(s, r).None? && CheckNewMembers(up, r, 0).None? {
      NewMembersListed(up, r);
      CreatedGroupOk(s, r);
      var c := ContextFor(s, r.authority, ChangeReason.CREATE, GroupEvent.ADD_MEMBER);
      var f := Refresh(NewGroup(s, r), c, s.limits.maxHistory);
      var entry := AttemptEntry(PayloadOf(r), CREATED, r.group);
      AttemptsOnly(Stored(s, f.group), r.authority.attempt, entry);
      AddGroupOk(s, RememberAttempt(Stored(s, f.group), r.authority.attempt, entry), f.group);
    }
  }

  // ----- Notices -----

  /** A group as a notice leaves it. */
  ghost predicate NoticedFrom(g: Group, limits: Limits, r: Group) {
    GroupOk(r, limits) && Advances(g, r) && r.plan == g.plan
  }

  /** A refresh after an invalidation of an open group, with no one declared or undeclared. */
  lemma InvalidatedOk(g: Group, g': Group, c: Context, limits: Limits)
    requires GroupOk(g, limits) && !IsClosed(g.lifecycle) && SameLedger(g, g') && g'.plan == g.plan
    requires SamePlaces(g.members, g'.members) && g'.lifecycle == g.lifecycle && g'.successor == g.successor
    requires forall i :: 0 <= i < |g.members| ==> g'.members[i].record.declared == g.members[i].record.declared
    requires IsInvalidation(c.event) && c.recompute
    ensures NoticedFrom(g, limits, Refresh(g', c, limits.maxHistory).group)
  {
    OpenAcceptsInvalidation(g.lifecycle, c.event);
    DeclaredBound(g, limits);
    hide Refresh, LifecycleAllows, Evict;
    LedgerKeepsLoose(g, g', limits);
    hide GroupOk, Loose, EndsGroup;
    RefreshedIsOk(g', c, limits);
    RefreshFacts(g', c, limits);
    var r := Refresh(g', c, limits.maxHistory).group;
    SizeAfterRefresh(g', c, limits, r);
    NothingToEvict(r, limits);
    AdvancesTransitive(g, g', r);
  }

  lemma SizeAfterRefresh(g: Group, c: Context, limits: Limits, r: Group)
    requires RefreshedFrom(g, c, limits, r)
    ensures |r.members| == |g.members|
  {
  }

  lemma NoticePathOk(g: Group, up: Upstream, path: Id, c: Context, limits: Limits)
    requires GroupOk(g, limits) && !IsClosed(g.lifecycle) && c.event.INVALIDATE_PATH? && c.recompute
    ensures NoticedFrom(g, limits, NoticePath(up, path, g, c, limits.maxHistory).group)
  {
    hide GroupOk, Refresh, Advances, AnyPathStale;
    var ms := MapEntries(e => NoticePathEntry(up, path, e), g.members);
    var observed := g.(members := ms, currentness := g.currentness.(stalePath := AnyPathStale(ms)));
    if (exists i :: 0 <= i < |ms| && ms[i].pathCurrent != g.members[i].pathCurrent) ||
       AnyPathStale(ms) != g.currentness.stalePath {
      InvalidatedOk(g, observed, c, limits);
    } else {
      TweakedOk(g, observed, limits);
    }
  }

  lemma NoticeMultipathOk(g: Group, up: Upstream, c: Context, limits: Limits)
    requires GroupOk(g, limits) && !IsClosed(g.lifecycle) && c.event.INVALIDATE_MULTIPATH? && c.recompute
    ensures NoticedFrom(g, limits, NoticeMultipath(up, g, c, limits.maxHistory).group)
  {
    hide GroupOk, Refresh, Advances, MultipathIsStale;
    AdvancesReflexive(g);
    var stale := MultipathIsStale(up, g);
    if stale != g.currentness.staleMultipath {
      var ms := if stale then MapEntries(MultipathStale, g.members) else MapEntries(MultipathProven, g.members);
      InvalidatedOk(g, g.(members := ms, currentness := g.currentness.(staleMultipath := stale)), c, limits);
    }
  }

  lemma NoticeCostOk(g: Group, generation: U64, c: Context, limits: Limits)
    requires GroupOk(g, limits) && !IsClosed(g.lifecycle) && c.event.INVALIDATE_COST? && c.recompute
    ensures NoticedFrom(g, limits, NoticeCost(generation, g, c, limits.maxHistory).group)
  {
    hide GroupOk, Refresh, Advances;
    AdvancesReflexive(g);
    var stale := g.semantics.binding.policyGeneration != generation;
    if stale != g.currentness.staleCost {
      var ms := if stale then MapEntries(CostStale, g.members) else MapEntries(CostProven, g.members);
      InvalidatedOk(g, g.(members := ms, currentness := g.currentness.(staleCost := stale)), c, limits);
    }
  }

  lemma NoticeGroupOk(s: State, up: Upstream, n: Notice, g: Group)
    requires GroupOk(g, s.limits)
    ensures NoticedFrom(g, s.limits, NoticeGroup(s, up, n, g).group)
  {
    hide GroupOk, NoticePath, NoticeMultipath, NoticeCost, Advances, DependsOn;
    AdvancesReflexive(g);
    if !IsClosed(g.lifecycle) {
      match n
      case PathNotice(_, p, b, path) =>
        NoticePathOk(g, up, path, NoticeContext(PATH_INVALIDATION, INVALIDATE_PATH, p, b, s.epoch), s.limits);
      case MultipathNotice(_, p, b, _) =>
        NoticeMultipathOk(g, up, NoticeContext(MULTIPATH_INVALIDATION, INVALIDATE_MULTIPATH, p, b, s.epoch), s.limits);
      case CostNotice(_, p, b, _, generation) =>
        NoticeCostOk(g, generation, NoticeContext(COST_INVALIDATION, INVALIDATE_COST, p, b, s.epoch), s.limits);
    }
  }

  /** Changing every group by itself, each to a good successor, is a good step. */
  lemma PointwiseOk(s: State, s': State)
    requires Inv(s) && s'.limits == s.limits && s'.groups.Keys == s.groups.Keys
    requires forall id :: id in s.groups ==>
               GroupOk(s'.groups[id], s.limits) && Follows(s.groups[id], s'.groups[id])
    ensures StepOk(s, s', None)
  {
    hide GroupOk;
  }

  lemma NotifyOk(s: State, n: Notice, up: Upstream)
    requires Inv(s)
    ensures StepOk(s, Notify(s, n, up).state, None)
  {
    hide GroupOk, NoticeGroup, Advances, AuthorizeUpstream, StepOk;
    Unchanged(s);
    if Notify(s, n, up).state.groups == (map id | id in s.groups :: NoticeGroup(s, up, n, s.groups[id]).group) {
      forall id | id in s.groups
        ensures var g' := Notify(s, n, up).state.groups[id];
                GroupOk(g', s.limits) && Follows(s.groups[id], g')
      {
        NoticeGroupOk(s, up, n, s.groups[id]);
      }
      PointwiseOk(s, Notify(s, n, up).state);
    }
  }

  // ----- Publishers and epochs -----

  lemma RegisterOk(s: State, epoch: nat, reg: Registration)
    requires Inv(s)
    ensures StepOk(s, Register(s, epoch, reg).state, None)
  {
    hide StepOk, Inv;
    SameGroups(s, Register(s, epoch, reg).state);
  }

  lemma UnprovenNobodyActive(ms: seq<MemberEntry>)
    ensures ActiveIds(MapEntries(DeriveEntry, MapEntries(Unproven, ms))) == []
  {
    NobodyActive(MapEntries(DeriveEntry, MapEntries(Unproven, ms)));
  }

  /** A group whose proofs lapsed: nobody is active, the plan is gone, the map and its generation stay. */
  ghost predicate LapsedFrom(g: Group, limits: Limits, r: Group) {
    && GroupOk(r, limits) && Advances(g, r) && r.plan.None? && ActiveIds(r.members) == []
    && r.owners == g.owners && r.assignmentGen == g.assignmentGen
  }

  /** A legal invalidation leads an open group to the lifecycle derived of it. */
  lemma InvalidationDerives(l: GroupLifecycle, e: GroupEvent, inputs: LifecycleInputs)
    requires !IsClosed(l) && IsInvalidation(e)
    ensures LifecycleAllows(l, e) && ApplyGroupEvent(l, e, inputs) == Some(DeriveLifecycle(inputs))
  {
  }

  lemma ClosedRefusesInvalidation(l: GroupLifecycle, e: GroupEvent)
    requires IsClosed(l) && IsInvalidation(e)
    ensures !LifecycleAllows(l, e)
  {
  }

  lemma DeriveStaysOpen(inputs: LifecycleInputs)
    ensures !IsClosed(DeriveLifecycle(inputs))
  {
  }

  lemma RefreshedMembers(g: Group, c: Context, limits: Limits, r: Group)
    requires RefreshedFrom(g, c, limits, r)
    ensures SamePlaces(g.members, r.members) && r.members == MapEntries(DeriveEntry, g.members) && Advances(g, r)
  {
    DeriveIdempotent(g.members);
  }

  lemma OkIsLoose(g: Group, limits: Limits)
    requires GroupOk(g, limits)
    ensures Loose(g, limits) && EntriesOk(g.members)
  {
  }

  /** The refresh of a lapsed group, whatever its lifecycle. */
  lemma LapsedOk(g: Group, g': Group, c: Context, limits: Limits)
    requires GroupOk(g, limits) && SameLedger(g, g') && g'.plan.None? && g'.members == MapEntries(Unproven, g.members)
    requires g'.lifecycle == g.lifecycle && g'.successor == g.successor
    requires c.event.INVALIDATE_EPOCH? && !c.recompute && !c.bind
    ensures LapsedFrom(g, limits, Refresh(g', c, limits.maxHistory).group)
  {
    hide GroupOk, Loose, Refresh, LifecycleAllows, ApplyGroupEvent, RefreshedFrom, Advances, DeriveLifecycle, EntriesOk,
         IsClosed;
    OkIsLoose(g, limits);
    UnprovenNobodyActive(g.members);
    LedgerKeepsLoose(g, g', limits);
    var r := Refresh(g', c, limits.maxHistory).group;
    if IsClosed(g.lifecycle) {
      ClosedRefusesInvalidation(g.lifecycle, c.event);
      RefusedRefreshFacts(g', c, limits);
    } else {
      InvalidationDerives(g.lifecycle, c.event, InputsOf(r));
      DeriveStaysOpen(InputsOf(r));
      RefreshFacts(g', c, limits);
    }
    RefreshedMembers(g', c, limits, r);
    SamePlacesKeepsEntries(g.members, r.members);
    AdvancesTransitive(g, g', r);
    LapsedGroupOk(g, g', c, limits, r);
  }

  lemma LapsedGroupOk(g: Group, g': Group, c: Context, limits: Limits, r: Group)
    requires GroupOk(g, limits) && RefreshedFrom(g', c, limits, r) && !c.recompute && !c.bind
    requires g'.owners == g.owners && g'.plan.None? && |g'.members| == |g.members| && g'.assignmentGen == g.assignmentGen
    requires MemberIds(r.members) == MemberIds(g.members) && ActiveIds(r.members) == [] && g'.successor == g.successor
    requires if IsClosed(g.lifecycle) then r.lifecycle == g.lifecycle
             else !IsClosed(r.lifecycle) && r.lifecycle == DeriveLifecycle(InputsOf(r))
    ensures GroupOk(r, limits) && r.plan.None? && r.owners == g.owners && r.assignmentGen == g.assignmentGen
  {
    hide Loose, EntriesOk, Settled, Derived, Rebalanced;
  }

  lemma FencedGroupOk(g: Group, publisher: Id, boot: Id, epoch: nat, limits: Limits)
    requires GroupOk(g, limits)
    ensures LapsedFrom(g, limits, FencedGroup(g, publisher, boot, epoch, limits.maxHistory))
  {
    hide GroupOk, Refresh, LapsedFrom;
    var lapsed := g.(currentness := g.currentness.(fenced := true, revalidation := true), plan := None,
                     members := MapEntries(Unproven, g.members));
    LapsedOk(g, lapsed, LapseContext(g, EPOCH_INVALIDATION, publisher, boot, epoch), limits);
  }

  lemma EpochGroupOk(g: Group, epoch: nat, limits: Limits)
    requires GroupOk(g, limits)
    ensures EpochGroup(g, epoch, limits.maxHistory) == g ||
            LapsedFrom(g, limits, EpochGroup(g, epoch, limits.maxHistory))
  {
    hide GroupOk, Refresh, LapsedFrom;
    var lapsed := g.(authorityGen := g.authorityGen + 1, plan := None, members := MapEntries(Unproven, g.members),
                     currentness := g.currentness.(staleEpoch := true, revalidation := true));
    LapsedOk(g, lapsed, LapseContext(g, EPOCH_INVALIDATION, g.publisher, g.boot, epoch), limits);
  }

  lemma UnprovenDeclared(g: Group, limits: Limits)
    requires GroupOk(g, limits)
    ensures DeclaredIds(MapEntries(Unproven, g.members)) == g.declaredDigest
  {
    SameDeclared(g.members, MapEntries(Unproven, g.members));
  }

  lemma RecoveredGroupOk(g: Group, epoch: nat, limits: Limits)
    requires GroupOk(g, limits)
    ensures LapsedFrom(g, limits, RecoveredGroup(g, epoch, limits.maxHistory))
  {
    hide GroupOk, Refresh, LapsedFrom;
    UnprovenDeclared(g, limits);
    var members := MapEntries(Unproven, g.members);
    var lapsed := g.(members := members, currentness := g.currentness.(staleEpoch := true, revalidation := true),
                     plan := None, authorityGen := g.authorityGen + 1, declaredDigest := DeclaredIds(members));
    LapsedOk(g, lapsed, LapseContext(g, RECOVERY, g.publisher, g.boot, epoch), limits);
  }

  lemma FenceOk(s: State, publisher: Id, boot: Id)
    requires Inv(s)
    ensures StepOk(s, Fence(s, publisher, boot).state, None)
  {
    hide GroupOk, FencedGroup, Advances, StepOk;
    Unchanged(s);
    var s' := Fence(s, publisher, boot).state;
    if s'.groups.Keys == s.groups.Keys {
      forall id | id in s.groups ensures GroupOk(s'.groups[id], s.limits) && Follows(s.groups[id], s'.groups[id]) {
        AdvancesReflexive(s.groups[id]);
        FencedGroupOk(s.groups[id], publisher, boot, s.epoch, s.limits);
      }
      PointwiseOk(s, s');
    }
  }

  lemma SetEpochOk(s: State, epoch: nat)
    requires Inv(s)
    ensures StepOk(s, SetEpoch(s, epoch).state, None)
  {
    hide GroupOk, EpochGroup, Advances, StepOk;
    Unchanged(s);
    var s' := SetEpoch(s, epoch).state;
    if epoch > s.epoch {
      forall id | id in s.groups ensures GroupOk(s'.groups[id], s.limits) && Follows(s.groups[id], s'.groups[id]) {
        AdvancesReflexive(s.groups[id]);
        EpochGroupOk(s.groups[id], epoch, s.limits);
      }
      PointwiseOk(s, s');
    }
  }

  // ----- Every step -----

  /** The group a step may give a new plan. */
  ghost function PlannedBy(s: State, step: Step): Option<Id> {
    if step.OnRequest? && step.request.PlanRebalance? && Next(s, step).outcome == REBALANCE_PLANNED
    then Some(step.request.group) else None
  }

  lemma ServeOk(s: State, r: Request, up: Upstream)
    requires Inv(s) && !r.PlanRebalance?
    ensures StepOk(s, Serve(s, r, up).state, None)
  {
    hide StepOk, Inv, Create, Add, Remove, Enable, Apply, Revalidation, Commit, Abort, Withdraw, Revoke, Retire, Supersede;
    match r
    case CreateGroup(_, _, _, _, _, _, _, _, _, _, _, _) => CreateOk(s, r, up);
    case AddMember(_, _, _) => AddOk(s, r, up);
    case RemoveMember(_, _, _) => RemoveOk(s, r);
    case SetEnabled(_, _, _, _) => EnableOk(s, r, up);
    case ApplySet(_, _, _) => ApplyOk(s, r, up);
    case Revalidate(_, _, _, _) => RevalidationOk(s, r, up);
    case CommitRebalance(_, _, _) => CommitOk(s, r);
    case AbortRebalance(_, _, _) => AbortOk(s, r);
    case WithdrawGroup(_, _, _) => WithdrawOk(s, r);
    case RevokeGroup(_, _, _) => RevokeOk(s, r);
    case RetireGroup(_, _, _) => RetireOk(s, r);
    case SupersedeGroup(_, _, _) => SupersedeOk(s, r);
  }

  /** Every step keeps the invariant; only an accepted plan request gives a group a plan it did not have. */
  lemma NextOk(s: State, step: Step)
    requires Inv(s)
    ensures StepOk(s, Next(s, step).state, PlannedBy(s, step))
  {
    hide StepOk, Inv, Serve, Notify, Register, Fence, SetEpoch, Planning;
    match step
    case OnRequest(r, up) =>
      if r.PlanRebalance? {
        PlanningOk(s, r, up);
        assert Serve(s, r, up) == Planning(s, r, up) by { ServeIsPlanning(s, r, up); }
      } else {
        ServeOk(s, r, up);
      }
    case OnNotice(n, up) => NotifyOk(s, n, up);
    case OnRegister(e, reg) => RegisterOk(s, e, reg);
    case OnFence(p, b) => FenceOk(s, p, b);
    case OnEpoch(e) => SetEpochOk(s, e);
  }

  lemma ServeIsPlanning(s: State, r: Request, up: Upstream)
    requires r.PlanRebalance?
    ensures Serve(s, r, up) == Planning(s, r, up)
  {
    hide Planning;
  }

  /** Loading an image of groups in order gives a state in order. */
  lemma LoadOk(s: State, image: Image)
    requires s.limits.Coherent() && Inv(s) && GroupsOk(image.groups, s.limits)
    ensures Inv(Load(s, image).state)
  {
    hide GroupOk, RecoveredGroup;
    var s' := Load(s, image).state;
    if s'.groups.Keys == image.groups.Keys && Load(s, image).outcome == CREATED {
      forall id | id in image.groups ensures s'.groups[id].id == id && GroupOk(s'.groups[id], s.limits) {
        RecoveredGroupOk(image.groups[id], image.epoch, s.limits);
      }
    }
  }
}
