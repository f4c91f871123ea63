/** What an accepted change of members leaves: which entries are there afterwards, and that the others are untouched. */
module MemberEffects {
  import opened Prelude
  import opened Assignment
  import opened AssignmentProofs
  import opened Lifecycle
  import opened Records
  import opened Sorting
  import opened Groups
  import opened GroupProofs
  import opened TargetProofs
  import opened Governor
  import opened Invariants
  import opened Plans
  import opened Endings
  import opened Attempts
  import opened Refusals
  import opened Standing
  import opened Admission
  import opened Restoration
  import OrderFree
  import Lapses

  /** The entry of a member that was just admitted under this spec. */
  function Admitted(spec: MemberSpec): MemberEntry {
    MemberEntry(MemberRecord(spec.member, spec.path, spec.pathAuthority, spec.memberGeneration, spec.cost,
                             spec.provenance, spec.enabled, true, if spec.enabled then MemberActive else MemberIneligible),
                true, true, true, true)
  }

  /** What a finished change shows of the group t it started from: its entries with their states derived, all of them but
      withdrawn ones, the map rebalanced for the members that are active now, and the generations that count both. */
  ghost predicate Shows(t: Group, g': Group) {
    && (forall e :: e in g'.members ==> exists k :: 0 <= k < |t.members| && e == DeriveEntry(t.members[k]))
    && (forall k :: 0 <= k < |t.members| && t.members[k].record.declared ==> DeriveEntry(t.members[k]) in g'.members)
    && DeclaredIds(g'.members) == DeclaredIds(t.members) && StatesTold(g'.members) && Canonical(g'.members)
    && g'.owners == Rebalanced(t.owners, ActiveIds(g'.members))
    && g'.assignmentGen == t.assignmentGen + (if g'.owners == t.owners then 0 else 1)
    && g'.membershipGen == t.membershipGen + (if DeclaredIds(g'.members) == t.declaredDigest then 0 else 1)
    && g'.plan == t.plan && g'.currentness == t.currentness && g'.successor == t.successor && g'.key == t.key
  }

  lemma EvictedShows(t: Group, c: Context, limits: Limits, f: Group)
    requires RefreshedFrom(t, c, limits, f) && c.recompute && |DeclaredIds(f.members)| <= limits.maxMembersPerGroup
    ensures Shows(t, Evicted(f, limits))
  {
    hide Loose, Advances, EntriesOk, Derived, Canonical, StatesTold, Evict, Rebalanced, Settled, DeriveEntry, Listed, PlanOk;
    EntriesOfRefreshed(t, c, limits, f);
    EvictFacts(f.members, limits.maxMembersPerGroup);
    var ms := Evict(f.members, limits.maxMembersPerGroup);
    DerivedTold(ms);
    EntriesCanonical(ms);
    forall e | e in ms ensures exists k :: 0 <= k < |t.members| && e == DeriveEntry(t.members[k]) {
      EvictedElements(f.members, limits.maxMembersPerGroup, e);
      var k :| 0 <= k < |f.members| && f.members[k] == e;
    }
    forall k | 0 <= k < |t.members| && t.members[k].record.declared ensures DeriveEntry(t.members[k]) in ms {
      assert f.members[k] == DeriveEntry(t.members[k]);
      DerivedKeepsDeclared(t.members[k]);
      EvictedElements(f.members, limits.maxMembersPerGroup, f.members[k]);
    }
  }

  lemma DerivedKeepsDeclared(e: MemberEntry)
    ensures DeriveEntry(e).record.declared == e.record.declared
  {
  }

  lemma EntriesOfRefreshed(t: Group, c: Context, limits: Limits, f: Group)
    requires RefreshedFrom(t, c, limits, f)
    ensures EntriesOk(f.members) && Derived(f.members)
  {
  }

  /** A change that can be finished shows in the stored group, under the lifecycle its event leads to. */
  lemma FinishShows(s: State, g0: Group, t: Group, c: Context, r: Request, success: Outcome)
    requires Inv(s) && g0.id in s.groups && s.groups[g0.id] == g0 && Advances(g0, t) && t.id == g0.id
    requires Finishable(t, c, s.limits) && |DeclaredIds(t.members)| <= s.limits.maxMembersPerGroup
    ensures var s' := Finish(s, t, c, r, success).state;
            && s'.groups.Keys == s.groups.Keys && Shows(t, s'.groups[g0.id])
            && Some(s'.groups[g0.id].lifecycle) == ApplyGroupEvent(t.lifecycle, c.event, InputsOf(s'.groups[g0.id]))
            && forall id :: id in s.groups && id != g0.id ==> s'.groups[id] == s.groups[id]
  {
    hide Finish, Refresh, Loose, Inv, StepOk, Advances, LifecycleAllows, RefreshedFrom, ApplyGroupEvent, Shows, EndsGroup;
    FinishOk(s, g0, t, c, r, success);
    RefreshFacts(t, c, s.limits);
    var f := Refresh(t, c, s.limits.maxHistory).group;
    RefreshedDeclared(t, c, s.limits, f);
    EvictedShows(t, c, s.limits, f);
    EvictedInputs(f, s.limits);
  }

  lemma RefreshedDeclared(t: Group, c: Context, limits: Limits, f: Group)
    requires RefreshedFrom(t, c, limits, f)
    ensures DeclaredIds(f.members) == DeclaredIds(t.members) && EntriesOk(f.members) && Derived(f.members)
  {
  }

  lemma EvictedInputs(f: Group, limits: Limits)
    requires EntriesOk(f.members) && Derived(f.members) && |DeclaredIds(f.members)| <= limits.maxMembersPerGroup
    ensures InputsOf(Evicted(f, limits)) == InputsOf(f)
  {
    EvictFacts(f.members, limits.maxMembersPerGroup);
  }

  // ----- One member -----

  /** Every declared entry of another member is still there, and every entry of another member was there, exactly as it is
      now. */
  ghost predicate OthersStay(ms: seq<MemberEntry>, ms': seq<MemberEntry>, x: Id) {
    && (forall e :: e in ms && e.record.member != x && e.record.declared ==> e in ms')
    && (forall e :: e in ms' && e.record.member != x ==> e in ms)
  }

  /** The entries of the changed group are those of the old one, up to the entries of one member. */
  ghost predicate ChangedOnly(ms: seq<MemberEntry>, ts: seq<MemberEntry>, x: Id) {
    && (forall e :: e in ms && e.record.member != x ==> e in ts)
    && (forall e :: e in ts && e.record.member != x ==> e in ms)
  }

  lemma OthersStayShown(g: Group, t: Group, g': Group, x: Id)
    requires Derived(g.members) && ChangedOnly(g.members, t.members, x) && Shows(t, g')
    ensures OthersStay(g.members, g'.members, x)
  {
    hide DeriveEntry, Canonical, StatesTold, Rebalanced;
    forall e | e in g.members && e.record.member != x && e.record.declared ensures e in g'.members {
      var k :| 0 <= k < |t.members| && t.members[k] == e;
      DerivedStays(g.members, e);
    }
    forall e | e in g'.members && e.record.member != x ensures e in g.members {
      var k :| 0 <= k < |t.members| && e == DeriveEntry(t.members[k]);
      DerivedMember(t.members[k]);
      assert t.members[k] in g.members;
      DerivedStays(g.members, t.members[k]);
    }
  }

  lemma DerivedStays(ms: seq<MemberEntry>, e: MemberEntry)
    requires Derived(ms) && e in ms
    ensures DeriveEntry(e) == e
  {
  }

  lemma DerivedMember(e: MemberEntry)
    ensures DeriveEntry(e).record.member == e.record.member
  {
  }

  lemma ReplacedOnly(ms: seq<MemberEntry>, i: nat, e: MemberEntry)
    requires EntriesOk(ms) && i < |ms| && e.record.member == ms[i].record.member
    ensures ChangedOnly(ms, ms[i := e], e.record.member)
    ensures forall x :: x in ms[i := e] && x.record.member == e.record.member ==> x == e
    ensures e in ms[i := e]
  {
    var ts := ms[i := e];
    assert ts[i] == e;
    forall x | x in ms && x.record.member != e.record.member ensures x in ts {
      var k :| 0 <= k < |ms| && ms[k] == x;
      assert ts[k] == x;
    }
    forall x | x in ts && x.record.member == e.record.member ensures x == e {
      var k :| 0 <= k < |ts| && ts[k] == x;
      OnlyEntryOf(ms, k);
      OnlyEntryOf(ms, i);
    }
  }

  lemma AddedOnly(ms: seq<MemberEntry>, spec: MemberSpec)
    requires EntriesOk(ms)
    ensures ChangedOnly(ms, WithMember(ms, spec), spec.member)
    ensures forall x :: x in WithMember(ms, spec) && x.record.member == spec.member ==> x == FreshEntry(spec)
    ensures FreshEntry(spec) in WithMember(ms, spec)
  {
    var i := Locate(ms, spec.member);
    IndexOfFirst(MemberIds(ms), spec.member);
    var raw := if i < |ms| then ms[i := FreshEntry(spec)] else ms + [FreshEntry(spec)];
    if i < |ms| {
      ReplacedOnly(ms, i, FreshEntry(spec));
    } else {
      forall x | x in ms ensures x.record.member != spec.member {
        var k :| 0 <= k < |ms| && ms[k] == x;
        assert MemberIds(ms)[k] == x.record.member;
      }
    }
    forall x ensures x in WithMember(ms, spec) <==> x in raw { SortElements(EntryKey, raw, x); }
  }

  lemma FreshDerived(spec: MemberSpec)
    ensures DeriveEntry(FreshEntry(spec)) == Admitted(spec)
  {
  }

  lemma DerivedOf(g: Group, limits: Limits)
    requires GroupOk(g, limits)
    ensures Derived(g.members) && EntriesOk(g.members) && Loose(g, limits)
    ensures DeclaredIds(g.members) == g.declaredDigest && |g.owners| == g.bucketCount
  {
  }

  /** An added member is there as its spec says, fully proven; every other entry stays as it is. */
  lemma AddedEffect(s: State, r: Request, up: Upstream)
    requires Inv(s) && r.AddMember? && Add(s, r, up).outcome == MEMBER_ADDED
    ensures r.group in s.groups && r.group in Add(s, r, up).state.groups
    ensures var g, g' := s.groups[r.group], Add(s, r, up).state.groups[r.group];
            && Admitted(r.spec) in g'.members && OthersStay(g.members, g'.members, r.spec.member)
            && (forall e :: e in g'.members && e.record.member == r.spec.member ==> e == Admitted(r.spec))
            && g'.owners == Rebalanced(g.owners, ActiveIds(g'.members)) && g'.currentness == g.currentness
  {
    hide Preamble, Finish, LifecycleAllows, WithMember, StepOk, GroupOk, Loose, Inv, ValidateFor, EntriesOk, ContextFor,
         Total, DeclaredIds, OthersStay, Shows, ChangedOnly, Derived, DeclaredIn, Rebalanced;
    PreambleEffect(s, r, GroupEvent.ADD_MEMBER);
    if Preamble(s, r, GroupEvent.ADD_MEMBER).None? {
      Ready(s, r, GroupEvent.ADD_MEMBER);
      var g := s.groups[r.group];
      ValidateRefuses(up, g, r.spec);
      ValidSpecNamed(up, g, r.spec);
      DerivedOf(g, s.limits);
      AddedOnly(g.members, r.spec);
      AddedShows(s, r, g);
      var t := g.(members := WithMember(g.members, r.spec));
      var g' := Add(s, r, up).state.groups[r.group];
      OthersStayShown(g, t, g', r.spec.member);
      OnlyOneShown(t, g', FreshEntry(r.spec));
      FreshDerived(r.spec);
      ShownMap(t, g');
    }
  }

  lemma ShownMap(t: Group, g': Group)
    requires Shows(t, g')
    ensures g'.owners == Rebalanced(t.owners, ActiveIds(g'.members)) && g'.currentness == t.currentness
    ensures g'.plan == t.plan && DeclaredIds(g'.members) == DeclaredIds(t.members)
  {
    hide Rebalanced;
  }

  lemma OnlyOneShown(t: Group, g': Group, e: MemberEntry)
    requires Shows(t, g') && e in t.members
    requires forall x :: x in t.members && x.record.member == e.record.member ==> x == e
    ensures e.record.declared ==> DeriveEntry(e) in g'.members
    ensures forall x :: x in g'.members && x.record.member == e.record.member ==> x == DeriveEntry(e)
  {
    hide DeriveEntry, Canonical, StatesTold, Rebalanced;
    var k :| 0 <= k < |t.members| && t.members[k] == e;
    forall x | x in g'.members && x.record.member == e.record.member ensures x == DeriveEntry(e) {
      var j :| 0 <= j < |t.members| && x == DeriveEntry(t.members[j]);
      DerivedMember(t.members[j]);
    }
  }

  lemma AddedShows(s: State, r: Request, g: Group)
    requires Inv(s) && r.AddMember? && g.id in s.groups && s.groups[g.id] == g && Loose(g, s.limits) && g.successor == NIL
    requires r.spec.member != NIL && LifecycleAllows(g.lifecycle, GroupEvent.ADD_MEMBER) && EntriesOk(g.members)
    requires |DeclaredIds(g.members)| + 1 <= s.limits.maxMembersPerGroup && |DeclaredIds(g.members)| + 1 <= g.bucketCount
    ensures var t := g.(members := WithMember(g.members, r.spec));
            var s' := Finish(s, t, ContextFor(s, r.authority, ChangeReason.ADD_MEMBER, GroupEvent.ADD_MEMBER), r,
                             MEMBER_ADDED).state;
            s'.groups.Keys == s.groups.Keys && Shows(t, s'.groups[g.id])
  {
    hide Finish, LifecycleAllows, WithMember, Loose, Inv, EntriesOk, PayloadOf, Shows;
    WithMemberFacts(g.members, r.spec);
    LooseWithMembers(g, WithMember(g.members, r.spec), s.limits);
    FinishShows(s, g, g.(members := WithMember(g.members, r.spec)),
                ContextFor(s, r.authority, ChangeReason.ADD_MEMBER, GroupEvent.ADD_MEMBER), r, MEMBER_ADDED);
  }

  /** A removed member is withdrawn; every other entry stays as it is. */
  lemma RemovedEffect(s: State, r: Request)
    requires Inv(s) && r.RemoveMember? && Remove(s, r).outcome == MEMBER_REMOVED
    ensures r.group in s.groups && r.group in Remove(s, r).state.groups
    ensures var g, g' := s.groups[r.group], Remove(s, r).state.groups[r.group];
            && r.member in DeclaredIds(g.members) && OthersStay(g.members, g'.members, r.member)
            && (forall e :: e in g'.members && e.record.member == r.member ==>
                  exists i :: 0 <= i < |g.members| && g.members[i].record.declared && e.record == Gone(g.members[i]).record)
            && g'.owners == Rebalanced(g.owners, ActiveIds(g'.members)) && g'.currentness == g.currentness
  {
    hide Preamble, Finish, LifecycleAllows, StepOk, GroupOk, Loose, Inv, EntriesOk, DeclaredIds, OthersStay, Shows,
         ChangedOnly, Derived, Rebalanced, Locate;
    PreambleEffect(s, r, GroupEvent.REMOVE_MEMBER);
    if Preamble(s, r, GroupEvent.REMOVE_MEMBER).None? {
      Ready(s, r, GroupEvent.REMOVE_MEMBER);
      var g := s.groups[r.group];
      DerivedOf(g, s.limits);
      var i := Locate(g.members, r.member);
      if i < |g.members| && g.members[i].record.declared {
        var e := Departing(g.members[i]);
        ReplacedOnly(g.members, i, e);
        ReplacedShows(s, r, g, i, e, GroupEvent.REMOVE_MEMBER, ChangeReason.REMOVE_MEMBER, MEMBER_REMOVED);
        var t := g.(members := g.members[i := e]);
        var g' := Remove(s, r).state.groups[r.group];
        OthersStayShown(g, t, g', r.member);
        OnlyOneShown(t, g', e);
        assert DeriveEntry(e).record == Gone(g.members[i]).record;
        ShownMap(t, g');
        DeclaredMembers(g.members, r.member);
      }
    }
  }

  lemma ReplacedShows(s: State, r: Request, g: Group, i: nat, e: MemberEntry, event: GroupEvent, reason: ChangeReason,
                      success: Outcome)
    requires Inv(s) && i < |g.members| && g.members[i].record.declared && GroupOk(g, s.limits)
    requires g.id in s.groups && s.groups[g.id] == g && g.successor == NIL
    requires |DeclaredIds(g.members)| <= s.limits.maxMembersPerGroup
    requires e.record.member == g.members[i].record.member && e.record.path == g.members[i].record.path
    requires LifecycleAllows(g.lifecycle, event) && IsMemberEvent(event)
    ensures var t := g.(members := g.members[i := e]);
            var s' := Finish(s, t, ContextFor(s, r.authority, reason, event), r, success).state;
            s'.groups.Keys == s.groups.Keys && Shows(t, s'.groups[g.id])
  {
    hide Finish, LifecycleAllows, Loose, Inv, PayloadOf, DeclaredIds, Advances, Shows, GroupOk;
    OkIsLoose(g, s.limits);
    OneFlagged(g, i, e, s.limits);
    FinishShows(s, g, g.(members := g.members[i := e]), ContextFor(s, r.authority, reason, event), r, success);
  }

  /** A member that was enabled or disabled is there with that setting and otherwise as recorded; enabling proves it in
      every respect, disabling leaves its proofs alone. Every other entry stays as it is. */
  lemma EnabledEffect(s: State, r: Request, up: Upstream)
    requires Inv(s) && r.SetEnabled?
    requires Enable(s, r, up).outcome == (if r.enabled then MEMBER_ENABLED else MEMBER_DISABLED)
    ensures r.group in s.groups && r.group in Enable(s, r, up).state.groups
    ensures var g, g' := s.groups[r.group], Enable(s, r, up).state.groups[r.group];
            && OthersStay(g.members, g'.members, r.member)
            && (exists i, j :: 0 <= i < |g.members| && 0 <= j < |g'.members| && Switched(g.members[i], g'.members[j], r))
            && g'.owners == Rebalanced(g.owners, ActiveIds(g'.members)) && g'.currentness == g.currentness
  {
    hide Preamble, Finish, LifecycleAllows, StepOk, GroupOk, Loose, Inv, EntriesOk, DeclaredIds, OthersStay, Shows,
         ChangedOnly, Derived, Rebalanced, Locate, ValidateFor, RememberAttempt, PayloadOf, SpecOf, Switched;
    var event := if r.enabled then GroupEvent.ENABLE_MEMBER else GroupEvent.DISABLE_MEMBER;
    var reason := if r.enabled then ChangeReason.ENABLE_MEMBER else ChangeReason.DISABLE_MEMBER;
    PreambleEffect(s, r, event);
    if Preamble(s, r, event).None? {
      Ready(s, r, event);
      var g := s.groups[r.group];
      DerivedOf(g, s.limits);
      var i := Locate(g.members, r.member);
      if i < |g.members| && g.members[i].record.declared && g.members[i].record.enabled != r.enabled {
        ValidateRefuses(up, g, SpecOf(g.members[i].record));
        var e := if r.enabled then Enabling(g.members[i]) else Disabled(g.members[i]);
        SwitchedEntry(g.members[i], r);
        ReplacedOnly(g.members, i, e);
        ReplacedShows(s, r, g, i, e, event, reason, if r.enabled then MEMBER_ENABLED else MEMBER_DISABLED);
        var t := g.(members := g.members[i := e]);
        var g' := Enable(s, r, up).state.groups[r.group];
        OthersStayShown(g, t, g', r.member);
        OnlyOneShown(t, g', e);
        ShownMap(t, g');
        var j :| 0 <= j < |g'.members| && g'.members[j] == DeriveEntry(e);
      }
    }
  }

  /** The entry of the member before and after it was switched. */
  ghost predicate Switched(e: MemberEntry, e': MemberEntry, r: Request)
    requires r.SetEnabled?
  {
    && e.record.member == r.member && e.record.declared && e.record.enabled != r.enabled
    && e'.record == e.record.(enabled := r.enabled, state := e'.record.state)
    && (r.enabled ==> e'.record.state == MemberActive && e'.pathCurrent && e'.pathAuthorized && e'.multipathCurrent &&
                      e'.costCurrent)
    && (!r.enabled ==> e'.record.state != MemberActive && e'.pathCurrent == e.pathCurrent &&
                       e'.pathAuthorized == e.pathAuthorized && e'.multipathCurrent == e.multipathCurrent &&
                       e'.costCurrent == e.costCurrent)
  }

  lemma SwitchedEntry(e: MemberEntry, r: Request)
    requires r.SetEnabled? && e.record.member == r.member && e.record.declared && e.record.enabled != r.enabled
    ensures var t := if r.enabled then Enabling(e) else Disabled(e);
            && t.record.declared && t.record.member == e.record.member && t.record.path == e.record.path
            && Switched(e, DeriveEntry(t), r)
  {
  }

  // ----- Sets of members -----

  /** Declared are exactly the members of the specs, each as its spec says and fully proven. */
  ghost predicate DeclaredAre(ms: seq<MemberEntry>, specs: seq<MemberSpec>) {
    && (forall k :: 0 <= k < |specs| ==> Admitted(specs[k]) in ms)
    && (forall e :: e in ms && e.record.declared ==> exists k :: 0 <= k < |specs| && e == Admitted(specs[k]))
  }

  lemma TargetDeclared(ms: seq<MemberEntry>, specs: seq<MemberSpec>, e: MemberEntry)
    requires EntriesOk(ms) && Listed(SpecIds(specs))
    ensures e in ApplyTarget(ms, specs) && e.record.declared <==> exists k :: 0 <= k < |specs| && e == FreshEntry(specs[k])
  {
    hide EntriesOk, ApplyTarget, SortBy;
    TargetEntries(ms, specs);
    FreshElements(specs, e);
    DeclaredEntryElements(ApplyTarget(ms, specs), e);
  }

  lemma SetShown(g: Group, t: Group, g': Group, specs: seq<MemberSpec>)
    requires EntriesOk(g.members) && Listed(SpecIds(specs)) && t.members == ApplyTarget(g.members, specs) && Shows(t, g')
    ensures DeclaredAre(g'.members, specs)
  {
    hide EntriesOk, ApplyTarget, DeriveEntry, Canonical, StatesTold, Rebalanced;
    forall k | 0 <= k < |specs| ensures Admitted(specs[k]) in g'.members {
      TargetDeclared(g.members, specs, FreshEntry(specs[k]));
      var n :| 0 <= n < |t.members| && t.members[n] == FreshEntry(specs[k]);
      FreshDerived(specs[k]);
    }
    forall e | e in g'.members && e.record.declared ensures exists k :: 0 <= k < |specs| && e == Admitted(specs[k]) {
      var n :| 0 <= n < |t.members| && e == DeriveEntry(t.members[n]);
      DerivedKeepsDeclared(t.members[n]);
      TargetDeclared(g.members, specs, t.members[n]);
      var k :| 0 <= k < |specs| && t.members[n] == FreshEntry(specs[k]);
      FreshDerived(specs[k]);
    }
  }

  // ----- Members that leave -----

  /** The entry of a member that leaves: withdrawn, enabled again, its proofs as they were. */
  function Gone(e: MemberEntry): MemberEntry {
    e.(record := e.record.(declared := false, enabled := true, state := MemberWithdrawn))
  }

  /** Whoever is listed without being declared was listed before: members that had left already as they were, members that
      leave now withdrawn; no spec names them. */
  ghost predicate WithdrawnAre(ms: seq<MemberEntry>, ms': seq<MemberEntry>, specs: seq<MemberSpec>) {
    forall e' :: e' in ms' && !e'.record.declared ==>
      && (forall k :: 0 <= k < |specs| ==> specs[k].member != e'.record.member)
      && exists i :: 0 <= i < |ms| && e' == if ms[i].record.declared then Gone(ms[i]) else ms[i]
  }

  lemma TargetUndeclared(ms: seq<MemberEntry>, specs: seq<MemberSpec>, e: MemberEntry)
    requires e in ApplyTarget(ms, specs) && !e.record.declared
    ensures forall k :: 0 <= k < |specs| ==> specs[k].member != e.record.member
    ensures exists i :: 0 <= i < |ms| && e == if ms[i].record.declared then Undeclared(ms[i]) else ms[i]
  {
    hide SortBy, Newcomers;
    SortElements(EntryKey, RawTarget(ms, specs), e);
    NewcomerElements(ms, specs, e);
    var n :| 0 <= n < |RetargetAll(ms, specs)| && RetargetAll(ms, specs)[n] == e;
    assert IndexOf(SpecIds(specs), ms[n].record.member) == |specs| && e.record.member == ms[n].record.member;
    IndexOfFirst(SpecIds(specs), e.record.member);
    forall k | 0 <= k < |specs| ensures specs[k].member != e.record.member {
      assert SpecIds(specs)[k] == specs[k].member;
    }
    assert e == if ms[n].record.declared then Undeclared(ms[n]) else ms[n];
  }

  lemma GoneExactly(ms: seq<MemberEntry>, e: MemberEntry)
    requires Derived(ms) && e in ms
    ensures DeriveEntry(if e.record.declared then Undeclared(e) else e) == if e.record.declared then Gone(e) else e
  {
  }

  lemma WithdrawnShown(g: Group, ms: seq<MemberEntry>, t: Group, g': Group, specs: seq<MemberSpec>)
    requires Derived(g.members) && ms == g.members && t.members == ApplyTarget(ms, specs) && Shows(t, g')
    ensures WithdrawnAre(ms, g'.members, specs)
  {
    hide ApplyTarget, DeriveEntry, Canonical, StatesTold, Rebalanced, Derived, Undeclared, Gone;
    forall e' | e' in g'.members && !e'.record.declared
      ensures forall k :: 0 <= k < |specs| ==> specs[k].member != e'.record.member
      ensures exists i :: 0 <= i < |ms| && e' == if ms[i].record.declared then Gone(ms[i]) else ms[i]
    {
      var n :| 0 <= n < |t.members| && e' == DeriveEntry(t.members[n]);
      DerivedKeepsDeclared(t.members[n]);
      DerivedMember(t.members[n]);
      TargetUndeclared(ms, specs, t.members[n]);
      var i :| 0 <= i < |ms| && t.members[n] == if ms[i].record.declared then Undeclared(ms[i]) else ms[i];
      GoneExactly(ms, ms[i]);
    }
  }

  /** Over its bound the list forgets withdrawn members in canonical order and no more than it must: up to some place only
      declared members are left, behind it everybody; either the bound is met exactly or nobody withdrawn is left. */
  lemma {:induction false} EvictExactly(ms: seq<MemberEntry>, max: nat)
    ensures |ms| <= max ==> Evict(ms, max) == ms
    ensures |ms| > max ==>
              exists n :: && 0 < n <= |ms| && Evict(ms, max) == DeclaredEntries(ms[..n]) + ms[n..]
                          && (|Evict(ms, max)| == max || (n == |ms| && |Evict(ms, max)| > max))
    decreases |ms|
  {
    if |ms| > max {
      var i := FirstUndeclared(ms);
      if i == |ms| {
        AllStay(ms, |ms|);
        assert ms[..|ms|] == ms && ms[|ms|..] == [];
      } else {
        EvictOne(ms, i, max);
      }
    }
  }

  lemma {:induction false} AllStay(ms: seq<MemberEntry>, i: nat)
    requires i <= |ms| && forall j :: 0 <= j < i ==> ms[j].record.declared
    ensures DeclaredEntries(ms[..i]) == ms[..i]
  {
    if i > 0 {
      AllStay(ms, i - 1);
      assert ms[..i][..i - 1] == ms[..i - 1] && ms[..i] == ms[..i - 1] + [ms[i - 1]];
    }
  }

  lemma {:induction false} DeclaredEntriesAppend(a: seq<MemberEntry>, b: seq<MemberEntry>)
    ensures DeclaredEntries(a + b) == DeclaredEntries(a) + DeclaredEntries(b)
  {
    if b == [] {
      assert a + b == a;
    } else {
      var n := |b| - 1;
      DeclaredEntriesAppend(a, b[..n]);
      assert (a + b)[..|a + b| - 1] == a + b[..n];
    }
  }

  lemma EvictOne(ms: seq<MemberEntry>, i: nat, max: nat)
    requires |ms| > max && i == FirstUndeclared(ms) < |ms|
    ensures exists n :: && 0 < n <= |ms| && Evict(ms, max) == DeclaredEntries(ms[..n]) + ms[n..]
                        && (|Evict(ms, max)| == max || (n == |ms| && |Evict(ms, max)| > max))
    decreases |ms|, 0
  {
    hide DeclaredEntries;
    var rest := ms[..i] + ms[i + 1..];
    AllStay(ms, i);
    DropsOne(ms, i, i);
    EvictExactly(rest, max);
    if |rest| <= max {
      assert DeclaredEntries(ms[..i + 1]) + ms[i + 1..] == rest;
    } else {
      var m :| && 0 < m <= |rest| && Evict(rest, max) == DeclaredEntries(rest[..m]) + rest[m..]
               && (|Evict(rest, max)| == max || (m == |rest| && |Evict(rest, max)| > max));
      if m <= i {
        AllStay(ms, m);
        assert rest[..m] == ms[..m] && ms[..m] + rest[m..] == rest;
        assert DeclaredEntries(ms[..i + 1]) + ms[i + 1..] == rest;
      } else {
        DropsOne(ms, i, m);
        assert rest[m..] == ms[m + 1..];
      }
    }
  }

  /** Leaving out an undeclared entry does not change the declared ones. */
  lemma DropsOne(ms: seq<MemberEntry>, i: nat, m: nat)
    requires i < |ms| && !ms[i].record.declared && i <= m < |ms|
    ensures DeclaredEntries(ms[..m + 1]) == DeclaredEntries((ms[..i] + ms[i + 1..])[..m])
  {
    var a, b := ms[..i], ms[i + 1..m + 1];
    assert ms[..m + 1] == a + [ms[i]] + b && (a + ms[i + 1..])[..m] == a + b;
    DeclaredEntriesAppend(a + [ms[i]], b);
    DeclaredEntriesAppend(a, [ms[i]]);
    DeclaredEntriesAppend(a, b);
  }

  lemma TrialShows(s: State, a: Authority, g: Group, specs: seq<MemberSpec>)
    requires GroupOk(g, s.limits) && g.successor == NIL && Listed(SpecIds(specs))
    requires |specs| <= g.bucketCount && |specs| <= s.limits.maxMembersPerGroup
    requires LifecycleAllows(g.lifecycle, GroupEvent.ADD_MEMBER) || LifecycleAllows(g.lifecycle, PLAN_REBALANCE)
    ensures var c, t := TargetContext(s, a, g, specs), Retargeted(g, specs);
            var f := Refresh(t, c, s.limits.maxHistory);
            f.ok && Shows(t, Evicted(f.group, s.limits)) && DeclaredAre(Evicted(f.group, s.limits).members, specs)
  {
    hide Refresh, LifecycleAllows, RefreshedFrom, FinishedFrom, Loose, GroupOk, Shows, ApplyTarget, AddedCount, DeclaredAre,
         EntriesOk, Derived;
    DerivedOf(g, s.limits);
    var c, t := TargetContext(s, a, g, specs), Retargeted(g, specs);
    TrialOk(s, a, g, specs);
    TargetContextAllowed(s, a, g, specs);
    RetargetedLoose(g, specs, s.limits);
    var f := Refresh(t, c, s.limits.maxHistory).group;
    RefreshedDeclared(t, c, s.limits, f);
    EvictedShows(t, c, s.limits, f);
    SetShown(g, t, Evicted(f, s.limits), specs);
  }

  /** A member set that is carried out leaves exactly its members declared, each as its spec says and fully proven; the map
      is rebalanced for the enabled ones, by at most the moves allowed; REBALANCED says that the map changed. */
  lemma AppliedEffect(s: State, r: Request, up: Upstream)
    requires Inv(s) && r.ApplySet? && CarriedOut(Apply(s, r, up).outcome)
    ensures r.group in s.groups && r.group in Apply(s, r, up).state.groups
    ensures var g, g' := s.groups[r.group], Apply(s, r, up).state.groups[r.group];
            && DeclaredAre(g'.members, r.members) && WithdrawnAre(g.members, g'.members, r.members)
            && g'.owners == Rebalanced(g.owners, ActiveIds(g'.members))
            && Apply(s, r, up).outcome == (if g'.owners == g.owners then NO_CHANGE else REBALANCED)
            && g'.currentness == g.currentness && g'.plan == g.plan
  {
    hide Preamble, Refresh, Inv, PayloadOf, RememberAttempt, CheckSetRequest, TargetContext, ApplyTarget, LifecycleAllows,
         Shows, DeclaredAre, WithdrawnAre, GroupOk, Loose, EntriesOk, Rebalanced, Evict, ChurnOf, Derived;
    PreambleEffect(s, r, GroupEvent.ADD_MEMBER);
    if Preamble(s, r, GroupEvent.ADD_MEMBER).None? {
      Ready(s, r, GroupEvent.ADD_MEMBER);
      var g := s.groups[r.group];
      SetRequestRefuses(s, g, r.members, up);
      if CheckSetRequest(s, g, r.members, up).None? {
        SetRequestSizes(s, g, r.members, up);
        TrialShows(s, r.authority, g, r.members);
        var t := Retargeted(g, r.members);
        var f := Refresh(t, TargetContext(s, r.authority, g, r.members), s.limits.maxHistory);
        RefreshKeepsId(t, TargetContext(s, r.authority, g, r.members), s.limits.maxHistory);
        var done := Evicted(f.group, s.limits);
        ShownMap(t, done);
        ShownGeneration(t, done);
        DerivedOf(g, s.limits);
        WithdrawnShown(g, g.members, t, done, r.members);
        AttemptsOnly(Stored(s, done), r.authority.attempt,
                     AttemptEntry(PayloadOf(r), if f.group.assignmentGen != g.assignmentGen then REBALANCED else NO_CHANGE,
                                  g.id));
      }
    }
  }

  lemma ShownGeneration(t: Group, g': Group)
    requires Shows(t, g')
    ensures g'.assignmentGen == t.assignmentGen <==> g'.owners == t.owners
  {
    hide Rebalanced;
  }

  lemma SetRequestSizes(s: State, g: Group, specs: seq<MemberSpec>, up: Upstream)
    requires CheckSetRequest(s, g, specs, up).None?
    ensures Listed(SpecIds(specs)) && |specs| <= g.bucketCount && |specs| <= s.limits.maxMembersPerGroup
  {
    hide CheckSpecShape, ValidateAll, TargetChanges, AnyPathMoved;
    ShapedSpecsListed(specs);
  }

  /** An applied commit leaves exactly the planned members declared, each as planned and fully proven. */
  lemma CommittedEffect(s: State, r: Request)
    requires Inv(s) && r.CommitRebalance? && CommitPasses(s, r)
    ensures r.group in Commit(s, r).state.groups
    ensures var ms', target := Commit(s, r).state.groups[r.group].members, s.groups[r.group].plan.value.targetMembers;
            DeclaredAre(ms', target) && WithdrawnAre(s.groups[r.group].members, ms', target)
  {
    hide Preamble, Finish, LifecycleAllows, GroupOk, Loose, Inv, ApplyTarget, Shows, DeclaredAre, WithdrawnAre, CheckPlan,
         EntriesOk, CheckPlanCurrent, LandedOn, Derived;
    Ready(s, r, COMMIT_REBALANCE);
    CommitLandsOnPlan(s, r);
    var g := s.groups[r.group];
    HasPlan(g, r.plan);
    CommitReady(g, s.limits);
    DerivedOf(g, s.limits);
    var target := g.plan.value.targetMembers;
    RetargetedKeeps(g.(plan := None), target);
    var t := Retargeted(g.(plan := None), target);
    FinishShows(s, g, t, ContextFor(s, r.authority, ChangeReason.REBALANCE_COMMIT, COMMIT_REBALANCE), r, REBALANCED);
    TargetListed(target);
    SetShown(g, t, Commit(s, r).state.groups[r.group], target);
    WithdrawnShown(g, g.members, t, Commit(s, r).state.groups[r.group], target);
  }

  lemma TargetListed(specs: seq<MemberSpec>)
    requires TargetOk(specs)
    ensures Listed(SpecIds(specs))
  {
  }

  // ----- Creation -----

  lemma {:induction false} AllNew(specs: seq<MemberSpec>)
    ensures Newcomers([], specs) == FreshEntries(specs)
  {
    if specs != [] {
      var n := |specs| - 1;
      AllNew(specs[..n]);
      assert MemberIds([]) == [];
      assert FreshEntries(specs) == FreshEntries(specs[..n]) + [FreshEntry(specs[n])];
    }
  }

  /** A new group is retargeted from nothing. */
  lemma FromNothing(specs: seq<MemberSpec>)
    ensures SortBy(EntryKey, FreshEntries(specs)) == ApplyTarget([], specs)
  {
    hide SortBy;
    AllNew(specs);
    assert RetargetAll([], specs) == [];
    assert [] + FreshEntries(specs) == FreshEntries(specs);
  }

  lemma {:induction false} EnabledLength(specs: seq<MemberSpec>)
    ensures |EnabledIds(specs)| == EnabledCount(specs)
  {
    if specs != [] { EnabledLength(specs[..|specs| - 1]); }
  }

  lemma SortedEnabled(specs: seq<MemberSpec>)
    ensures |EnabledIds(SortBy(SpecKey, specs))| == EnabledCount(specs)
  {
    hide SortBy;
    var sorted := SortBy(SpecKey, specs);
    SortMembers(SpecKey, specs);
    EnabledLength(sorted);
    OrderFree.EnabledCountIf(sorted);
    OrderFree.EnabledCountIf(specs);
    OrderFree.CountIfPermutation(OrderFree.Enabled(), sorted, specs);
  }

  lemma NothingEntriesOk()
    ensures EntriesOk([])
  {
  }

  /** A group as a creation leaves it: as the request says, its members declared as their specs say, its map in canonical
      shares for the enabled ones, its generations at their start, and serving. */
  ghost predicate CreatedAs(s: State, r: Request, g: Group)
    requires r.CreateGroup? && |r.members| > 0
  {
    && g.id == r.group && g.key == r.key && g.source == r.source && g.semantics == r.semantics
    && g.canonicalCost == r.members[0].cost.cost && g.hashDomain == r.hashDomain && g.bucketCount == r.bucketCount
    && g.minActive == r.minActive && g.provenance == r.provenance && g.multipathGen == r.multipathGen
    && g.multipathSet == (if r.source == MULTIPATH_FABRIC then r.multipathSet else NIL)
    && DeclaredAre(g.members, r.members) && Canonical(g.members) && |g.members| == |r.members|
    && HasShares(g.owners, ActiveIds(g.members)) && |g.owners| == r.bucketCount && g.lifecycle == Active
    && g.membershipGen == 1 && g.assignmentGen == 1 && g.authorityGen == 1
    && g.publisher == r.authority.publisher && g.boot == r.authority.boot && g.boundEpoch == s.epoch
    && g.successor == NIL && g.predecessor == NIL && g.plan.None? && g.currentness == CURRENT
  }

  /** What the refresh of a new group starts from. */
  lemma NewGroupStarts(s: State, r: Request)
    requires r.CreateGroup? && |r.members| > 0 && Listed(SpecIds(r.members))
    ensures var t := NewGroup(s, r);
            && t.members == ApplyTarget([], r.members) && t.declaredDigest == [] && t.membershipGen == 0
            && t.assignmentGen == 0 && t.authorityGen == 1 && t.currentness == CURRENT && t.plan.None?
            && t.successor == NIL && t.predecessor == NIL && t.lifecycle == Declared
            && t.publisher == r.authority.publisher && t.boot == r.authority.boot && t.boundEpoch == s.epoch
            && |t.owners| == r.bucketCount && (forall b :: 0 <= b < |t.owners| ==> t.owners[b] == NIL)
            && |t.members| == |r.members| && t.id == r.group && t.key == r.key && t.source == r.source
            && t.semantics == r.semantics && t.canonicalCost == r.members[0].cost.cost && t.hashDomain == r.hashDomain
            && t.bucketCount == r.bucketCount && t.minActive == r.minActive && t.provenance == r.provenance
            && t.multipathGen == r.multipathGen
            && t.multipathSet == (if r.source == MULTIPATH_FABRIC then r.multipathSet else NIL)
  {
    hide SortBy, ApplyTarget;
    FromNothing(r.members);
    SortMembers(EntryKey, FreshEntries(r.members));
    MultisetMembers(SortBy(EntryKey, FreshEntries(r.members)), FreshEntries(r.members));
  }

  lemma BoundAlready(g: Group, c: Context)
    requires c.bind ==> g.boundEpoch == c.epoch && g.publisher == c.publisher && g.boot == c.boot
    ensures Bind(g, c) == g
  {
  }

  lemma CreationFrame(t: Group, c: Context, limits: Limits, f: Group)
    requires RefreshedFrom(t, c, limits, f)
    ensures f.id == t.id && f.key == t.key && f.source == t.source && f.semantics == t.semantics
    ensures f.canonicalCost == t.canonicalCost && f.hashDomain == t.hashDomain && f.bucketCount == t.bucketCount
    ensures f.minActive == t.minActive && f.provenance == t.provenance && f.multipathGen == t.multipathGen
    ensures f.multipathSet == t.multipathSet && f.successor == t.successor && f.predecessor == t.predecessor
    ensures f.plan == t.plan && f.currentness == t.currentness && f.authorityGen == Bind(t, c).authorityGen
    ensures |f.members| == |t.members| && |f.owners| == f.bucketCount && f.members == MapEntries(DeriveEntry, t.members)
    ensures c.recompute ==> Settled(f.owners, ActiveIds(f.members))
  {
    hide Settled, EntriesOk, PlanOk, Derived, Rebalanced;
  }

  lemma CreatedGroupAs(s: State, r: Request, t: Group, c: Context, f: Group)
    requires r.CreateGroup? && |r.members| > 0 && Listed(SpecIds(r.members)) && t == NewGroup(s, r)
    requires RefreshedFrom(t, c, s.limits, f) && GroupOk(f, s.limits) && c.recompute && c.bind
    requires |f.members| <= s.limits.maxMembersPerGroup && Bind(t, c) == t && InService(f.lifecycle)
    requires f.publisher == t.publisher && f.boot == t.boot && f.boundEpoch == t.boundEpoch
    requires 0 < r.minActive <= EnabledCount(r.members) && 0 < r.bucketCount
    ensures CreatedAs(s, r, f)
  {
    hide NewGroup, RefreshedFrom, GroupOk, Shows, DeclaredAre, Canonical, ApplyTarget, Settled, SortBy, EntriesOk, HasShares,
         InService, Derived, Bind, Loose, EnabledCount;
    NewGroupStarts(s, r);
    CreationFrame(t, c, s.limits, f);
    CreatedMembers(s, r, t, c, f);
    EntriesOfRefreshed(t, c, s.limits, f);
    EntriesCanonical(f.members);
    ActiveListed(f.members);
    DeclaredFirst(f, s.limits);
    FirstGenerations(t, f);
    OpenStands(f, s.limits);
    ServesEnough(f, r.minActive);
  }

  lemma DeclaredFirst(f: Group, limits: Limits)
    requires GroupOk(f, limits) && ActiveIds(f.members) != []
    ensures DeclaredIds(f.members) != []
  {
    ActiveNotMoreThanDeclared(f.members);
  }

  lemma CreatedMembers(s: State, r: Request, t: Group, c: Context, f: Group)
    requires r.CreateGroup? && |r.members| > 0 && Listed(SpecIds(r.members)) && t.members == ApplyTarget([], r.members)
    requires RefreshedFrom(t, c, s.limits, f) && c.recompute && |f.members| <= s.limits.maxMembersPerGroup
    requires f.members == MapEntries(DeriveEntry, t.members) && GroupOk(f, s.limits)
    ensures Shows(t, f) && DeclaredAre(f.members, r.members) && |ActiveIds(f.members)| == EnabledCount(r.members)
  {
    hide RefreshedFrom, GroupOk, Shows, DeclaredAre, ApplyTarget, SortBy, EntriesOk, Derived, EnabledCount, Loose;
    NothingEntriesOk();
    TargetFacts([], r.members);
    SortedEnabled(r.members);
    NothingToEvict(f, s.limits);
    DerivedOf(f, s.limits);
    ActiveNotMoreThanDeclared(f.members);
    EvictedShows(t, c, s.limits, f);
    SetShown(t.(members := []), t, f, r.members);
  }

  lemma ServesEnough(f: Group, minActive: nat)
    requires Stands(f) && InService(f.lifecycle) && f.minActive == minActive && |ActiveIds(f.members)| >= minActive
    requires f.plan.None? && f.currentness == CURRENT
    ensures f.lifecycle == Active
  {
  }

  lemma FirstGenerations(t: Group, f: Group)
    requires Shows(t, f) && t.declaredDigest == [] && t.membershipGen == 0 && t.assignmentGen == 0
    requires Settled(f.owners, ActiveIds(f.members)) && ActiveIds(f.members) != [] && Listed(ActiveIds(f.members))
    requires |f.owners| == |t.owners| > 0 && forall b :: 0 <= b < |t.owners| ==> t.owners[b] == NIL
    requires DeclaredIds(f.members) != []
    ensures f.membershipGen == 1 && f.assignmentGen == 1 && HasShares(f.owners, ActiveIds(f.members))
  {
    hide Rebalanced, StatesTold, Canonical;
    assert f.owners[0] in ActiveIds(f.members) && t.owners[0] == NIL;
  }

  /** A creation that is carried out stores exactly the group it asks for and leaves every other group alone. */
  lemma CreatedEffect(s: State, r: Request, up: Upstream)
    requires Inv(s) && r.CreateGroup? && Create(s, r, up).outcome == CREATED
    ensures |r.members| > 0 && r.group !in s.groups && r.group in Create(s, r, up).state.groups
    ensures CreatedAs(s, r, Create(s, r, up).state.groups[r.group])
    ensures Create(s, r, up).state.groups == s.groups[r.group := Create(s, r, up).state.groups[r.group]]
  {
    hide Authorize, HandleAttempt, Refresh, GroupOk, RememberAttempt, Loose, RefreshedFrom, FinishedFrom, CheckNewMembers,
         KeyTaken, NewGroup, GroupsOk, CreatedAs, ApplyGroupEvent, EnabledCount, CheckCreation;
    CreationRefuses(s, r);
    NewMembersRefuse(up, r, 0);
    AuthorizationRefuses(s, r);
    CreationSizes(s, r);
    NewMembersListed(up, r);
    CreatedGroupOk(s, r);
    var c := ContextFor(s, r.authority, ChangeReason.CREATE, GroupEvent.ADD_MEMBER);
    var t := NewGroup(s, r);
    var f := Refresh(t, c, s.limits.maxHistory);
    NewGroupStarts(s, r);
    NewGroupLoose(s, r);
    RefreshFacts(t, c, s.limits);
    RefreshBinding(t, c, s.limits.maxHistory);
    BoundAlready(t, c);
    EventTarget(t.lifecycle, c.event, InputsOf(f.group));
    Lapses.OpenIsInService(f.group.lifecycle);
    CreationFrame(t, c, s.limits, f.group);
    CreatedGroupAs(s, r, t, c, f.group);
    AttemptsOnly(Stored(s, f.group), r.authority.attempt, AttemptEntry(PayloadOf(r), CREATED, r.group));
  }

  lemma AuthorizationRefuses(s: State, r: Request)
    ensures Refusal(Authorize(s, r.authority, MUTATE_GROUP, r.group))
    ensures var o := HandleAttempt(s, r.authority, PayloadOf(r)); o.Some? ==> !CarriedOut(o.value)
  {
  }

  lemma CreationSizes(s: State, r: Request)
    requires r.CreateGroup? && CheckCreation(s, r).None?
    ensures 0 < |r.members| <= r.bucketCount && |r.members| <= s.limits.maxMembersPerGroup && r.group !in s.groups
    ensures 0 < r.bucketCount <= s.limits.maxBuckets && 0 < r.minActive <= s.limits.maxMembersPerGroup
  {
    hide Total, KeyTaken;
  }
}
