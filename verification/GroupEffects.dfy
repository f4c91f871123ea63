/** What plans, aborts and administrative ends leave of a group, and what every change writes into its history. */
module GroupEffects {
  import opened Prelude
  import opened Assignment
  import opened AssignmentProofs
  import opened Lifecycle
  import opened Records
  import opened Sorting
  import opened Groups
  import opened GroupProofs
  import opened TargetProofs
  import opened Governor
  import opened Invariants
  import opened Plans
  import opened Endings
  import opened Attempts
  import opened PlanRuns
  import opened Diff
  import opened Standing
  import opened Admission
  import opened MemberEffects
  import Answers
  import Lapses
  import Permission
  import Refusals

  // ----- Entries that stay -----

  /** Every declared entry is still there, and every entry was there, exactly as it is now. */
  ghost predicate SameEntries(ms: seq<MemberEntry>, ms': seq<MemberEntry>) {
    && (forall e :: e in ms && e.record.declared ==> e in ms')
    && (forall e :: e in ms' ==> e in ms)
  }

  lemma EntriesShown(g: Group, t: Group, g': Group)
    requires Derived(g.members) && t.members == g.members && Shows(t, g')
    ensures SameEntries(g.members, g'.members)
  {
    hide DeriveEntry, Canonical, StatesTold, Rebalanced;
    forall e | e in g.members && e.record.declared ensures e in g'.members {
      var k :| 0 <= k < |t.members| && t.members[k] == e;
      DerivedStays(g.members, e);
    }
    forall e | e in g'.members ensures e in g.members {
      var k :| 0 <= k < |t.members| && e == DeriveEntry(t.members[k]);
      DerivedStays(g.members, t.members[k]);
    }
  }

  // ----- Plans -----

  /** A plan as an accepted request leaves it: the specs in canonical order, the map they would lead to, and the moves that
      lead there, under the epoch and the publisher of the request. */
  ghost predicate PlannedAs(s: State, r: Request, g: Group, p: Plan)
    requires r.PlanRebalance?
  {
    && multiset(p.targetMembers) == multiset(r.members) && Ascending(SpecKey, p.targetMembers)
    && p.assignment == Rebalanced(g.owners, EnabledIds(p.targetMembers)) && Transforms(p.moves, g.owners, p.assignment)
    && p.id == PlanId(r.group, g.membershipGen, g.assignmentGen, SpecIds(p.targetMembers))
    && p.epoch == s.epoch && p.publisher == r.authority.publisher
  }

  lemma TrialRecords(g: Group, t: Group, c: Context, limits: Limits, f: Group)
    requires t.owners == g.owners && t.assignmentGen == g.assignmentGen && |t.owners| == t.bucketCount && c.recompute
    requires f == Refresh(t, c, limits.maxHistory).group && RefreshedFrom(t, c, limits, f)
    ensures var moves := if f.assignmentGen != g.assignmentGen && f.lastRebalance.Some? then f.lastRebalance.value.moves
                         else [];
            Transforms(moves, g.owners, f.owners)
  {
    RefreshRecordsTheDiff(t, c, limits.maxHistory);
    hide Refresh, Loose, Derived, Advances, Transforms, Moves;
    MovesTransform(g.owners, f.owners, ActiveIds(f.members));
  }

  lemma PlanForAs(s: State, r: Request, g: Group)
    requires r.PlanRebalance? && Loose(g, s.limits) && g.successor == NIL && Listed(SpecIds(r.members)) && g.id == r.group
    requires |r.members| <= g.bucketCount && |r.members| <= s.limits.maxMembersPerGroup
    requires LifecycleAllows(g.lifecycle, PLAN_REBALANCE)
    ensures var trial := Refresh(Retargeted(g, r.members), TargetContext(s, r.authority, g, r.members),
                                 s.limits.maxHistory).group;
            PlannedAs(s, r, g, PlanFor(s, r, g, trial))
  {
    hide Refresh, LifecycleAllows, AddedCount, FinishedFrom, ApplyTarget, Loose, RefreshedFrom, Rebalanced, EnabledIds,
         Transforms, SortBy;
    var c, t := TargetContext(s, r.authority, g, r.members), Retargeted(g, r.members);
    TargetContextAllowed(s, r.authority, g, r.members);
    TrialOk(s, r.authority, g, r.members);
    SortedTarget(r.members);
    SortMembers(SpecKey, r.members);
    var f := Refresh(t, c, s.limits.maxHistory).group;
    TrialMatches(g, r.members, c, s.limits, f);
    LooseOwners(g, s.limits);
    TrialRecords(g, t, c, s.limits, f);
  }

  /** An accepted plan request stores the plan it asks for; the members and the map stay, and so does every other group. */
  lemma PlannedEffect(s: State, r: Request, up: Upstream)
    requires Inv(s) && r.PlanRebalance? && Planning(s, r, up).outcome == REBALANCE_PLANNED
    ensures r.group in s.groups && r.group in Planning(s, r, up).state.groups
    ensures var g, g' := s.groups[r.group], Planning(s, r, up).state.groups[r.group];
            && g'.plan.Some? && PlannedAs(s, r, g, g'.plan.value) && SameEntries(g.members, g'.members)
            && g'.currentness == g.currentness
  {
    hide Preamble, Finish, Refresh, LifecycleAllows, GroupOk, Loose, Inv, CheckPlanRequest, TargetContext, Retargeted,
         PlannedAs, ChurnOf, EntriesOk, Derived, Shows, PlanFor, SameEntries, Advances;
    if Preamble(s, r, PLAN_REBALANCE).Some? {
      RefusalIsNotAccepted(s, r, PLAN_REBALANCE);
    } else {
      Ready(s, r, PLAN_REBALANCE);
      var g := s.groups[r.group];
      CheckNotPlanned(s, g, r.members, up);
      PlanRequestShape(s, g, r.members, up);
      ShapedSpecsListed(r.members);
      FreshPlanOk(s, r, g);
      PlanForAs(s, r, g);
      DerivedOf(g, s.limits);
      AdvancesReflexive(g);
      var trial := Refresh(Retargeted(g, r.members), TargetContext(s, r.authority, g, r.members),
                           s.limits.maxHistory).group;
      var t := g.(plan := Some(PlanFor(s, r, g, trial)));
      SamePlanFrame(g, t);
      FinishShows(s, g, t, ContextFor(s, r.authority, ChangeReason.REVALIDATION, PLAN_REBALANCE), r, REBALANCE_PLANNED);
      var g' := Planning(s, r, up).state.groups[r.group];
      EntriesShown(g, t, g');
      ShownMap(t, g');
    }
  }

  lemma SamePlanFrame(g: Group, t: Group)
    requires t == g.(plan := t.plan)
    ensures Advances(g, t)
  {
  }

  /** An aborted plan is gone and nothing else with it: members, map and causes stay, and the group serves on. */
  lemma AbortedEffect(s: State, r: Request)
    requires Inv(s) && r.AbortRebalance? && Abort(s, r).outcome == REBALANCE_ABORTED
    ensures r.group in s.groups && r.group in Abort(s, r).state.groups
    ensures var g, g' := s.groups[r.group], Abort(s, r).state.groups[r.group];
            && g.plan.Some? && g.plan.value.id == r.plan && g'.plan.None? && SameEntries(g.members, g'.members)
            && g'.owners == g.owners && g'.assignmentGen == g.assignmentGen && g'.currentness == g.currentness
            && InService(g'.lifecycle)
  {
    hide Preamble, Finish, Refresh, LifecycleAllows, GroupOk, Loose, Inv, EntriesOk, Derived, Shows, SameEntries, Advances,
         ApplyGroupEvent, CheckPlan;
    if Preamble(s, r, ABORT_REBALANCE).Some? {
      RefusalIsNotAccepted(s, r, ABORT_REBALANCE);
    } else {
      Ready(s, r, ABORT_REBALANCE);
      var g := s.groups[r.group];
      PlanCheckRefuses(g, r.plan);
      HasPlan(g, r.plan);
      PlanDropped(g, s.limits);
      DerivedOf(g, s.limits);
      var t := g.(plan := None);
      var c := ContextFor(s, r.authority, ChangeReason.PLAN_ABORTED, ABORT_REBALANCE);
      FinishShows(s, g, t, c, r, REBALANCE_ABORTED);
      var g' := Abort(s, r).state.groups[r.group];
      EntriesShown(g, t, g');
      ShownMap(t, g');
      ShownGeneration(t, g');
      EventTarget(g.lifecycle, ABORT_REBALANCE, InputsOf(g'));
      Lapses.OpenIsInService(g'.lifecycle);
      AbortKeepsActive(s, r, g, t, c);
      PlannedIsOpen(g, s.limits);
      PendingIsSettled(g, s.limits);
      SettledIsFixed(g.owners, ActiveIds(g.members));
    }
  }

  lemma PlanCheckRefuses(g: Group, plan: PlanId)
    ensures CheckPlan(g, plan).Some? ==> CheckPlan(g, plan).value == NO_PENDING_PLAN
  {
  }

  /** A group that is closed lets no abort through. */
  lemma PlannedIsOpen(g: Group, limits: Limits)
    requires LifecycleAllows(g.lifecycle, ABORT_REBALANCE)
    ensures !IsClosed(g.lifecycle)
  {
  }

  lemma AbortKeepsActive(s: State, r: Request, g: Group, t: Group, c: Context)
    requires Inv(s) && g.id in s.groups && s.groups[g.id] == g && GroupOk(g, s.limits) && t == g.(plan := None)
    requires Advances(g, t) && Finishable(t, c, s.limits) && |DeclaredIds(t.members)| <= s.limits.maxMembersPerGroup
    ensures ActiveIds(Finish(s, t, c, r, REBALANCE_ABORTED).state.groups[g.id].members) == ActiveIds(g.members)
  {
    hide Finish, Refresh, Loose, Inv, StepOk, Advances, GroupOk, Finishable, Derived;
    FinishOk(s, g, t, c, r, REBALANCE_ABORTED);
    RefreshedIsOk(t, c, s.limits);
    DerivedOf(g, s.limits);
    DerivedAll(g.members);
  }

  lemma DerivedAll(ms: seq<MemberEntry>)
    requires Derived(ms)
    ensures MapEntries(DeriveEntry, ms) == ms
  {
  }

  // ----- Administrative ends -----

  /** A terminal group: nobody is active, nobody owns a bucket, and the group is marked retired. */
  ghost predicate Over(g: Group, g': Group) {
    && ActiveIds(g'.members) == [] && (forall b :: 0 <= b < |g'.owners| ==> g'.owners[b] == NIL)
    && |g'.owners| == |g.owners| && g'.currentness == g.currentness.(retired := true)
  }

  /** Every declared member is still declared, and disabled. */
  ghost predicate AllDisabled(g: Group, g': Group) {
    && DeclaredIds(g'.members) == DeclaredIds(g.members)
    && forall e :: e in g'.members ==> !e.record.enabled
  }

  /** What each administrative request leaves of its group: a withdrawal that begins keeps members, map and plan; one that
      completes, and a retirement, leave nobody declared; a revocation and a supersession leave everybody disabled. */
  ghost predicate EndedAs(r: Request, g: Group, g': Group)
    requires IsEndRequest(r)
  {
    match r
    case WithdrawGroup(_, _, _) =>
      if g.lifecycle == Withdrawing
      then g'.lifecycle == Withdrawn && Over(g, g') && DeclaredIds(g'.members) == []
      else g'.lifecycle == Withdrawing && SameEntries(g.members, g'.members) && g'.plan == g.plan &&
           g'.currentness == g.currentness
    case RevokeGroup(_, _, _) => g'.lifecycle == Revoked && Over(g, g') && AllDisabled(g, g')
    case RetireGroup(_, _, _) =>
      g'.lifecycle == Retired && Over(g, g') && DeclaredIds(g'.members) == [] && g'.plan.None?
    case SupersedeGroup(_, _, successor) =>
      g'.lifecycle == Superseded && Over(g, g') && AllDisabled(g, g') && g'.plan.None? && g'.successor == successor
  }

  lemma EndShows(s: State, g: Group, t: Group, c: Context, r: Request, success: Outcome)
    requires Inv(s) && g.id in s.groups && s.groups[g.id] == g && Loose(g, s.limits)
    requires SameLedger(g, t) && SamePlaces(g.members, t.members) && t.lifecycle == g.lifecycle
    requires forall i :: 0 <= i < |g.members| && t.members[i].record.declared ==> g.members[i].record.declared
    requires |DeclaredIds(g.members)| <= s.limits.maxMembersPerGroup
    requires LifecycleAllows(g.lifecycle, c.event) && c.recompute && (EndsGroup(c.event) || c.event.WITHDRAW?)
    requires EndsGroup(c.event) ==> NobodyEligible(t.members)
    requires t.successor != NIL ==> c.event.SUPERSEDE? || c.event.RETIRE?
    ensures var s' := Finish(s, t, c, r, success).state;
            && g.id in s'.groups && Shows(t, s'.groups[g.id])
            && Some(s'.groups[g.id].lifecycle) == ApplyGroupEvent(t.lifecycle, c.event, InputsOf(s'.groups[g.id]))
            && |s'.groups[g.id].owners| == |g.owners|
            && (EndsGroup(c.event) ==> ActiveIds(s'.groups[g.id].members) == [] &&
                                       forall b :: 0 <= b < |g.owners| ==> s'.groups[g.id].owners[b] == NIL)
  {
    hide Finish, LifecycleAllows, Loose, Inv, StepOk, Advances, Shows, ApplyGroupEvent, Refresh, Evict, Rebalanced;
    LedgerKeepsLoose(g, t, s.limits);
    FinishShows(s, g, t, c, r, success);
    FinishOk(s, g, t, c, r, success);
    RefreshedIsOk(t, c, s.limits);
    var g' := Finish(s, t, c, r, success).state.groups[g.id];
    ShownMap(t, g');
    if EndsGroup(c.event) {
      NobodyEligibleNobodyActive(t.members);
      RebalancedSettles(g.owners, []);
    }
  }

  lemma NobodyDeclared(t: Group, g': Group)
    requires Shows(t, g') && forall i :: 0 <= i < |t.members| ==> !t.members[i].record.declared
    ensures DeclaredIds(g'.members) == []
  {
    hide StatesTold, Canonical, Rebalanced;
    NoDeclaredIds(t.members);
  }

  lemma {:induction false} NoDeclaredIds(ms: seq<MemberEntry>)
    requires forall i :: 0 <= i < |ms| ==> !ms[i].record.declared
    ensures DeclaredIds(ms) == []
  {
    if ms != [] { NoDeclaredIds(ms[..|ms| - 1]); }
  }

  lemma EverybodyDisabled(g: Group, t: Group, g': Group)
    requires Shows(t, g') && t.members == MapEntries(Disabled, g.members)
    ensures AllDisabled(g, g')
  {
    hide StatesTold, Canonical, Rebalanced;
    SameDeclared(g.members, t.members);
  }

  lemma Marked(t: Group, g': Group)
    requires Shows(t, g')
    ensures g'.currentness == t.currentness && g'.plan == t.plan && g'.successor == t.successor
  {
    hide Rebalanced;
  }

  lemma WithdrawnAs(s: State, r: Request)
    requires Inv(s) && r.WithdrawGroup? && Preamble(s, r, Permission.EventOf(s, r)).None?
    ensures r.group in s.groups && r.group in Withdraw(s, r).state.groups
    ensures EndedAs(r, s.groups[r.group], Withdraw(s, r).state.groups[r.group])
  {
    hide Preamble, Finish, LifecycleAllows, Loose, GroupOk, Inv, Shows, ApplyGroupEvent, SameEntries, Derived, EntriesOk;
    var event := Permission.EventOf(s, r);
    Ready(s, r, event);
    var g := s.groups[r.group];
    var completing := g.lifecycle == Withdrawing;
    var t := if completing then Retiring(g.(members := MapEntries(Undeclared, g.members))) else g;
    var c := ContextFor(s, r.authority, ADMIN_WITHDRAW, event);
    EndShows(s, g, t, c, r, WITHDRAWN_OK);
    var g' := Withdraw(s, r).state.groups[r.group];
    Permission.LegalExactly(g.lifecycle, event);
    Permission.EndsExactly(g.lifecycle, event, InputsOf(g'));
    Marked(t, g');
    if completing {
      NobodyDeclared(t, g');
    } else {
      DerivedOf(g, s.limits);
      EntriesShown(g, t, g');
    }
  }

  lemma RevokedAs(s: State, r: Request)
    requires Inv(s) && r.RevokeGroup? && Preamble(s, r, REVOKE).None?
    ensures r.group in s.groups && r.group in Revoke(s, r).state.groups
    ensures EndedAs(r, s.groups[r.group], Revoke(s, r).state.groups[r.group])
  {
    hide Preamble, Finish, LifecycleAllows, Loose, GroupOk, Inv, Shows, ApplyGroupEvent, AllDisabled;
    Ready(s, r, REVOKE);
    var g := s.groups[r.group];
    var t := Retiring(g.(members := MapEntries(Disabled, g.members)));
    EndShows(s, g, t, ContextFor(s, r.authority, ADMIN_REVOKE, REVOKE), r, REVOKED_OK);
    var g' := Revoke(s, r).state.groups[r.group];
    Permission.LegalExactly(g.lifecycle, REVOKE);
    Permission.EndsExactly(g.lifecycle, REVOKE, InputsOf(g'));
    Marked(t, g');
    EverybodyDisabled(g, t, g');
  }

  lemma RetiredChange(g: Group)
    ensures var t := Retiring(g.(members := MapEntries(RetiredEntry, g.members), plan := None));
            && SameLedger(g, t) && SamePlaces(g.members, t.members) && t.lifecycle == g.lifecycle && t.id == g.id
            && (forall i :: 0 <= i < |t.members| ==> !t.members[i].record.declared) && NobodyEligible(t.members)
            && t.successor == g.successor && t.plan.None? && t.currentness == g.currentness.(retired := true)
  {
  }

  lemma RetiredAs(s: State, r: Request)
    requires Inv(s) && r.RetireGroup? && Preamble(s, r, RETIRE).None?
    ensures r.group in s.groups && r.group in Retire(s, r).state.groups
    ensures EndedAs(r, s.groups[r.group], Retire(s, r).state.groups[r.group])
  {
    hide Preamble, Finish, LifecycleAllows, Loose, GroupOk, Inv, Shows, ApplyGroupEvent, Retiring, MapEntries, RetiredEntry,
         NobodyEligible, SameLedger, SamePlaces, DeclaredIds, ActiveIds, InputsOf;
    Ready(s, r, RETIRE);
    var g := s.groups[r.group];
    var t := Retiring(g.(members := MapEntries(RetiredEntry, g.members), plan := None));
    RetiredChange(g);
    EndShows(s, g, t, ContextFor(s, r.authority, ADMIN_WITHDRAW, RETIRE), r, RETIRED_OK);
    var g' := Retire(s, r).state.groups[r.group];
    Permission.LegalExactly(g.lifecycle, RETIRE);
    Permission.EndsExactly(g.lifecycle, RETIRE, InputsOf(g'));
    Marked(t, g');
    NobodyDeclared(t, g');
  }

  lemma SupersededAs(s: State, r: Request)
    requires Inv(s) && r.SupersedeGroup? && Supersede(s, r).outcome == SUPERSEDED_OK
    ensures r.group in s.groups && r.group in Supersede(s, r).state.groups
    ensures EndedAs(r, s.groups[r.group], Supersede(s, r).state.groups[r.group])
  {
    hide Preamble, Finish, LifecycleAllows, Loose, GroupOk, Inv, Shows, ApplyGroupEvent, AllDisabled, StepOk, IsClosed;
    if Preamble(s, r, SUPERSEDE).Some? {
      RefusalIsNotAccepted(s, r, SUPERSEDE);
    } else {
      Ready(s, r, SUPERSEDE);
      var g := s.groups[r.group];
      if r.successor in s.groups && r.successor != g.id && r.successor != NIL {
        ClosedOutcome(s.groups[r.successor].lifecycle);
        if !IsClosed(s.groups[r.successor].lifecycle) {
          IdsMatch(s, r.successor);
          LinkedOk(s, r.successor, g.id);
          var linked := Stored(s, s.groups[r.successor].(predecessor := g.id));
          LinkedInv(s, linked);
          SupersededShown(s, r, g, linked);
        }
      }
    }
  }

  lemma SupersededShown(s: State, r: Request, g: Group, linked: State)
    requires Inv(s) && r.SupersedeGroup? && Preamble(s, r, SUPERSEDE).None? && r.group in s.groups
    requires s.groups[r.group] == g && g.id == r.group && Loose(g, s.limits) && g.successor == NIL
    requires |DeclaredIds(g.members)| <= s.limits.maxMembersPerGroup && LifecycleAllows(g.lifecycle, SUPERSEDE)
    requires r.successor in s.groups && r.successor != NIL && r.successor != g.id
    requires s.groups[r.successor].id == r.successor && !IsClosed(s.groups[r.successor].lifecycle)
    requires linked == Stored(s, s.groups[r.successor].(predecessor := g.id)) && Inv(linked)
    ensures r.group in Supersede(s, r).state.groups && EndedAs(r, g, Supersede(s, r).state.groups[r.group])
  {
    hide Preamble, Finish, LifecycleAllows, Loose, GroupOk, Inv, Shows, ApplyGroupEvent, AllDisabled, IsClosed;
    var t := Retiring(g.(members := MapEntries(Disabled, g.members), plan := None, successor := r.successor));
    EndShows(linked, g, t, ContextFor(s, r.authority, SUPERSESSION, SUPERSEDE), r, SUPERSEDED_OK);
    var g' := Supersede(s, r).state.groups[r.group];
    Permission.LegalExactly(g.lifecycle, SUPERSEDE);
    Permission.EndsExactly(g.lifecycle, SUPERSEDE, InputsOf(g'));
    Marked(t, g');
    EverybodyDisabled(g, t, g');
  }

  /** An accepted administrative request leaves its group in the one lifecycle it stands for, with the members and the map
      that go with it. */
  lemma EndedEffect(s: State, r: Request, up: Upstream)
    requires Inv(s) && IsEndRequest(r) && CarriedOut(Serve(s, r, up).outcome)
    ensures r.group in s.groups && r.group in Serve(s, r, up).state.groups
    ensures EndedAs(r, s.groups[r.group], Serve(s, r, up).state.groups[r.group])
  {
    hide Preamble, Finish, Inv, EndedAs, Supersede, Retiring;
    var event := Permission.EventOf(s, r);
    PreambleEffect(s, r, event);
    if r.SupersedeGroup? {
      SupersedeSucceeds(s, r);
      SupersededAs(s, r);
    } else if Preamble(s, r, event).None? {
      match r
      case WithdrawGroup(_, _, _) => WithdrawnAs(s, r);
      case RevokeGroup(_, _, _) => RevokedAs(s, r);
      case RetireGroup(_, _, _) => RetiredAs(s, r);
    }
  }

  lemma SupersedeSucceeds(s: State, r: Request)
    requires Inv(s) && r.SupersedeGroup? && CarriedOut(Supersede(s, r).outcome)
    ensures Supersede(s, r).outcome == SUPERSEDED_OK
  {
    hide Preamble, Refresh, Inv, IsClosed, RememberAttempt, PayloadOf;
    PreambleEffect(s, r, SUPERSEDE);
    if Preamble(s, r, SUPERSEDE).None? && r.successor in s.groups { ClosedOutcome(s.groups[r.successor].lifecycle); }
  }

  // ----- Exactly when -----

  /** Past the common checks an abort is carried out exactly when it names the pending plan. */
  lemma AbortedExactly(s: State, r: Request)
    requires r.AbortRebalance? && Preamble(s, r, ABORT_REBALANCE).None?
    ensures r.group in s.groups
    ensures var g := s.groups[r.group];
            Abort(s, r).outcome ==
            if g.plan.Some? && g.plan.value.id == r.plan then REBALANCE_ABORTED else NO_PENDING_PLAN
  {
    hide Preamble, Finish, LifecycleAllows;
    Refusals.PassedLifecycle(s, r, ABORT_REBALANCE);
    Refusals.FinishSucceeds(s, s.groups[r.group].(plan := None),
                            ContextFor(s, r.authority, ChangeReason.PLAN_ABORTED, ABORT_REBALANCE), r, REBALANCE_ABORTED);
  }

  /** The successor a supersession names is another, known group in service. */
  predicate MaySucceed(s: State, r: Request)
    requires r.SupersedeGroup?
  {
    r.successor != NIL && r.successor != r.group && r.successor in s.groups && InService(s.groups[r.successor].lifecycle)
  }

  lemma RetiringKeepsLifecycle(g: Group)
    ensures Retiring(g).lifecycle == g.lifecycle
  {
  }

  lemma SupersededExactly(s: State, r: Request)
    requires Inv(s) && r.SupersedeGroup? && Preamble(s, r, SUPERSEDE).None?
    ensures CarriedOut(Supersede(s, r).outcome) <==> MaySucceed(s, r)
  {
    hide Preamble, Supersede, Inv;
    Answers.SupersedeAnswered(s, r);
  }

  lemma WithdrawSucceeds(s: State, r: Request)
    requires r.WithdrawGroup? && Preamble(s, r, Permission.EventOf(s, r)).None?
    ensures Withdraw(s, r).outcome == WITHDRAWN_OK
  {
    hide Preamble, Finish, LifecycleAllows, Retiring, MapEntries;
    var event := Permission.EventOf(s, r);
    Refusals.PassedLifecycle(s, r, event);
    var g := s.groups[r.group];
    var ended := g.(members := MapEntries(Undeclared, g.members));
    RetiringKeepsLifecycle(ended);
    Refusals.FinishSucceeds(s, if event.COMPLETE_WITHDRAW? then Retiring(ended) else g,
                            ContextFor(s, r.authority, ADMIN_WITHDRAW, event), r, WITHDRAWN_OK);
  }

  lemma RevokeSucceeds(s: State, r: Request)
    requires r.RevokeGroup? && Preamble(s, r, REVOKE).None?
    ensures Revoke(s, r).outcome == REVOKED_OK
  {
    hide Preamble, Finish, LifecycleAllows, Retiring, MapEntries;
    Refusals.PassedLifecycle(s, r, REVOKE);
    var t := s.groups[r.group].(members := MapEntries(Disabled, s.groups[r.group].members));
    RetiringKeepsLifecycle(t);
    Refusals.FinishSucceeds(s, Retiring(t), ContextFor(s, r.authority, ADMIN_REVOKE, REVOKE), r, REVOKED_OK);
  }

  lemma RetireSucceeds(s: State, r: Request)
    requires r.RetireGroup? && Preamble(s, r, RETIRE).None?
    ensures Retire(s, r).outcome == RETIRED_OK
  {
    hide Preamble, Finish, LifecycleAllows, Retiring, MapEntries;
    Refusals.PassedLifecycle(s, r, RETIRE);
    var t := s.groups[r.group].(members := MapEntries(RetiredEntry, s.groups[r.group].members), plan := None);
    RetiringKeepsLifecycle(t);
    Refusals.FinishSucceeds(s, Retiring(t), ContextFor(s, r.authority, ADMIN_WITHDRAW, RETIRE), r, RETIRED_OK);
  }

  /** Past the common checks every withdrawal, revocation and retirement is carried out, and a supersession exactly when
      its successor may succeed. */
  lemma EndedExactly(s: State, r: Request, up: Upstream)
    requires Inv(s) && IsEndRequest(r) && Preamble(s, r, Permission.EventOf(s, r)).None?
    ensures CarriedOut(Serve(s, r, up).outcome) <==> !r.SupersedeGroup? || MaySucceed(s, r)
  {
    hide Preamble, Inv, MaySucceed, Withdraw, Revoke, Retire, Supersede;
    match r
    case WithdrawGroup(_, _, _) => WithdrawSucceeds(s, r);
    case RevokeGroup(_, _, _) => RevokeSucceeds(s, r);
    case RetireGroup(_, _, _) => RetireSucceeds(s, r);
    case SupersedeGroup(_, _, _) => SupersededExactly(s, r);
  }

  // ----- History -----

  /** The entry that a change writes: the generations it leads to, who asked for it and why, how many buckets it moved, the
      plan that was pending, and the members and the map it leads to. */
  ghost predicate Tells(h: HistoryEntry, before: Group, after: Group, c: Context) {
    && h.membershipGen == after.membershipGen && h.assignmentGen == after.assignmentGen
    && h.authorityGen == after.authorityGen && h.reason == c.reason && h.publisher == c.publisher && h.epoch == c.epoch
    && (c.recompute ==> |after.owners| == |before.owners| && h.churn == h.movesRecorded == Churn(before.owners, after.owners))
    && h.plan == (if after.plan.Some? then Some(after.plan.value.id) else None)
    && h.assignmentDigest == after.owners && |h.membershipDigest| == |after.members|
    && forall i :: 0 <= i < |after.members| ==> h.membershipDigest[i] == after.members[i].record
  }

  /** The history goes on with one entry and forgets the oldest ones over its bound. */
  ghost predicate Chronicled(before: Group, after: Group, c: Context, maxHistory: nat) {
    if after.membershipGen == before.membershipGen && after.assignmentGen == before.assignmentGen &&
       after.authorityGen == before.authorityGen && after.lifecycle == before.lifecycle
    then after.history == before.history
    else
      exists h :: && Tells(h, before, after, c)
                  && (|before.history| < maxHistory ==> after.history == before.history + [h])
                  && (|before.history| >= maxHistory > 0 ==>
                        |after.history| == maxHistory && after.history[maxHistory - 1] == h &&
                        after.history[..maxHistory - 1] == before.history[|before.history| - maxHistory + 1..])
  }

  lemma ChurnRecorded(g: Group, f: Group, c: Context, maxHistory: nat)
    requires |g.owners| == g.bucketCount && c.recompute && f == Refresh(g, c, maxHistory).group
    requires f.assignmentGen == g.assignmentGen + (if f.owners == g.owners then 0 else 1)
    ensures |f.owners| == |g.owners|
    ensures var moved := f.lastRebalance.Some? && f.assignmentGen != g.assignmentGen;
            && (if moved then f.lastRebalance.value.churn else 0) == Churn(g.owners, f.owners)
            && (if moved then |f.lastRebalance.value.moves| else 0) == Churn(g.owners, f.owners)
  {
    hide Refresh, Moves, Transforms;
    RefreshRecordsTheDiff(g, c, maxHistory);
    MovesTransform(g.owners, f.owners, ActiveIds(f.members));
    CountOfMoves(Moves(g.owners, f.owners, ActiveIds(f.members)), g.owners, f.owners);
  }

  /** Every refresh under a legal event writes exactly one history entry when it moved a generation or the lifecycle, and
      none otherwise. */
  lemma RefreshIsChronicled(g: Group, c: Context, limits: Limits)
    requires Loose(g, limits) && LifecycleAllows(g.lifecycle, c.event) && 0 < limits.maxHistory
    ensures Chronicled(g, Refresh(g, c, limits.maxHistory).group, c, limits.maxHistory)
  {
    hide Loose, LifecycleAllows, ApplyGroupEvent, Settle, Rebalanced, Derived, Advances;
    RefreshFacts(g, c, limits);
    SettleFacts(g, c, limits);
    LooseOwners(g, limits);
    var f := Refresh(g, c, limits.maxHistory).group;
    if c.recompute { ChurnRecorded(g, f, c, limits.maxHistory); }
    ChronicleTells(g, Settle(g, c).(lifecycle := f.lifecycle), c, limits.maxHistory);
  }

  lemma ChronicleTells(before: Group, g: Group, c: Context, maxHistory: nat)
    requires g.currentness == before.currentness && g.history == before.history && 0 < maxHistory
    requires |before.history| <= maxHistory
    requires c.recompute ==>
               var moved := g.lastRebalance.Some? && g.assignmentGen != before.assignmentGen;
               && |g.owners| == |before.owners|
               && (if moved then g.lastRebalance.value.churn else 0) == Churn(before.owners, g.owners)
               && (if moved then |g.lastRebalance.value.moves| else 0) == Churn(before.owners, g.owners)
    ensures Chronicled(before, Chronicle(before, g, c, maxHistory), c, maxHistory)
  {
    hide Trim, RecordsOf, Churn;
    var f := Chronicle(before, g, c, maxHistory);
    forall h: HistoryEntry ensures Newest(g.history, h, Trim(g.history + [h], maxHistory), maxHistory) {
      TrimOne(g.history, h, maxHistory);
    }
    RecordsTold(g.members);
    if f != g {
      var h := f.history[|f.history| - 1];
      assert Tells(h, before, f, c);
    }
  }

  lemma RecordsTold(ms: seq<MemberEntry>)
    ensures |RecordsOf(ms)| == |ms| && forall i :: 0 <= i < |ms| ==> RecordsOf(ms)[i] == ms[i].record
  {
  }

  /** The history with one entry more, and without the oldest ones over its bound. */
  ghost predicate Newest(hs: seq<HistoryEntry>, h: HistoryEntry, r: seq<HistoryEntry>, max: nat)
    requires |hs| <= max
  {
    && |r| > 0 && r[|r| - 1] == h && (|hs| < max ==> r == hs + [h])
    && (|hs| >= max > 0 ==> |r| == max && r[..max - 1] == hs[|hs| - max + 1..])
  }

  lemma TrimOne(hs: seq<HistoryEntry>, h: HistoryEntry, max: nat)
    requires 0 < max && |hs| <= max
    ensures Newest(hs, h, Trim(hs + [h], max), max)
  {
  }
}
