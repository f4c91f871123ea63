/** The end of a group: closed groups never reopen, and following successor links always ends. */
module Endings {
  import opened Prelude
  import opened Assignment
  import opened Lifecycle
  import opened Records
  import opened Groups
  import opened GroupProofs
  import opened Governor
  import opened Invariants
  import opened Runs

  predicate IsEndRequest(r: Request) {
    r.WithdrawGroup? || r.RevokeGroup? || r.RetireGroup? || r.SupersedeGroup?
  }

  /** A group that request r must leave alone unless it ends groups: another one, or one that is closed. */
  predicate Untouched(s: State, r: Request, id: Id) {
    id in s.groups && (id != r.group || IsClosed(s.groups[id].lifecycle))
  }

  /** A closed group lets nothing through but the administrative events. */
  lemma ClosedRefuses(s: State, r: Request, event: GroupEvent)
    requires r.group in s.groups && IsClosed(s.groups[r.group].lifecycle)
    requires IsOrdinary(event) || event.PLAN_REBALANCE? || event.COMMIT_REBALANCE? || event.ABORT_REBALANCE?
    ensures Preamble(s, r, event).Some?
  {
  }

  /** No group but the created one is new, and that one has neither successor nor plan. */
  ghost predicate OnlyCreates(s: State, r: Request, s': State) {
    forall x :: x in s'.groups && x !in s.groups ==>
      r.CreateGroup? && x == r.group && s'.groups[x].successor == NIL && s'.groups[x].plan.None?
  }

  /** What an ordinary request leaves of any group: its successor link, and all of it when it is not concerned. */
  ghost predicate Kept(s: State, r: Request, id: Id, s': State)
    requires id in s.groups
  {
    && id in s'.groups && s'.groups[id].successor == s.groups[id].successor
    && (Untouched(s, r, id) ==> s'.groups[id] == s.groups[id])
  }

  /** Finishing a change of one group stores that group only, with the links it had. */
  lemma FinishStores(s: State, g: Group, c: Context, r: Request, success: Outcome, id: Id)
    requires id in s.groups && (id == g.id ==> s.groups[id].successor == g.successor)
    ensures var s' := Finish(s, g, c, r, success).state;
            && id in s'.groups && s'.groups[id].successor == s.groups[id].successor
            && (id != g.id ==> s'.groups[id] == s.groups[id]) && s'.groups.Keys == s.groups.Keys + {g.id}
  {
    var f := Refresh(g, c, s.limits.maxHistory);
    RefreshKeepsId(g, c, s.limits.maxHistory);
    hide Refresh;
    var done := f.group.(members := Evict(f.group.members, s.limits.maxMembersPerGroup));
    AttemptsOnly(Stored(s, done), r.authority.attempt, AttemptEntry(PayloadOf(r), success, g.id));
  }

  lemma KeptByFinish(s: State, g: Group, c: Context, r: Request, success: Outcome, id: Id)
    requires r.group in s.groups && g.id == r.group && s.groups[g.id].successor == g.successor
    requires !IsClosed(s.groups[r.group].lifecycle) && id in s.groups
    ensures var s' := Finish(s, g, c, r, success).state; Kept(s, r, id, s') && OnlyCreates(s, r, s')
  {
    hide Finish, IsClosed;
    FinishStores(s, g, c, r, success, id);
  }

  lemma KeptStored(s: State, r: Request, id: Id, g: Group, s': State)
    requires id in s.groups && r.group in s.groups && g.id == r.group && s.groups[g.id].successor == g.successor
    requires !IsClosed(s.groups[r.group].lifecycle)
    requires s'.groups == s.groups || s'.groups == s.groups[g.id := g]
    ensures Kept(s, r, id, s') && OnlyCreates(s, r, s')
  {
    hide IsClosed;
  }

  lemma KeptUnchanged(s: State, r: Request, id: Id)
    requires id in s.groups
    ensures Kept(s, r, id, s) && OnlyCreates(s, r, s)
  {
  }

  lemma SettleKeepsId(g: Group, c: Context)
    ensures var g' := Settle(g, c); g'.id == g.id && g'.successor == g.successor && g'.plan == g.plan
  {
    hide Padded, Rebalanced, Moves, ActiveIds, DeclaredIds, MapEntries;
  }

  lemma RefreshKeepsId(g: Group, c: Context, maxHistory: nat)
    ensures var g' := Refresh(g, c, maxHistory).group;
            g'.id == g.id && g'.successor == g.successor && g'.plan == g.plan
  {
    hide Settle, ApplyGroupEvent, InputsOf;
    SettleKeepsId(g, c);
  }

  lemma UpdatedId(s: State, r: Request, up: Upstream)
    requires r.Revalidate? && r.group in s.groups
    ensures var g, g' := s.groups[r.group], Updated(s, r, up); g'.id == g.id && g'.successor == g.successor
  {
    UpdatedTweaks(s, r, up);
  }

  /** A request that does not end groups leaves every other group, and every closed group, exactly as it is, and no
      group gets a successor. */
  lemma OrdinaryKeepsClosed(s: State, r: Request, up: Upstream, id: Id)
    requires Inv(s) && id in s.groups && !IsEndRequest(r)
    ensures Kept(s, r, id, Serve(s, r, up).state) && OnlyCreates(s, r, Serve(s, r, up).state)
  {
    hide Create, Add, Remove, Enable, Apply, Revalidation, Planning, Commit, Abort, Inv;
    match r
    case CreateGroup(_, _, _, _, _, _, _, _, _, _, _, _) => CreateKeeps(s, r, up, id);
    case AddMember(_, _, _) => AddKeeps(s, r, up, id);
    case RemoveMember(_, _, _) => RemoveKeeps(s, r, id);
    case SetEnabled(_, _, _, _) => EnableKeeps(s, r, up, id);
    case ApplySet(_, _, _) => ApplyKeeps(s, r, up, id);
    case Revalidate(_, _, _, _) => RevalidationKeeps(s, r, up, id);
    case PlanRebalance(_, _, _) => PlanningKeeps(s, r, up, id);
    case CommitRebalance(_, _, _) => CommitKeeps(s, r, id);
    case AbortRebalance(_, _, _) => AbortKeeps(s, r, id);
  }

  lemma IdsMatch(s: State, id: Id)
    requires Inv(s) && id in s.groups
    ensures s.groups[id].id == id
  {
  }

  lemma CreateKeeps(s: State, r: Request, up: Upstream, id: Id)
    requires Inv(s) && r.CreateGroup? && id in s.groups
    ensures Kept(s, r, id, Create(s, r, up).state)
    ensures OnlyCreates(s, r, Create(s, r, up).state)
  {
    hide Refresh, RememberAttempt, CheckNewMembers, GroupsOk, Inv, KeyTaken, Total, Authorize, HandleAttempt;
    if CheckCreation(s, r).None? && CheckNewMembers(up, r, 0).None? && |r.members| > 0 {
      var c := ContextFor(s, r.authority, ChangeReason.CREATE, GroupEvent.ADD_MEMBER);
      var f := Refresh(NewGroup(s, r), c, s.limits.maxHistory);
      RefreshKeepsId(NewGroup(s, r), c, s.limits.maxHistory);
      AttemptsOnly(Stored(s, f.group), r.authority.attempt, AttemptEntry(PayloadOf(r), CREATED, r.group));
    }
  }

  lemma AddKeeps(s: State, r: Request, up: Upstream, id: Id)
    requires Inv(s) && r.AddMember? && id in s.groups
    ensures Kept(s, r, id, Add(s, r, up).state) && OnlyCreates(s, r, Add(s, r, up).state)
  {
    hide Preamble, Finish, Inv, Kept, OnlyCreates, WithMember, ValidateFor, IsClosed, LifecycleAllows, Total;
    KeptUnchanged(s, r, id);
    if Preamble(s, r, GroupEvent.ADD_MEMBER).None? {
      Ready(s, r, GroupEvent.ADD_MEMBER);
      if IsClosed(s.groups[r.group].lifecycle) { ClosedRefuses(s, r, GroupEvent.ADD_MEMBER); assert false; }
      var g := s.groups[r.group];
      KeptByFinish(s, g.(members := WithMember(g.members, r.spec)),
                   ContextFor(s, r.authority, ChangeReason.ADD_MEMBER, GroupEvent.ADD_MEMBER), r, MEMBER_ADDED, id);
    }
  }

  lemma RemoveKeeps(s: State, r: Request, id: Id)
    requires Inv(s) && r.RemoveMember? && id in s.groups
    ensures Kept(s, r, id, Remove(s, r).state) && OnlyCreates(s, r, Remove(s, r).state)
  {
    hide Preamble, Finish, Inv, Kept, OnlyCreates, IsClosed, LifecycleAllows;
    KeptUnchanged(s, r, id);
    if Preamble(s, r, GroupEvent.REMOVE_MEMBER).None? {
      Ready(s, r, GroupEvent.REMOVE_MEMBER);
      if IsClosed(s.groups[r.group].lifecycle) { ClosedRefuses(s, r, GroupEvent.REMOVE_MEMBER); assert false; }
      var g := s.groups[r.group];
      var i := Locate(g.members, r.member);
      if i < |g.members| {
        KeptByFinish(s, g.(members := g.members[i := Departing(g.members[i])]),
                     ContextFor(s, r.authority, ChangeReason.REMOVE_MEMBER, GroupEvent.REMOVE_MEMBER), r,
                     MEMBER_REMOVED, id);
      }
    }
  }

  lemma EnableKeeps(s: State, r: Request, up: Upstream, id: Id)
    requires Inv(s) && r.SetEnabled? && id in s.groups
    ensures Kept(s, r, id, Enable(s, r, up).state) && OnlyCreates(s, r, Enable(s, r, up).state)
  {
    hide Preamble, Finish, Inv, Kept, OnlyCreates, IsClosed, LifecycleAllows, ValidateFor, RememberAttempt;
    KeptUnchanged(s, r, id);
    var event := if r.enabled then GroupEvent.ENABLE_MEMBER else GroupEvent.DISABLE_MEMBER;
    var reason := if r.enabled then ChangeReason.ENABLE_MEMBER else ChangeReason.DISABLE_MEMBER;
    if Preamble(s, r, event).None? {
      Ready(s, r, event);
      if IsClosed(s.groups[r.group].lifecycle) { ClosedRefuses(s, r, event); assert false; }
      var g := s.groups[r.group];
      var i := Locate(g.members, r.member);
      AttemptsOnly(s, r.authority.attempt, AttemptEntry(PayloadOf(r), NO_CHANGE, g.id));
      KeptStored(s, r, id, g, RememberAttempt(s, r.authority.attempt, AttemptEntry(PayloadOf(r), NO_CHANGE, g.id)));
      if i < |g.members| {
        var e := if r.enabled then Enabling(g.members[i]) else Disabled(g.members[i]);
        KeptByFinish(s, g.(members := g.members[i := e]), ContextFor(s, r.authority, reason, event), r,
                     if r.enabled then MEMBER_ENABLED else MEMBER_DISABLED, id);
      }
    }
  }

  lemma ApplyKeeps(s: State, r: Request, up: Upstream, id: Id)
    requires Inv(s) && r.ApplySet? && id in s.groups
    ensures Kept(s, r, id, Apply(s, r, up).state) && OnlyCreates(s, r, Apply(s, r, up).state)
  {
    hide Preamble, Refresh, Inv, IsClosed, LifecycleAllows, CheckSetRequest, RememberAttempt, ApplyTarget, TargetContext;
    if Preamble(s, r, GroupEvent.ADD_MEMBER).None? {
      Ready(s, r, GroupEvent.ADD_MEMBER);
      if IsClosed(s.groups[r.group].lifecycle) { ClosedRefuses(s, r, GroupEvent.ADD_MEMBER); assert false; }
      var g := s.groups[r.group];
      var t, c := Retargeted(g, r.members), TargetContext(s, r.authority, g, r.members);
      RefreshKeepsId(t, c, s.limits.maxHistory);
      var f := Refresh(t, c, s.limits.maxHistory);
      var done := f.group.(members := Evict(f.group.members, s.limits.maxMembersPerGroup));
      AttemptsOnly(Stored(s, done), r.authority.attempt,
                   AttemptEntry(PayloadOf(r), if f.group.assignmentGen != g.assignmentGen then REBALANCED else NO_CHANGE,
                                g.id));
    }
  }

  lemma RevalidationKeeps(s: State, r: Request, up: Upstream, id: Id)
    requires Inv(s) && r.Revalidate? && id in s.groups
    ensures Kept(s, r, id, Revalidation(s, r, up).state) && OnlyCreates(s, r, Revalidation(s, r, up).state)
  {
    hide Preamble, Finish, Inv, Kept, OnlyCreates, IsClosed, LifecycleAllows, ApplyUpdates, Adopt, CheckAdoption,
         CheckMultipathUpdate, Restored, AdoptionNeeded, RepeatsMember;
    KeptUnchanged(s, r, id);
    if Preamble(s, r, GroupEvent.REVALIDATE).None? {
      Ready(s, r, GroupEvent.REVALIDATE);
      if IsClosed(s.groups[r.group].lifecycle) { ClosedRefuses(s, r, GroupEvent.REVALIDATE); assert false; }
      UpdatedId(s, r, up);
      var updated := Updated(s, r, up);
      KeptStored(s, r, id, updated, Stored(s, updated));
      RestoredLedger(up, updated, r.newMultipathGen);
      KeptByFinish(s, Restored(up, WithMultipath(updated, r.newMultipathGen)),
                   ContextFor(s, r.authority, ChangeReason.REVALIDATION, GroupEvent.REVALIDATE), r, REVALIDATED, id);
    }
  }

  lemma PlanningKeeps(s: State, r: Request, up: Upstream, id: Id)
    requires Inv(s) && r.PlanRebalance? && id in s.groups
    ensures Kept(s, r, id, Planning(s, r, up).state) && OnlyCreates(s, r, Planning(s, r, up).state)
  {
    hide Preamble, Finish, Inv, Kept, OnlyCreates, IsClosed, LifecycleAllows, CheckPlanRequest, Refresh,
         PlanFor, Retargeted, TargetContext;
    KeptUnchanged(s, r, id);
    if Preamble(s, r, PLAN_REBALANCE).None? {
      Ready(s, r, PLAN_REBALANCE);
      if IsClosed(s.groups[r.group].lifecycle) { ClosedRefuses(s, r, PLAN_REBALANCE); assert false; }
      var g := s.groups[r.group];
      var f := Refresh(Retargeted(g, r.members), TargetContext(s, r.authority, g, r.members), s.limits.maxHistory);
      KeptByFinish(s, g.(plan := Some(PlanFor(s, r, g, f.group))),
                   ContextFor(s, r.authority, ChangeReason.REVALIDATION, PLAN_REBALANCE), r, REBALANCE_PLANNED, id);
    }
  }

  lemma CommitKeeps(s: State, r: Request, id: Id)
    requires Inv(s) && r.CommitRebalance? && id in s.groups
    ensures Kept(s, r, id, Commit(s, r).state) && OnlyCreates(s, r, Commit(s, r).state)
  {
    hide Preamble, Finish, Inv, Kept, OnlyCreates, IsClosed, LifecycleAllows, ApplyTarget;
    KeptUnchanged(s, r, id);
    if Preamble(s, r, COMMIT_REBALANCE).None? {
      Ready(s, r, COMMIT_REBALANCE);
      if IsClosed(s.groups[r.group].lifecycle) { ClosedRefuses(s, r, COMMIT_REBALANCE); assert false; }
      var g := s.groups[r.group];
      if g.plan.Some? {
        KeptByFinish(s, Retargeted(g.(plan := None), g.plan.value.targetMembers),
                     ContextFor(s, r.authority, ChangeReason.REBALANCE_COMMIT, COMMIT_REBALANCE), r, REBALANCED, id);
      }
    }
  }

  lemma AbortKeeps(s: State, r: Request, id: Id)
    requires Inv(s) && r.AbortRebalance? && id in s.groups
    ensures Kept(s, r, id, Abort(s, r).state) && OnlyCreates(s, r, Abort(s, r).state)
  {
    hide Preamble, Finish, Inv, Kept, OnlyCreates, IsClosed, LifecycleAllows;
    KeptUnchanged(s, r, id);
    if Preamble(s, r, ABORT_REBALANCE).None? {
      Ready(s, r, ABORT_REBALANCE);
      if IsClosed(s.groups[r.group].lifecycle) { ClosedRefuses(s, r, ABORT_REBALANCE); assert false; }
      var g := s.groups[r.group];
      KeptByFinish(s, g.(plan := None),
                   ContextFor(s, r.authority, ChangeReason.PLAN_ABORTED, ABORT_REBALANCE), r, REBALANCE_ABORTED, id);
    }
  }

  // ----- Administrative requests -----

  /** The lifecycle moved strictly closer to the end and is still closed. */
  predicate Descended(before: GroupLifecycle, after: GroupLifecycle) {
    IsClosed(after) && ClosedRank(after) < ClosedRank(before)
  }

  /** What an accepted administrative end does to its group, whatever the change before the refresh. */
  lemma EndDescends(s: State, g: Group, g': Group, c: Context, r: Request, success: Outcome)
    requires Inv(s) && g.id in s.groups && s.groups[g.id] == g && Loose(g, s.limits)
    requires SameLedger(g, g') && SamePlaces(g.members, g'.members) && g'.lifecycle == g.lifecycle
    requires forall i :: 0 <= i < |g.members| && g'.members[i].record.declared ==> g.members[i].record.declared
    requires LifecycleAllows(g.lifecycle, c.event) && (EndsGroup(c.event) || c.event.WITHDRAW?)
    ensures var s' := Finish(s, g', c, r, success).state;
            && g.id in s'.groups && Descended(g.lifecycle, s'.groups[g.id].lifecycle)
            && s'.groups[g.id].successor == g'.successor
  {
    hide Loose, Inv, Advances, LifecycleAllows, ApplyGroupEvent;
    LedgerKeepsLoose(g, g', s.limits);
    RefreshFacts(g', c, s.limits);
    var f := Refresh(g', c, s.limits.maxHistory);
    hide Refresh;
    EndingEventDescends(g.lifecycle, c.event, InputsOf(f.group));
    var done := f.group.(members := Evict(f.group.members, s.limits.maxMembersPerGroup));
    AttemptsOnly(Stored(s, done), r.authority.attempt, AttemptEntry(PayloadOf(r), success, g'.id));
  }

  /** An administrative event always brings a group strictly closer to the end. */
  lemma EndingEventDescends(state: GroupLifecycle, e: GroupEvent, inputs: LifecycleInputs)
    requires LifecycleAllows(state, e) && (EndsGroup(e) || e.WITHDRAW?)
    ensures ApplyGroupEvent(state, e, inputs).Some? && Descended(state, ApplyGroupEvent(state, e, inputs).value)
  {
  }

  /** An administrative request either changes no group or ends its own; a supersession also names itself in its
      successor, which is open and stays what it was otherwise. */
  ghost predicate EndEffect(s: State, r: Request, a: Answer) {
    if a.outcome.Accepted() && a.outcome != IDEMPOTENT then
      && r.group in s.groups && r.group in a.state.groups
      && Descended(s.groups[r.group].lifecycle, a.state.groups[r.group].lifecycle)
      && a.state.groups.Keys == s.groups.Keys
      && (if r.SupersedeGroup? then
            && r.successor in s.groups && r.successor != r.group && r.successor != NIL
            && !IsClosed(s.groups[r.successor].lifecycle)
            && a.state.groups[r.successor] == s.groups[r.successor].(predecessor := r.group)
            && s.groups[r.group].successor == NIL && a.state.groups[r.group].successor == r.successor
          else a.state.groups[r.group].successor == s.groups[r.group].successor)
      && (forall id :: id in s.groups && id != r.group && !(r.SupersedeGroup? && id == r.successor) ==>
            a.state.groups[id] == s.groups[id])
    else a.state == s
  }

  lemma FinishKeys(s: State, g: Group, c: Context, r: Request, success: Outcome)
    requires g.id in s.groups
    ensures Finish(s, g, c, r, success).state.groups.Keys == s.groups.Keys
  {
    RefreshKeepsId(g, c, s.limits.maxHistory);
    hide Refresh;
    var f := Refresh(g, c, s.limits.maxHistory);
    var done := f.group.(members := Evict(f.group.members, s.limits.maxMembersPerGroup));
    AttemptsOnly(Stored(s, done), r.authority.attempt, AttemptEntry(PayloadOf(r), success, g.id));
  }

  /** The answer a ends group g of s and leaves every other group of s alone. */
  ghost predicate EndsOnly(s: State, g: Group, successor: Id, success: Outcome, a: Answer) {
    && a.outcome == success && g.id in a.state.groups && a.state.groups.Keys == s.groups.Keys
    && Descended(g.lifecycle, a.state.groups[g.id].lifecycle) && a.state.groups[g.id].successor == successor
    && forall id :: id in s.groups && id != g.id ==> a.state.groups[id] == s.groups[id]
  }

  lemma EndsOne(s: State, g: Group, g': Group, c: Context, r: Request, success: Outcome)
    requires Inv(s) && g.id in s.groups && s.groups[g.id] == g && Loose(g, s.limits)
    requires SameLedger(g, g') && SamePlaces(g.members, g'.members) && g'.lifecycle == g.lifecycle
    requires |DeclaredIds(g.members)| <= s.limits.maxMembersPerGroup && c.recompute
    requires forall i :: 0 <= i < |g.members| && g'.members[i].record.declared ==> g.members[i].record.declared
    requires LifecycleAllows(g.lifecycle, c.event) && (EndsGroup(c.event) || c.event.WITHDRAW?)
    requires EndsGroup(c.event) ==> NobodyEligible(g'.members)
    requires g'.successor != NIL ==> c.event.SUPERSEDE? || c.event.RETIRE?
    ensures EndsOnly(s, g, g'.successor, success, Finish(s, g', c, r, success))
  {
    hide Finish, Loose, LifecycleAllows, Inv, Descended;
    EndDescends(s, g, g', c, r, success);
    EndOk(s, g, g', c, r, success);
    FinishKeys(s, g', c, r, success);
    forall id | id in s.groups && id != g.id ensures Finish(s, g', c, r, success).state.groups[id] == s.groups[id] {
      FinishStores(s, g', c, r, success, id);
    }
  }

  /** The ends that concern a single group. */
  lemma EndAlone(s: State, g: Group, a: Answer, r: Request, success: Outcome)
    requires g.id in s.groups && s.groups[g.id] == g && g.id == r.group && EndsOnly(s, g, g.successor, success, a)
    requires success.Accepted() && success != IDEMPOTENT && !r.SupersedeGroup?
    ensures EndEffect(s, r, a)
  {
    hide Descended;
  }

  lemma RefusalIsNotAccepted(s: State, r: Request, event: GroupEvent)
    requires Preamble(s, r, event).Some?
    ensures var o := Preamble(s, r, event).value; o.Accepted() ==> o == IDEMPOTENT
  {
  }

  lemma WithdrawEffect(s: State, r: Request)
    requires Inv(s) && r.WithdrawGroup?
    ensures EndEffect(s, r, Withdraw(s, r))
  {
    hide Preamble, Finish, LifecycleAllows, Loose, GroupOk, Inv, Descended;
    var completing := r.group in s.groups && s.groups[r.group].lifecycle.Withdrawing?;
    var event := if completing then COMPLETE_WITHDRAW else WITHDRAW;
    if Preamble(s, r, event).None? {
      Ready(s, r, event);
      var g := s.groups[r.group];
      var ended := if completing then Retiring(g.(members := MapEntries(Undeclared, g.members))) else g;
      EndsOne(s, g, ended, ContextFor(s, r.authority, ADMIN_WITHDRAW, event), r, WITHDRAWN_OK);
      EndAlone(s, g, Withdraw(s, r), r, WITHDRAWN_OK);
    } else {
      RefusalIsNotAccepted(s, r, event);
    }
  }

  lemma RevokeEffect(s: State, r: Request)
    requires Inv(s) && r.RevokeGroup?
    ensures EndEffect(s, r, Revoke(s, r))
  {
    hide Preamble, Finish, LifecycleAllows, Loose, GroupOk, Inv, Descended;
    if Preamble(s, r, REVOKE).None? {
      Ready(s, r, REVOKE);
      var g := s.groups[r.group];
      EndsOne(s, g, Retiring(g.(members := MapEntries(Disabled, g.members))),
              ContextFor(s, r.authority, ADMIN_REVOKE, REVOKE), r, REVOKED_OK);
      EndAlone(s, g, Revoke(s, r), r, REVOKED_OK);
    } else {
      RefusalIsNotAccepted(s, r, REVOKE);
    }
  }

  lemma RetireEffect(s: State, r: Request)
    requires Inv(s) && r.RetireGroup?
    ensures EndEffect(s, r, Retire(s, r))
  {
    hide Preamble, Finish, LifecycleAllows, Loose, GroupOk, Inv, Descended;
    if Preamble(s, r, RETIRE).None? {
      Ready(s, r, RETIRE);
      var g := s.groups[r.group];
      EndsOne(s, g, Retiring(g.(members := MapEntries(RetiredEntry, g.members), plan := None)),
              ContextFor(s, r.authority, ADMIN_WITHDRAW, RETIRE), r, RETIRED_OK);
      EndAlone(s, g, Retire(s, r), r, RETIRED_OK);
    } else {
      RefusalIsNotAccepted(s, r, RETIRE);
    }
  }

  lemma SupersedeEffect(s: State, r: Request)
    requires Inv(s) && r.SupersedeGroup?
    ensures EndEffect(s, r, Supersede(s, r))
  {
    hide Preamble, Finish, LifecycleAllows, Loose, GroupOk, Inv, Descended, StepOk;
    if Preamble(s, r, SUPERSEDE).None? {
      Ready(s, r, SUPERSEDE);
      var g := s.groups[r.group];
      if r.successor in s.groups && r.successor != g.id && r.successor != NIL {
        if !IsClosed(s.groups[r.successor].lifecycle) {
          IdsMatch(s, r.successor);
          LinkedOk(s, r.successor, g.id);
          LinkedInv(s, Stored(s, s.groups[r.successor].(predecessor := g.id)));
          SupersedeEnds(s, r, g);
        } else {
          ClosedOutcome(s.groups[r.successor].lifecycle);
        }
      }
    } else {
      RefusalIsNotAccepted(s, r, SUPERSEDE);
    }
  }

  lemma ClosedOutcome(l: GroupLifecycle)
    ensures !LifecycleOutcome(l).Accepted()
  {
  }

  lemma LinkedInv(s: State, linked: State)
    requires StepOk(s, linked, None)
    ensures Inv(linked)
  {
  }

  lemma SupersedeEnds(s: State, r: Request, g: Group)
    requires r.SupersedeGroup? && g.id == r.group && g.id in s.groups && s.groups[g.id] == g && g.successor == NIL
    requires r.successor in s.groups && r.successor != g.id && r.successor != NIL
    requires s.groups[r.successor].id == r.successor && !IsClosed(s.groups[r.successor].lifecycle)
    requires Inv(Stored(s, s.groups[r.successor].(predecessor := g.id))) && Loose(g, s.limits)
    requires |DeclaredIds(g.members)| <= s.limits.maxMembersPerGroup && LifecycleAllows(g.lifecycle, SUPERSEDE)
    ensures var linked := Stored(s, s.groups[r.successor].(predecessor := g.id));
            var ended := Retiring(g.(members := MapEntries(Disabled, g.members), plan := None,
                                     successor := r.successor));
            EndEffect(s, r, Finish(linked, ended, ContextFor(s, r.authority, SUPERSESSION, SUPERSEDE), r, SUPERSEDED_OK))
  {
    hide Finish, LifecycleAllows, Loose, Inv, Descended;
    var linked := Stored(s, s.groups[r.successor].(predecessor := g.id));
    var ended := Retiring(g.(members := MapEntries(Disabled, g.members), plan := None, successor := r.successor));
    var c := ContextFor(s, r.authority, SUPERSESSION, SUPERSEDE);
    EndsOne(linked, g, ended, c, r, SUPERSEDED_OK);
    SupersededEffect(s, r, g, Finish(linked, ended, c, r, SUPERSEDED_OK));
  }

  lemma SupersededEffect(s: State, r: Request, g: Group, a: Answer)
    requires r.SupersedeGroup? && g.id == r.group && g.id in s.groups && s.groups[g.id] == g && g.successor == NIL
    requires r.successor in s.groups && r.successor != g.id && r.successor != NIL
    requires s.groups[r.successor].id == r.successor && !IsClosed(s.groups[r.successor].lifecycle)
    requires EndsOnly(Stored(s, s.groups[r.successor].(predecessor := g.id)), g, r.successor, SUPERSEDED_OK, a)
    ensures EndEffect(s, r, a)
  {
    hide Descended, IsClosed;
    var linked := Stored(s, s.groups[r.successor].(predecessor := g.id));
    assert a.state.groups[r.successor] == linked.groups[r.successor];
    forall id | id in s.groups && id != r.group && id != r.successor ensures a.state.groups[id] == s.groups[id] {
      assert id in linked.groups;
    }
  }

  // ----- Every step -----

  /** The answer ends group id: an accepted administrative request for it. */
  predicate Ends(step: Step, id: Id, outcome: Outcome) {
    step.OnRequest? && IsEndRequest(step.request) && step.request.group == id && outcome.Accepted() &&
    outcome != IDEMPOTENT
  }

  lemma EndRequestEffect(s: State, r: Request, up: Upstream)
    requires Inv(s) && IsEndRequest(r)
    ensures EndEffect(s, r, Serve(s, r, up))
  {
    hide Withdraw, Revoke, Retire, Supersede, EndEffect, Inv;
    match r
    case WithdrawGroup(_, _, _) => WithdrawEffect(s, r);
    case RevokeGroup(_, _, _) => RevokeEffect(s, r);
    case RetireGroup(_, _, _) => RetireEffect(s, r);
    case SupersedeGroup(_, _, _) => SupersedeEffect(s, r);
  }

  lemma NoticeKeepsLink(s: State, up: Upstream, n: Notice, g: Group)
    ensures var g' := NoticeGroup(s, up, n, g).group;
            g'.successor == g.successor && (IsClosed(g.lifecycle) ==> g' == g)
  {
    hide Refresh, DependsOn, IsClosed, MultipathIsStale, AnyPathStale;
    forall g0, c { RefreshKeepsId(g0, c, s.limits.maxHistory); }
  }

  lemma LapseKeepsLink(g: Group, publisher: Id, boot: Id, epoch: nat, maxHistory: nat)
    ensures FencedGroup(g, publisher, boot, epoch, maxHistory).successor == g.successor
    ensures EpochGroup(g, epoch, maxHistory).successor == g.successor
    ensures RecoveredGroup(g, epoch, maxHistory).successor == g.successor
  {
    hide Refresh, IsClosed;
    forall g0, c { RefreshKeepsId(g0, c, maxHistory); }
  }

  /** Nothing was created, no link changed, and closed groups stayed as they were. */
  ghost predicate Undisturbed(s: State, id: Id, s': State)
    requires id in s.groups
  {
    && s'.groups.Keys == s.groups.Keys && s'.groups[id].successor == s.groups[id].successor
    && (IsClosed(s.groups[id].lifecycle) ==> s'.groups[id] == s.groups[id])
  }

  lemma NotifyKeeps(s: State, n: Notice, up: Upstream, id: Id)
    requires id in s.groups
    ensures Undisturbed(s, id, Notify(s, n, up).state)
  {
    hide NoticeGroup, IsClosed, AuthorizeUpstream;
    NoticeKeepsLink(s, up, n, s.groups[id]);
  }

  lemma FenceKeeps(s: State, publisher: Id, boot: Id, id: Id)
    requires id in s.groups
    ensures Undisturbed(s, id, Fence(s, publisher, boot).state)
  {
    hide FencedGroup, IsClosed;
    LapseKeepsLink(s.groups[id], publisher, boot, s.epoch, s.limits.maxHistory);
  }

  lemma SetEpochKeeps(s: State, epoch: nat, id: Id)
    requires id in s.groups
    ensures Undisturbed(s, id, SetEpoch(s, epoch).state)
  {
    hide EpochGroup, IsClosed;
    LapseKeepsLink(s.groups[id], NIL, NIL, epoch, s.limits.maxHistory);
    ClosedIgnoresEpochs(s.groups[id], epoch, s.limits.maxHistory);
  }

  /** Steps that are not requests neither touch closed groups nor change links nor create groups. */
  lemma OtherStepsKeep(s: State, step: Step, id: Id)
    requires id in s.groups && !step.OnRequest?
    ensures Undisturbed(s, id, Next(s, step).state)
  {
    hide Notify, Fence, SetEpoch, Serve, Undisturbed;
    match step
    case OnNotice(n, up) => NotifyKeeps(s, n, up, id);
    case OnRegister(e, reg) => RegisterKeeps(s, e, reg, id);
    case OnFence(p, b) => FenceKeeps(s, p, b, id);
    case OnEpoch(e) => SetEpochKeeps(s, e, id);
  }

  lemma RegisterKeeps(s: State, epoch: nat, reg: Registration, id: Id)
    requires id in s.groups
    ensures Undisturbed(s, id, Register(s, epoch, reg).state)
  {
    hide IsClosed;
  }

  lemma ClosedIgnoresEpochs(g: Group, epoch: nat, maxHistory: nat)
    ensures IsClosed(g.lifecycle) ==> EpochGroup(g, epoch, maxHistory) == g
  {
  }

  /** An administratively closed group never reopens: whatever the step, it stays exactly as it is, unless the step is
      an accepted administrative request for it, and then its lifecycle moves strictly closer to the end. */
  lemma ClosedNeverReopens(s: State, step: Step, id: Id)
    requires Inv(s) && id in s.groups && IsClosed(s.groups[id].lifecycle)
    ensures var a := Next(s, step);
            && id in a.state.groups
            && if Ends(step, id, a.outcome) then Descended(s.groups[id].lifecycle, a.state.groups[id].lifecycle)
               else a.state.groups[id] == s.groups[id]
  {
    hide Inv, Serve, Notify, Register, Fence, SetEpoch, IsClosed, ClosedRank;
    match step
    case OnRequest(r, up) =>
      if IsEndRequest(r) { EndRequestEffect(s, r, up); } else { OrdinaryKeepsClosed(s, r, up, id); }
    case _ => OtherStepsKeep(s, step, id);
  }
}
