/** Every change is signed: a request that is carried out binds its group to the authority that signed it. */
module Binding {
  import opened Prelude
  import opened Assignment
  import opened Lifecycle
  import opened Records
  import opened Groups
  import opened GroupProofs
  import opened Governor
  import opened Invariants
  import opened Plans
  import opened Runs
  import opened Endings
  import opened Links
  import opened Attempts
  import opened PlanRuns
  import opened Refusals
  import opened Disturbance
  import opened Lapses
  import opened Admission
  import opened MemberEffects
  import Fencing
  import Recovery

  // ----- Signatures and reasons -----

  /** The reason under which a request enters the history of its group. */
  ghost function ReasonOf(s: State, r: Request): ChangeReason {
    match r
    case CreateGroup(_, _, _, _, _, _, _, _, _, _, _, _) => ChangeReason.CREATE
    case AddMember(_, _, _) => ChangeReason.ADD_MEMBER
    case RemoveMember(_, _, _) => ChangeReason.REMOVE_MEMBER
    case SetEnabled(_, _, _, enabled) => if enabled then ChangeReason.ENABLE_MEMBER else ChangeReason.DISABLE_MEMBER
    case ApplySet(_, id, specs) =>
      if id in s.groups && exists k :: 0 <= k < |specs| && specs[k].member !in DeclaredIds(s.groups[id].members)
      then ChangeReason.ADD_MEMBER else ChangeReason.REMOVE_MEMBER
    case Revalidate(_, _, _, _) => REVALIDATION
    case PlanRebalance(_, _, _) => REVALIDATION
    case CommitRebalance(_, _, _) => REBALANCE_COMMIT
    case AbortRebalance(_, _, _) => PLAN_ABORTED
    case WithdrawGroup(_, _, _) => ADMIN_WITHDRAW
    case RevokeGroup(_, _, _) => ADMIN_REVOKE
    case RetireGroup(_, _, _) => ADMIN_WITHDRAW
    case SupersedeGroup(_, _, _) => SUPERSESSION
  }

  /** Three generations and the lifecycle: what a change must move to enter the history. */
  ghost predicate Unmoved(g: Group, g': Group) {
    && g'.membershipGen == g.membershipGen && g'.assignmentGen == g.assignmentGen
    && g'.authorityGen == g.authorityGen && g'.lifecycle == g.lifecycle
  }

  /** The newest entry tells who led the group to its generations, in which epoch and why; before it stand as many of the
      earlier entries, the latest ones, as there is room for. */
  ghost predicate Entered(g: Group, g': Group, reason: ChangeReason, a: Authority, epoch: nat, maxHistory: nat) {
    var n := |g'.history| - 1;
    && 0 <= n <= |g.history| && g'.history[..n] == g.history[|g.history| - n..]
    && (n == |g.history| || n == maxHistory - 1)
    && var h := g'.history[n];
       && h.reason == reason && h.publisher == a.publisher && h.epoch == epoch && h.membershipGen == g'.membershipGen
       && h.assignmentGen == g'.assignmentGen && h.authorityGen == g'.authorityGen
  }

  /** Exactly the changes that move something enter the history. */
  ghost predicate Noted(s: State, r: Request, g: Group, g': Group) {
    if Unmoved(g, g') then g'.history == g.history
    else Entered(g, g', ReasonOf(s, r), r.authority, s.epoch, s.limits.maxHistory)
  }

  /** An answer that carries something out leaves its group bound to the publisher, the boot and the epoch of the request,
      and its reason in the history, unless it found nothing to change at all. A new group has one entry. */
  ghost predicate Signed(s: State, r: Request, a: Answer) {
    CarriedOut(a.outcome) ==>
      || (a.outcome == NO_CHANGE && a.state.groups == s.groups)
      || (&& r.group in a.state.groups && BoundTo(a.state.groups[r.group], s.epoch, r.authority)
          && (r.group in s.groups ==> Noted(s, r, s.groups[r.group], a.state.groups[r.group]))
          && (r.group !in s.groups ==>
                var g' := a.state.groups[r.group];
                Entered(g'.(history := []), g', ReasonOf(s, r), r.authority, s.epoch, s.limits.maxHistory)))
  }

  /** The ledger that a refresh starts from. */
  ghost predicate SameStart(g: Group, t: Group) {
    t.history == g.history && Unmoved(g, t)
  }

  lemma RefreshNotes(g: Group, t: Group, s: State, r: Request, c: Context)
    requires SameStart(g, t) && 0 < s.limits.maxHistory && Refresh(t, c, s.limits.maxHistory).ok
    requires c.reason == ReasonOf(s, r) && c.publisher == r.authority.publisher && c.epoch == s.epoch
    ensures var g' := Refresh(t, c, s.limits.maxHistory).group; Noted(s, r, g, g')
  {
    hide ApplyGroupEvent, InputsOf, Moves, Rebalanced, DeclaredIds, ActiveIds, ReasonOf, RecordsOf;
    var settled := Settle(t, c);
    assert settled.history == t.history && settled.currentness == t.currentness;
  }

  lemma FinishBinds(s: State, s0: State, g0: Group, g: Group, c: Context, r: Request, success: Outcome)
    requires g.id == r.group && c.bind && c.publisher == r.authority.publisher && c.boot == r.authority.boot
    requires SameStart(g0, g) && Inv(s0) && s.limits == s0.limits && c.reason == ReasonOf(s0, r) && c.epoch == s0.epoch
    ensures var a := Finish(s, g, c, r, success);
            && r.group in a.state.groups && BoundTo(a.state.groups[r.group], c.epoch, r.authority)
            && (a.outcome != LIFECYCLE_VIOLATION ==> Noted(s0, r, g0, a.state.groups[r.group]))
  {
    hide Refresh, Inv, ReasonOf, SameStart, RememberAttempt, PayloadOf, Noted, Evict;
    var f := Refresh(g, c, s.limits.maxHistory);
    RefreshBinding(g, c, s.limits.maxHistory);
    RefreshKeepsId(g, c, s.limits.maxHistory);
    HasHistory(s0);
    if f.ok {
      RefreshNotes(g0, g, s0, r, c);
      NotedAlike(s0, r, g0, f.group, Evict(f.group.members, s.limits.maxMembersPerGroup));
    }
    var done := f.group.(members := Evict(f.group.members, s.limits.maxMembersPerGroup));
    AttemptsOnly(Stored(s, done), r.authority.attempt, AttemptEntry(PayloadOf(r), success, g.id));
  }

  lemma NotedAlike(s: State, r: Request, g: Group, g': Group, ms: seq<MemberEntry>)
    requires Noted(s, r, g, g')
    ensures Noted(s, r, g, g'.(members := ms))
  {
    hide ReasonOf;
  }

  lemma HasHistory(s: State)
    requires Inv(s)
    ensures 0 < s.limits.maxHistory
  {
  }

  lemma AddSigned(s: State, r: Request, up: Upstream)
    requires Inv(s) && r.AddMember?
    ensures Signed(s, r, Add(s, r, up))
  {
    hide Preamble, Finish, Inv, ValidateFor, PayloadOf, WithMember, Total;
    PreambleEffect(s, r, GroupEvent.ADD_MEMBER);
    if Preamble(s, r, GroupEvent.ADD_MEMBER).None? {
      var g := s.groups[r.group];
      ValidateRefuses(up, g, r.spec);
      FinishBinds(s, s, g, g.(members := WithMember(g.members, r.spec)),
                   ContextFor(s, r.authority, ChangeReason.ADD_MEMBER, GroupEvent.ADD_MEMBER), r, MEMBER_ADDED);
    }
  }

  lemma RemoveSigned(s: State, r: Request)
    requires Inv(s) && r.RemoveMember?
    ensures Signed(s, r, Remove(s, r))
  {
    hide Preamble, Finish, Inv, PayloadOf;
    PreambleEffect(s, r, GroupEvent.REMOVE_MEMBER);
    if Preamble(s, r, GroupEvent.REMOVE_MEMBER).None? {
      var g := s.groups[r.group];
      var i := Locate(g.members, r.member);
      if i < |g.members| {
        FinishBinds(s, s, g, g.(members := g.members[i := Departing(g.members[i])]),
                     ContextFor(s, r.authority, ChangeReason.REMOVE_MEMBER, GroupEvent.REMOVE_MEMBER), r,
                     MEMBER_REMOVED);
      }
    }
  }

  lemma EnableSigned(s: State, r: Request, up: Upstream)
    requires Inv(s) && r.SetEnabled?
    ensures Signed(s, r, Enable(s, r, up))
  {
    hide Preamble, Finish, Inv, ValidateFor, PayloadOf, RememberAttempt, SpecOf;
    var event := if r.enabled then GroupEvent.ENABLE_MEMBER else GroupEvent.DISABLE_MEMBER;
    var reason := if r.enabled then ChangeReason.ENABLE_MEMBER else ChangeReason.DISABLE_MEMBER;
    PreambleEffect(s, r, event);
    if Preamble(s, r, event).None? {
      var g := s.groups[r.group];
      var i := Locate(g.members, r.member);
      AttemptsOnly(s, r.authority.attempt, AttemptEntry(PayloadOf(r), NO_CHANGE, g.id));
      if i < |g.members| {
        ValidateRefuses(up, g, SpecOf(g.members[i].record));
        var e := if r.enabled then Enabling(g.members[i]) else Disabled(g.members[i]);
        FinishBinds(s, s, g, g.(members := g.members[i := e]), ContextFor(s, r.authority, reason, event), r,
                     if r.enabled then MEMBER_ENABLED else MEMBER_DISABLED);
      }
    }
  }

  lemma UpdatedStart(s: State, r: Request, up: Upstream)
    requires r.Revalidate? && r.group in s.groups
    ensures var t := Restored(up, WithMultipath(Updated(s, r, up), r.newMultipathGen));
            SameStart(s.groups[r.group], t) && t.id == s.groups[r.group].id
  {
    hide Updated;
    UpdatedTweaks(s, r, up);
  }

  lemma RevalidationSigned(s: State, r: Request, up: Upstream)
    requires Inv(s) && r.Revalidate?
    ensures Signed(s, r, Revalidation(s, r, up))
  {
    hide Preamble, Finish, Inv, PayloadOf, ApplyUpdates, Adopt, CheckAdoption, CheckMultipathUpdate, Claims,
         Restored, AdoptionNeeded, RepeatsMember;
    PreambleEffect(s, r, GroupEvent.REVALIDATE);
    if Preamble(s, r, GroupEvent.REVALIDATE).None? {
      RevalidationRefuses(s, r, up);
      UpdatedId(s, r, up);
      var g, updated := s.groups[r.group], Updated(s, r, up);
      UpdatedStart(s, r, up);
      FinishBinds(s, s, g, Restored(up, WithMultipath(updated, r.newMultipathGen)),
                   ContextFor(s, r.authority, ChangeReason.REVALIDATION, GroupEvent.REVALIDATE), r, REVALIDATED);
    }
  }

  lemma PlanningSigned(s: State, r: Request, up: Upstream)
    requires Inv(s) && r.PlanRebalance?
    ensures Signed(s, r, Planning(s, r, up))
  {
    hide Preamble, Finish, Refresh, Inv, PayloadOf, CheckPlanRequest, TargetContext, Retargeted, PlanFor;
    PreambleEffect(s, r, PLAN_REBALANCE);
    if Preamble(s, r, PLAN_REBALANCE).None? {
      var g := s.groups[r.group];
      SetRequestRefuses(s, g, r.members, up);
      var f := Refresh(Retargeted(g, r.members), TargetContext(s, r.authority, g, r.members), s.limits.maxHistory);
      FinishBinds(s, s, g, g.(plan := Some(PlanFor(s, r, g, f.group))),
                   ContextFor(s, r.authority, ChangeReason.REVALIDATION, PLAN_REBALANCE), r, REBALANCE_PLANNED);
    }
  }

  lemma PlannedStart(g: Group, specs: seq<MemberSpec>)
    ensures SameStart(g, Retargeted(g.(plan := None), specs))
  {
    hide ApplyTarget;
  }

  lemma CommitSigned(s: State, r: Request)
    requires Inv(s) && r.CommitRebalance?
    ensures Signed(s, r, Commit(s, r))
  {
    hide Preamble, Finish, Inv, PayloadOf, Retargeted, BoundTo, LifecycleAllows, Noted, Entered, SameStart;
    PreambleEffect(s, r, COMMIT_REBALANCE);
    if Preamble(s, r, COMMIT_REBALANCE).None? {
      var g := s.groups[r.group];
      if g.plan.Some? {
        var t := Retargeted(g.(plan := None), g.plan.value.targetMembers);
        RetargetedKeeps(g.(plan := None), g.plan.value.targetMembers);
        PlannedStart(g, g.plan.value.targetMembers);
        FinishBinds(s, s, g, t, ContextFor(s, r.authority, ChangeReason.REBALANCE_COMMIT, COMMIT_REBALANCE), r,
                     REBALANCED);
      }
    }
  }

  lemma AbortSigned(s: State, r: Request)
    requires Inv(s) && r.AbortRebalance?
    ensures Signed(s, r, Abort(s, r))
  {
    hide Preamble, Finish, Inv, PayloadOf;
    PreambleEffect(s, r, ABORT_REBALANCE);
    if Preamble(s, r, ABORT_REBALANCE).None? {
      FinishBinds(s, s, s.groups[r.group], s.groups[r.group].(plan := None),
                   ContextFor(s, r.authority, ChangeReason.PLAN_ABORTED, ABORT_REBALANCE), r, REBALANCE_ABORTED);
    }
  }

  lemma WithdrawSigned(s: State, r: Request)
    requires Inv(s) && r.WithdrawGroup?
    ensures Signed(s, r, Withdraw(s, r))
  {
    hide Preamble, Finish, Inv, PayloadOf;
    var completing := r.group in s.groups && s.groups[r.group].lifecycle.Withdrawing?;
    var event := if completing then COMPLETE_WITHDRAW else WITHDRAW;
    PreambleEffect(s, r, event);
    if Preamble(s, r, event).None? {
      var g := s.groups[r.group];
      var ended := if completing then Retiring(g.(members := MapEntries(Undeclared, g.members))) else g;
      FinishBinds(s, s, g, ended, ContextFor(s, r.authority, ADMIN_WITHDRAW, event), r, WITHDRAWN_OK);
    }
  }

  lemma RevokeSigned(s: State, r: Request)
    requires Inv(s) && r.RevokeGroup?
    ensures Signed(s, r, Revoke(s, r))
  {
    hide Preamble, Finish, Inv, PayloadOf;
    PreambleEffect(s, r, REVOKE);
    if Preamble(s, r, REVOKE).None? {
      var g := s.groups[r.group];
      FinishBinds(s, s, g, Retiring(g.(members := MapEntries(Disabled, g.members))),
                   ContextFor(s, r.authority, ADMIN_REVOKE, REVOKE), r, REVOKED_OK);
    }
  }

  lemma RetireSigned(s: State, r: Request)
    requires Inv(s) && r.RetireGroup?
    ensures Signed(s, r, Retire(s, r))
  {
    hide Preamble, Finish, Inv, PayloadOf;
    PreambleEffect(s, r, RETIRE);
    if Preamble(s, r, RETIRE).None? {
      var g := s.groups[r.group];
      FinishBinds(s, s, g, Retiring(g.(members := MapEntries(RetiredEntry, g.members), plan := None)),
                   ContextFor(s, r.authority, ADMIN_WITHDRAW, RETIRE), r, RETIRED_OK);
    }
  }

  lemma SupersedeSigned(s: State, r: Request)
    requires Inv(s) && r.SupersedeGroup?
    ensures Signed(s, r, Supersede(s, r))
  {
    hide Preamble, Finish, Inv, PayloadOf, IsClosed;
    PreambleEffect(s, r, SUPERSEDE);
    if Preamble(s, r, SUPERSEDE).None? {
      var g := s.groups[r.group];
      if r.successor in s.groups {
        ClosedOutcome(s.groups[r.successor].lifecycle);
        var linked := Stored(s, s.groups[r.successor].(predecessor := g.id));
        FinishBinds(linked, s, g, Retiring(g.(members := MapEntries(Disabled, g.members), plan := None,
                                            successor := r.successor)),
                     ContextFor(s, r.authority, SUPERSESSION, SUPERSEDE), r, SUPERSEDED_OK);
      }
    }
  }

  /** A new group starts from membership generation zero and gets members. */
  lemma CreationMoves(s: State, r: Request, up: Upstream)
    requires Inv(s) && r.CreateGroup? && CarriedOut(Create(s, r, up).outcome)
    ensures |r.members| > 0 && r.group !in s.groups && r.group in Create(s, r, up).state.groups
    ensures Create(s, r, up).state.groups[r.group].membershipGen == 1 && NewGroup(s, r).membershipGen == 0
    ensures NewGroup(s, r).history == [] && BoundTo(Create(s, r, up).state.groups[r.group], s.epoch, r.authority)
  {
    hide Authorize, CheckCreation, CheckNewMembers, Refresh, RememberAttempt, PayloadOf, Inv, EnabledCount;
    AuthorizationRefuses(s, r);
    CreationRefuses(s, r);
    NewMembersRefuse(up, r, 0);
    CreatedEffect(s, r, up);
  }

  lemma CreationStores(s: State, r: Request, up: Upstream)
    requires r.CreateGroup? && |r.members| > 0 && CarriedOut(Create(s, r, up).outcome)
    ensures r.group in Create(s, r, up).state.groups
    ensures var c := ContextFor(s, r.authority, ChangeReason.CREATE, GroupEvent.ADD_MEMBER);
            var f := Refresh(NewGroup(s, r), c, s.limits.maxHistory);
            f.ok && Create(s, r, up).state.groups[r.group] == f.group
  {
    hide Refresh, CheckNewMembers, CheckCreation, RememberAttempt, PayloadOf, EnabledCount, Authorize, HandleAttempt,
         NewGroup;
    AuthorizationRefuses(s, r);
    CreationRefuses(s, r);
    NewMembersRefuse(up, r, 0);
    var c := ContextFor(s, r.authority, ChangeReason.CREATE, GroupEvent.ADD_MEMBER);
    var f := Refresh(NewGroup(s, r), c, s.limits.maxHistory);
    RefreshKeepsId(NewGroup(s, r), c, s.limits.maxHistory);
    NewGroupId(s, r);
    AttemptsOnly(Stored(s, f.group), r.authority.attempt, AttemptEntry(PayloadOf(r), CREATED, r.group));
  }

  lemma CreationNoted(s: State, r: Request, up: Upstream)
    requires Inv(s) && r.CreateGroup? && CarriedOut(Create(s, r, up).outcome)
    ensures r.group in Create(s, r, up).state.groups
    ensures var g' := Create(s, r, up).state.groups[r.group];
            Entered(g'.(history := []), g', ReasonOf(s, r), r.authority, s.epoch, s.limits.maxHistory)
  {
    hide Refresh, Create, Inv, NewGroup;
    CreationMoves(s, r, up);
    HasHistory(s);
    CreationStores(s, r, up);
    var t := NewGroup(s, r);
    RefreshNotes(t, t, s, r, ContextFor(s, r.authority, ChangeReason.CREATE, GroupEvent.ADD_MEMBER));
  }

  lemma NewGroupId(s: State, r: Request)
    requires r.CreateGroup? && |r.members| > 0
    ensures NewGroup(s, r).id == r.group
  {
  }

  lemma CreateSigned(s: State, r: Request, up: Upstream)
    requires Inv(s) && r.CreateGroup?
    ensures Signed(s, r, Create(s, r, up))
  {
    hide Create, Entered, ReasonOf, Inv, Noted;
    if CarriedOut(Create(s, r, up).outcome) {
      CreationMoves(s, r, up);
      CreationNoted(s, r, up);
    }
  }

  lemma {:induction false} NewcomersExactly(ms: seq<MemberEntry>, specs: seq<MemberSpec>)
    requires EntriesOk(ms)
    ensures AddedCount(ms, specs) > 0 <==> exists k :: 0 <= k < |specs| && specs[k].member !in DeclaredIds(ms)
  {
    hide DeclaredIds, DeclaredIn, EntriesOk;
    if specs != [] {
      var n := |specs| - 1;
      NewcomersExactly(ms, specs[..n]);
      DeclaredInExactly(ms, specs[n].member);
      if k :| 0 <= k < |specs| && specs[k].member !in DeclaredIds(ms) {
        if k < n { assert specs[..n][k].member !in DeclaredIds(ms); }
      }
    }
  }

  lemma SetContextBinds(s: State, r: Request)
    requires r.ApplySet?
    ensures r.group in s.groups ==>
              var g := s.groups[r.group];
              var c := TargetContext(s, r.authority, g, r.members);
              && c.bind && c.publisher == r.authority.publisher && c.boot == r.authority.boot && c.epoch == s.epoch
              && Retargeted(g, r.members).id == g.id
  {
    hide AddedCount, ApplyTarget;
  }

  lemma SetReason(s: State, r: Request)
    requires Inv(s) && r.ApplySet? && r.group in s.groups
    ensures var g := s.groups[r.group];
            TargetContext(s, r.authority, g, r.members).reason == ReasonOf(s, r) && SameStart(g, Retargeted(g, r.members))
  {
    hide AddedCount, ApplyTarget, DeclaredIds;
    var g := s.groups[r.group];
    NewcomersExactly(g.members, r.members);
  }

  lemma ApplySigned(s: State, r: Request, up: Upstream)
    requires Inv(s) && r.ApplySet?
    ensures Signed(s, r, Apply(s, r, up))
  {
    hide Preamble, Refresh, Inv, PayloadOf, RememberAttempt, CheckSetRequest, AddedCount, ApplyTarget, ReasonOf, SameStart,
         DeclaredIds, Noted, Entered, TargetContext, Retargeted, Evict;
    SetContextBinds(s, r);
    PreambleEffect(s, r, GroupEvent.ADD_MEMBER);
    if Preamble(s, r, GroupEvent.ADD_MEMBER).None? {
      var g := s.groups[r.group];
      SetRequestRefuses(s, g, r.members, up);
      var t, c := Retargeted(g, r.members), TargetContext(s, r.authority, g, r.members);
      var f := Refresh(t, c, s.limits.maxHistory);
      SetReason(s, r);
      HasHistory(s);
      if f.ok {
        RefreshNotes(g, t, s, r, c);
        NotedAlike(s, r, g, f.group, Evict(f.group.members, s.limits.maxMembersPerGroup));
      }
      RefreshBinding(t, c, s.limits.maxHistory);
      RefreshKeepsId(t, c, s.limits.maxHistory);
      var done := f.group.(members := Evict(f.group.members, s.limits.maxMembersPerGroup));
      AttemptsOnly(Stored(s, done), r.authority.attempt,
                   AttemptEntry(PayloadOf(r), if f.group.assignmentGen != g.assignmentGen then REBALANCED else NO_CHANGE,
                                g.id));
    }
  }

  /** Whatever the request: when it is carried out, its group is bound to the authority that signed it, and its history
      tells who changed it and why. */
  lemma CarriedOutIsSigned(s: State, r: Request, up: Upstream)
    requires Inv(s)
    ensures Signed(s, r, Serve(s, r, up))
  {
    hide Signed, Inv, Create, Add, Remove, Enable, Apply, Revalidation, Planning, Commit, Abort, Withdraw, Revoke,
         Retire, Supersede;
    match r
    case CreateGroup(_, _, _, _, _, _, _, _, _, _, _, _) => CreateSigned(s, r, up);
    case AddMember(_, _, _) => AddSigned(s, r, up);
    case RemoveMember(_, _, _) => RemoveSigned(s, r);
    case SetEnabled(_, _, _, _) => EnableSigned(s, r, up);
    case ApplySet(_, _, _) => ApplySigned(s, r, up);
    case Revalidate(_, _, _, _) => RevalidationSigned(s, r, up);
    case PlanRebalance(_, _, _) => PlanningSigned(s, r, up);
    case CommitRebalance(_, _, _) => CommitSigned(s, r);
    case AbortRebalance(_, _, _) => AbortSigned(s, r);
    case WithdrawGroup(_, _, _) => WithdrawSigned(s, r);
    case RevokeGroup(_, _, _) => RevokeSigned(s, r);
    case RetireGroup(_, _, _) => RetireSigned(s, r);
    case SupersedeGroup(_, _, _) => SupersedeSigned(s, r);
  }

  // ----- Bindings over runs -----

  lemma {:induction false} UpdatesKeepBinding(up: Upstream, g: Group, updates: seq<MemberRevalidation>, i: nat)
    requires i <= |updates|
    ensures ApplyUpdates(up, g, updates, i).0.boundEpoch == g.boundEpoch
    decreases |updates| - i
  {
    hide ValidateFor, UpdatedSpec, Reproved, Locate;
    if i < |updates| {
      var k := Locate(g.members, updates[i].member);
      if k < |g.members| {
        var h := g.(members := g.members[k := Reproved(g.members[k], UpdatedSpec(g.members[k], updates[i]))]);
        UpdatesKeepBinding(up, h, updates, i + 1);
      }
    }
  }

  lemma UpdatedKeepsBinding(s: State, r: Request, up: Upstream)
    requires r.Revalidate? && r.group in s.groups
    ensures Updated(s, r, up).boundEpoch == s.groups[r.group].boundEpoch
    ensures Updated(s, r, up).id == s.groups[r.group].id
  {
    hide ApplyUpdates, Claims, Adopt;
    UpdatedId(s, r, up);
    var g, claims := s.groups[r.group], Claims(r.updates);
    UpdatesKeepBinding(up, if AdoptionNeeded(g, claims) then Adopt(g, claims[0]) else g, r.updates, 0);
    if AdoptionNeeded(g, claims) { AdoptKeepsBinding(g, claims[0]); }
  }

  lemma AdoptKeepsBinding(g: Group, claim: CostClaim)
    ensures Adopt(g, claim).boundEpoch == g.boundEpoch
  {
  }

  lemma RequestBindsNow(s: State, r: Request, up: Upstream, id: Id)
    requires Inv(s) && BoundInThePast(s) && id in Serve(s, r, up).state.groups
    ensures Serve(s, r, up).state.groups[id].boundEpoch <= s.epoch
  {
    hide Inv, Serve, UpdatesBegun, Tweaked, Updated;
    var a := Serve(s, r, up);
    if id != r.group {
      if id !in s.groups {
        OnlyOwnIsNew(s, r, up, id);
        assert false;
      }
      OthersRequest(s, r, up, id);
    } else if CarriedOut(a.outcome) {
      CarriedOutIsSigned(s, r, up);
    } else if r.Revalidate? {
      RefusedRevalidationLeaves(s, r, up);
      if UpdatesBegun(s, r) {
        BegunKnown(s, r);
        UpdatedKeepsBinding(s, r, up);
        IdsMatch(s, r.group);
      }
    } else {
      RefusedChangesNothing(s, r, up);
    }
  }

  lemma OnlyOwnIsNew(s: State, r: Request, up: Upstream, id: Id)
    requires Inv(s) && id in Serve(s, r, up).state.groups && id !in s.groups
    ensures id == r.group
  {
    hide Inv, Serve, EndEffect;
    if IsEndRequest(r) {
      EndRequestEffect(s, r, up);
      EndEffectKeys(s, r, Serve(s, r, up));
    } else {
      NothingFromNothing(s, r, up);
    }
  }

  lemma NoticeKeepsBinding(s: State, up: Upstream, n: Notice, g: Group)
    ensures NoticeGroup(s, up, n, g).group.boundEpoch == g.boundEpoch
  {
    hide Refresh, DependsOn, IsClosed, MultipathIsStale, AnyPathStale;
    forall g0, c: Context ensures c.bind || Refresh(g0, c, s.limits.maxHistory).group.boundEpoch == g0.boundEpoch {
      RefreshBinding(g0, c, s.limits.maxHistory);
    }
  }

  lemma LapseKeepsBinding(g: Group, publisher: Id, boot: Id, epoch: nat, maxHistory: nat)
    ensures FencedGroup(g, publisher, boot, epoch, maxHistory).boundEpoch == g.boundEpoch
    ensures EpochGroup(g, epoch, maxHistory).boundEpoch == g.boundEpoch
    ensures RecoveredGroup(g, epoch, maxHistory).boundEpoch == g.boundEpoch
  {
    hide Refresh, IsClosed;
    forall g0, c: Context ensures c.bind || Refresh(g0, c, maxHistory).group.boundEpoch == g0.boundEpoch {
      RefreshBinding(g0, c, maxHistory);
    }
  }

  lemma OtherStepsKeepBinding(s: State, step: Step, id: Id)
    requires !step.OnRequest? && id in s.groups
    ensures id in Next(s, step).state.groups
    ensures Next(s, step).state.groups[id].boundEpoch == s.groups[id].boundEpoch
  {
    hide Notify, Register, Fence, SetEpoch, Serve;
    match step
    case OnNotice(n, up) => NotifyKeepsBinding(s, n, up, id);
    case OnRegister(e, reg) => RegisterKeepsBinding(s, e, reg, id);
    case OnFence(p, b) => FenceKeepsBinding(s, p, b, id);
    case OnEpoch(e) => EpochKeepsBinding(s, e, id);
  }

  lemma NotifyKeepsBinding(s: State, n: Notice, up: Upstream, id: Id)
    requires id in s.groups
    ensures var s' := Notify(s, n, up).state; id in s'.groups && s'.groups[id].boundEpoch == s.groups[id].boundEpoch
  {
    hide NoticeGroup, AuthorizeUpstream;
    NoticeKeepsBinding(s, up, n, s.groups[id]);
  }

  lemma RegisterKeepsBinding(s: State, epoch: nat, reg: Registration, id: Id)
    requires id in s.groups
    ensures Register(s, epoch, reg).state.groups == s.groups
  {
  }

  lemma FenceKeepsBinding(s: State, publisher: Id, boot: Id, id: Id)
    requires id in s.groups
    ensures var s' := Fence(s, publisher, boot).state;
            id in s'.groups && s'.groups[id].boundEpoch == s.groups[id].boundEpoch
  {
    hide FencedGroup, IsClosed;
    LapseKeepsBinding(s.groups[id], publisher, boot, s.epoch, s.limits.maxHistory);
  }

  lemma EpochKeepsBinding(s: State, epoch: nat, id: Id)
    requires id in s.groups
    ensures var s' := SetEpoch(s, epoch).state; id in s'.groups && s'.groups[id].boundEpoch == s.groups[id].boundEpoch
  {
    hide EpochGroup;
    LapseKeepsBinding(s.groups[id], NIL, NIL, epoch, s.limits.maxHistory);
  }

  lemma StepBindsNow(s: State, step: Step)
    requires Inv(s) && BoundInThePast(s)
    ensures BoundInThePast(Next(s, step).state)
  {
    hide Inv, Serve, Notify, Register, Fence, SetEpoch;
    Fencing.EpochsNeverFall(s, step);
    var s' := Next(s, step).state;
    if !step.OnRequest? { EmptyStaysEmpty(s, step); }
    forall id | id in s'.groups ensures s'.groups[id].boundEpoch <= s'.epoch {
      if step.OnRequest? {
        RequestBindsNow(s, step.request, step.up, id);
      } else {
        OtherStepsKeepBinding(s, step, id);
      }
    }
  }

  lemma ReloadBindsNow(blank: State, saved: State)
    requires Blank(blank) && blank.epoch <= saved.epoch && BoundInThePast(saved)
    ensures BoundInThePast(Load(blank, Save(saved)).state)
  {
    hide RecoveredGroup;
    forall id | id in saved.groups
      ensures RecoveredGroup(saved.groups[id], saved.epoch, blank.limits.maxHistory).boundEpoch ==
              saved.groups[id].boundEpoch
    {
      LapseKeepsBinding(saved.groups[id], NIL, NIL, saved.epoch, blank.limits.maxHistory);
    }
  }

  lemma BlankBindsNothing(s: State)
    requires Blank(s)
    ensures BoundInThePast(s)
  {
  }

  /** In every state of every run no group is bound to an epoch that has not come yet; so a later epoch invalidates every
      open group. */
  lemma {:induction false} ReachableBindingsArePast(run: Run, i: nat)
    requires IsRun(run) && i < |run.states|
    ensures BoundInThePast(run.states[i])
    decreases i
  {
    hide Inv, Next, Load, BoundInThePast;
    if i == 0 {
      BlankBindsNothing(run.states[0]);
    } else {
      assert Leads(run, i - 1);
      match run.events[i - 1]
      case Live(step) =>
        ReachableBindingsArePast(run, i - 1);
        RunInv(run, i - 1);
        StepBindsNow(run.states[i - 1], step);
      case Reload(j) =>
        ReachableBindingsArePast(run, j);
        Recovery.NeverBelowFirstEpoch(run, j);
        ReloadBindsNow(run.states[0], run.states[j]);
    }
  }
}
