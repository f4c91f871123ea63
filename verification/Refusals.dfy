/** What a refused request leaves behind: nothing at all, unless it is a revalidation that had begun to apply its
    updates. */
module Refusals {
  import opened Prelude
  import opened Assignment
  import opened Lifecycle
  import opened Records
  import opened Groups
  import opened GroupProofs
  import opened Governor
  import opened Invariants
  import opened Plans
  import opened Endings
  import opened Attempts

  /** An answer that carries nothing out leaves the state exactly as it was. */
  ghost predicate AllOrNothing(s: State, a: Answer) {
    !CarriedOut(a.outcome) ==> a.state == s
  }

  lemma RefreshSucceeds(g: Group, c: Context, maxHistory: nat)
    requires LifecycleAllows(g.lifecycle, c.event)
    ensures Refresh(g, c, maxHistory).ok
  {
    hide Rebalanced, Moves, ActiveIds, DeclaredIds, InputsOf;
  }

  /** Once the lifecycle allows the event, finishing the change cannot fail. */
  lemma FinishSucceeds(s: State, g: Group, c: Context, r: Request, success: Outcome)
    requires LifecycleAllows(g.lifecycle, c.event)
    ensures Finish(s, g, c, r, success).outcome == success
  {
    hide Refresh, LifecycleAllows, RememberAttempt, PayloadOf;
    RefreshSucceeds(g, c, s.limits.maxHistory);
  }

  lemma PassedLifecycle(s: State, r: Request, event: GroupEvent)
    requires Preamble(s, r, event).None?
    ensures r.group in s.groups && LifecycleAllows(s.groups[r.group].lifecycle, event)
  {
  }

  lemma CreateAllOrNothing(s: State, r: Request, up: Upstream)
    requires r.CreateGroup?
    ensures AllOrNothing(s, Create(s, r, up))
  {
    hide Authorize, HandleAttempt, CheckCreation, CheckNewMembers, EnabledCount, Refresh, RememberAttempt, PayloadOf;
    if |r.members| > 0 {
      RefreshSucceeds(NewGroup(s, r), ContextFor(s, r.authority, ChangeReason.CREATE, GroupEvent.ADD_MEMBER),
                      s.limits.maxHistory);
    } else {
      NobodyToCreate(s, r);
    }
  }

  lemma NobodyToCreate(s: State, r: Request)
    requires r.CreateGroup? && |r.members| == 0
    ensures CheckCreation(s, r).Some?
  {
  }

  lemma AddAllOrNothing(s: State, r: Request, up: Upstream)
    requires r.AddMember?
    ensures AllOrNothing(s, Add(s, r, up))
  {
    hide Preamble, Finish, ValidateFor, WithMember, Total, LifecycleAllows;
    if Preamble(s, r, GroupEvent.ADD_MEMBER).None? {
      PassedLifecycle(s, r, GroupEvent.ADD_MEMBER);
      var g := s.groups[r.group];
      FinishSucceeds(s, g.(members := WithMember(g.members, r.spec)),
                     ContextFor(s, r.authority, ChangeReason.ADD_MEMBER, GroupEvent.ADD_MEMBER), r, MEMBER_ADDED);
    }
  }

  lemma RemoveAllOrNothing(s: State, r: Request)
    requires r.RemoveMember?
    ensures AllOrNothing(s, Remove(s, r))
  {
    hide Preamble, Finish, LifecycleAllows;
    if Preamble(s, r, GroupEvent.REMOVE_MEMBER).None? {
      PassedLifecycle(s, r, GroupEvent.REMOVE_MEMBER);
      var g := s.groups[r.group];
      var i := Locate(g.members, r.member);
      if i < |g.members| {
        FinishSucceeds(s, g.(members := g.members[i := Departing(g.members[i])]),
                       ContextFor(s, r.authority, ChangeReason.REMOVE_MEMBER, GroupEvent.REMOVE_MEMBER), r,
                       MEMBER_REMOVED);
      }
    }
  }

  lemma EnableAllOrNothing(s: State, r: Request, up: Upstream)
    requires r.SetEnabled?
    ensures AllOrNothing(s, Enable(s, r, up))
  {
    hide Preamble, Finish, LifecycleAllows, ValidateFor, RememberAttempt, PayloadOf, SpecOf;
    var event := if r.enabled then GroupEvent.ENABLE_MEMBER else GroupEvent.DISABLE_MEMBER;
    var reason := if r.enabled then ChangeReason.ENABLE_MEMBER else ChangeReason.DISABLE_MEMBER;
    if Preamble(s, r, event).None? {
      PassedLifecycle(s, r, event);
      var g := s.groups[r.group];
      var i := Locate(g.members, r.member);
      if i < |g.members| {
        var e := if r.enabled then Enabling(g.members[i]) else Disabled(g.members[i]);
        FinishSucceeds(s, g.(members := g.members[i := e]), ContextFor(s, r.authority, reason, event), r,
                       if r.enabled then MEMBER_ENABLED else MEMBER_DISABLED);
      }
    }
  }

  lemma ApplyAllOrNothing(s: State, r: Request, up: Upstream)
    requires r.ApplySet?
    ensures AllOrNothing(s, Apply(s, r, up))
  {
    hide Preamble, Refresh, LifecycleAllows, CheckSetRequest, RememberAttempt, PayloadOf, ChurnOf, TargetContext,
         Retargeted;
    if Preamble(s, r, GroupEvent.ADD_MEMBER).None? {
      PassedLifecycle(s, r, GroupEvent.ADD_MEMBER);
      var g := s.groups[r.group];
      TargetContextAllowed(s, r.authority, g, r.members);
      RetargetedKeeps(g, r.members);
      RefreshSucceeds(Retargeted(g, r.members), TargetContext(s, r.authority, g, r.members), s.limits.maxHistory);
    }
  }

  lemma PlanningAllOrNothing(s: State, r: Request, up: Upstream)
    requires r.PlanRebalance?
    ensures AllOrNothing(s, Planning(s, r, up))
  {
    hide Preamble, Finish, Refresh, LifecycleAllows, CheckPlanRequest, ChurnOf, TargetContext, Retargeted, PlanFor;
    if Preamble(s, r, PLAN_REBALANCE).None? {
      PassedLifecycle(s, r, PLAN_REBALANCE);
      var g := s.groups[r.group];
      var f := Refresh(Retargeted(g, r.members), TargetContext(s, r.authority, g, r.members), s.limits.maxHistory);
      FinishSucceeds(s, g.(plan := Some(PlanFor(s, r, g, f.group))),
                     ContextFor(s, r.authority, ChangeReason.REVALIDATION, PLAN_REBALANCE), r, REBALANCE_PLANNED);
    }
  }

  lemma CommitAllOrNothing(s: State, r: Request)
    requires Inv(s) && r.CommitRebalance?
    ensures AllOrNothing(s, Commit(s, r))
  {
    hide Preamble, Finish, LifecycleAllows, Retargeted, Inv;
    CommitNeverInternal(s, r);
    if Preamble(s, r, COMMIT_REBALANCE).None? {
      PassedLifecycle(s, r, COMMIT_REBALANCE);
      var g := s.groups[r.group];
      if g.plan.Some? {
        RetargetedKeeps(g.(plan := None), g.plan.value.targetMembers);
        FinishSucceeds(s, Retargeted(g.(plan := None), g.plan.value.targetMembers),
                       ContextFor(s, r.authority, ChangeReason.REBALANCE_COMMIT, COMMIT_REBALANCE), r, REBALANCED);
      }
    }
  }

  lemma AbortAllOrNothing(s: State, r: Request)
    requires r.AbortRebalance?
    ensures AllOrNothing(s, Abort(s, r))
  {
    hide Preamble, Finish, LifecycleAllows;
    if Preamble(s, r, ABORT_REBALANCE).None? {
      PassedLifecycle(s, r, ABORT_REBALANCE);
      FinishSucceeds(s, s.groups[r.group].(plan := None),
                     ContextFor(s, r.authority, ChangeReason.PLAN_ABORTED, ABORT_REBALANCE), r, REBALANCE_ABORTED);
    }
  }

  lemma EndAllOrNothing(s: State, r: Request, up: Upstream)
    requires Inv(s) && IsEndRequest(r)
    ensures AllOrNothing(s, Serve(s, r, up))
  {
    hide Serve, Inv, Descended;
    EndRequestEffect(s, r, up);
  }

  /** A request that is refused, or answered as a replay, leaves the whole state as it was, unless it is a
      revalidation. */
  lemma RefusedChangesNothing(s: State, r: Request, up: Upstream)
    requires Inv(s) && !r.Revalidate? && !CarriedOut(Serve(s, r, up).outcome)
    ensures Serve(s, r, up).state == s
  {
    hide Inv, Create, Add, Remove, Enable, Apply, Planning, Commit, Abort, Withdraw, Revoke, Retire, Supersede;
    match r
    case CreateGroup(_, _, _, _, _, _, _, _, _, _, _, _) => CreateAllOrNothing(s, r, up);
    case AddMember(_, _, _) => AddAllOrNothing(s, r, up);
    case RemoveMember(_, _, _) => RemoveAllOrNothing(s, r);
    case SetEnabled(_, _, _, _) => EnableAllOrNothing(s, r, up);
    case ApplySet(_, _, _) => ApplyAllOrNothing(s, r, up);
    case PlanRebalance(_, _, _) => PlanningAllOrNothing(s, r, up);
    case CommitRebalance(_, _, _) => CommitAllOrNothing(s, r);
    case AbortRebalance(_, _, _) => AbortAllOrNothing(s, r);
    case _ => EndAllOrNothing(s, r, up);
  }

  /** A revalidation has come as far as applying its updates. */
  predicate UpdatesBegun(s: State, r: Request)
    requires r.Revalidate?
  {
    && Preamble(s, r, GroupEvent.REVALIDATE).None? && r.group in s.groups
    && |r.updates| <= s.limits.maxBatchSize && !RepeatsMember(r.updates)
    && var g, claims := s.groups[r.group], Claims(r.updates);
       AdoptionNeeded(g, claims) ==> CheckAdoption(s, g, claims).None?
  }

  /** A refused revalidation leaves the state as it was until it begins to apply its updates; from then on it leaves the
      adopted terms and the updates up to the first refused one in its group. No map, generation, plan, lifecycle, active
      member or binding changes by that. */
  lemma RefusedRevalidationLeaves(s: State, r: Request, up: Upstream)
    requires Inv(s) && r.Revalidate? && !CarriedOut(Serve(s, r, up).outcome)
    ensures UpdatesBegun(s, r) ==>
              Serve(s, r, up).state == Stored(s, Updated(s, r, up)) && Tweaked(s.groups[r.group], Updated(s, r, up))
    ensures !UpdatesBegun(s, r) ==> Serve(s, r, up).state == s
  {
    hide Inv, Revalidation, Tweaked, UpdatesBegun, Updated;
    RevalidationLeaves(s, r, up);
    if UpdatesBegun(s, r) { BegunKnown(s, r); UpdatedTweaks(s, r, up); }
  }

  lemma BegunKnown(s: State, r: Request)
    requires r.Revalidate? && UpdatesBegun(s, r)
    ensures r.group in s.groups
  {
  }

  lemma RevalidationLeaves(s: State, r: Request, up: Upstream)
    requires r.Revalidate? && !CarriedOut(Revalidation(s, r, up).outcome)
    ensures if UpdatesBegun(s, r) then Revalidation(s, r, up).state == Stored(s, Updated(s, r, up))
            else Revalidation(s, r, up).state == s
  {
    hide Preamble, Finish, LifecycleAllows, ApplyUpdates, Adopt, CheckAdoption, CheckMultipathUpdate, Restored,
         WithMultipath, Claims, AdoptionNeeded, RepeatsMember;
    if Preamble(s, r, GroupEvent.REVALIDATE).None? {
      PassedLifecycle(s, r, GroupEvent.REVALIDATE);
      RevalidationSucceeds(s, r, up);
    }
  }

  lemma RevalidationSucceeds(s: State, r: Request, up: Upstream)
    requires r.Revalidate? && r.group in s.groups
    requires LifecycleAllows(s.groups[r.group].lifecycle, GroupEvent.REVALIDATE)
    ensures Finish(s, Restored(up, WithMultipath(Updated(s, r, up), r.newMultipathGen)),
                   ContextFor(s, r.authority, ChangeReason.REVALIDATION, GroupEvent.REVALIDATE), r,
                   REVALIDATED).outcome == REVALIDATED
  {
    hide Finish, LifecycleAllows, Updated, Restored, WithMultipath, Tweaked;
    UpdatedTweaks(s, r, up);
    TweakedIdentity(s.groups[r.group], Updated(s, r, up));
    RestoredLedger(up, Updated(s, r, up), r.newMultipathGen);
    FinishSucceeds(s, Restored(up, WithMultipath(Updated(s, r, up), r.newMultipathGen)),
                   ContextFor(s, r.authority, ChangeReason.REVALIDATION, GroupEvent.REVALIDATE), r, REVALIDATED);
  }
}
