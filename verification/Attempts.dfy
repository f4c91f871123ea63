/** Remembered attempts: the table and its queue agree, and a replay within the bound changes nothing. */
module Attempts {
  import opened Prelude
  import opened Assignment
  import opened Lifecycle
  import opened Records
  import opened Groups
  import opened GroupProofs
  import opened Governor
  import opened Invariants
  import opened Plans
  import opened Runs
  import opened Endings
  import opened Links

  /** Table and queue hold the same distinct ids. */
  ghost predicate SameIds(attempts: map<Id, AttemptEntry>, order: seq<Id>) {
    Distinct(order) && forall x :: x in attempts <==> x in order
  }

  /** The attempt table and its queue hold the same distinct ids, within the bound. */
  ghost predicate Agree(attempts: map<Id, AttemptEntry>, order: seq<Id>, max: nat) {
    SameIds(attempts, order) && |order| <= max
  }

  ghost predicate AttemptsOk(s: State) {
    Agree(s.attempts, s.order, s.limits.maxAttemptsRemembered)
  }

  /** The outcome reports a change that was carried out just now. */
  predicate CarriedOut(o: Outcome) {
    o.Accepted() && o != IDEMPOTENT
  }

  /** What a request does outside the groups: nothing to authority, and to the attempts only this: one that is carried
      out remembers its id, which was not known before, with its payload and outcome; any other leaves them alone. */
  ghost predicate AttemptEffect(s: State, r: Request, a: Answer) {
    SameAuthority(s, a.state) &&
    if CarriedOut(a.outcome) then
      var id := r.authority.attempt;
      var next := RememberAttempt(s, id, AttemptEntry(PayloadOf(r), a.outcome, r.group));
      id !in s.attempts && a.state.attempts == next.attempts && a.state.order == next.order
    else a.state.attempts == s.attempts && a.state.order == s.order
  }

  predicate Refusal(o: Option<Outcome>) {
    o.Some? ==> !o.value.Accepted()
  }

  lemma NotCarriedOut(s: State, r: Request, a: Answer)
    requires SameAuthority(s, a.state) && a.state.attempts == s.attempts && a.state.order == s.order
    requires !CarriedOut(a.outcome)
    ensures AttemptEffect(s, r, a)
  {
  }

  lemma RememberDependsOn(s: State, s': State, id: Id, entry: AttemptEntry)
    requires s'.attempts == s.attempts && s'.order == s.order && s'.limits == s.limits
    ensures RememberAttempt(s', id, entry).attempts == RememberAttempt(s, id, entry).attempts
    ensures RememberAttempt(s', id, entry).order == RememberAttempt(s, id, entry).order
  {
    hide Remember;
  }

  lemma RememberedEffect(s: State, s': State, r: Request, success: Outcome)
    requires s'.attempts == s.attempts && s'.order == s.order && s'.limits == s.limits && SameAuthority(s, s')
    requires r.authority.attempt !in s.attempts && CarriedOut(success)
    ensures AttemptEffect(s, r, Answer(RememberAttempt(s', r.authority.attempt,
                                                       AttemptEntry(PayloadOf(r), success, r.group)), success))
  {
    hide RememberAttempt, PayloadOf;
    RememberDependsOn(s, s', r.authority.attempt, AttemptEntry(PayloadOf(r), success, r.group));
    AttemptsOnly(s', r.authority.attempt, AttemptEntry(PayloadOf(r), success, r.group));
  }

  lemma FinishEffect(s: State, s': State, g: Group, c: Context, r: Request, success: Outcome)
    requires s'.attempts == s.attempts && s'.order == s.order && s'.limits == s.limits && SameAuthority(s, s')
    requires g.id == r.group
    requires r.authority.attempt !in s.attempts && CarriedOut(success)
    ensures AttemptEffect(s, r, Finish(s', g, c, r, success))
  {
    hide Refresh, RememberAttempt, PayloadOf, AttemptEffect;
    var f := Refresh(g, c, s'.limits.maxHistory);
    RefreshKeepsId(g, c, s'.limits.maxHistory);
    if f.ok {
      var done := f.group.(members := Evict(f.group.members, s'.limits.maxMembersPerGroup));
      RememberedEffect(s, Stored(s', done), r, success);
    } else {
      NotCarriedOut(s, r, Answer(Stored(s', f.group), LIFECYCLE_VIOLATION));
    }
  }

  // ----- Every refusal is a refusal -----

  lemma ValidateRefuses(up: Upstream, g: Group, spec: MemberSpec)
    ensures Refusal(ValidateFor(up, g, spec))
  {
  }

  lemma {:induction false} ShapeRefuses(specs: seq<MemberSpec>, i: nat)
    requires i <= |specs|
    ensures Refusal(CheckSpecShape(specs, i))
    decreases |specs| - i
  {
    if i < |specs| { ShapeRefuses(specs, i + 1); }
  }

  lemma {:induction false} ValidateAllRefuses(up: Upstream, g: Group, specs: seq<MemberSpec>, i: nat)
    requires i <= |specs|
    ensures Refusal(ValidateAll(up, g, specs, i))
    decreases |specs| - i
  {
    if i < |specs| {
      ValidateRefuses(up, g, specs[i]);
      ValidateAllRefuses(up, g, specs, i + 1);
    }
  }

  lemma {:induction false} TargetsRefuse(up: Upstream, g: Group, specs: seq<MemberSpec>, i: nat)
    requires i <= |specs|
    ensures Refusal(CheckTargets(up, g, specs, i))
    decreases |specs| - i
  {
    if i < |specs| {
      ValidateRefuses(up, g, specs[i]);
      TargetsRefuse(up, g, specs, i + 1);
    }
  }

  lemma SetRequestRefuses(s: State, g: Group, specs: seq<MemberSpec>, up: Upstream)
    ensures Refusal(CheckSetRequest(s, g, specs, up)) && Refusal(CheckPlanRequest(s, g, specs, up))
  {
    hide CheckSpecShape, ValidateAll, CheckTargets, TargetChanges, AnyPathMoved;
    ShapeRefuses(specs, 0);
    ValidateAllRefuses(up, g, specs, 0);
    TargetsRefuse(up, g, specs, 0);
  }

  lemma {:induction false} UpdatesRefuse(up: Upstream, g: Group, updates: seq<MemberRevalidation>, i: nat)
    requires i <= |updates|
    ensures Refusal(ApplyUpdates(up, g, updates, i).1)
    decreases |updates| - i
  {
    hide ValidateFor;
    if i < |updates| {
      var k := Locate(g.members, updates[i].member);
      if k < |g.members| {
        var spec := UpdatedSpec(g.members[k], updates[i]);
        ValidateRefuses(up, g, spec);
        UpdatesRefuse(up, g.(members := g.members[k := Reproved(g.members[k], spec)]), updates, i + 1);
      }
    }
  }

  lemma {:induction false} NewMembersRefuse(up: Upstream, r: Request, i: nat)
    requires r.CreateGroup? && i <= |r.members|
    ensures Refusal(CheckNewMembers(up, r, i))
    decreases |r.members| - i
  {
    if i < |r.members| { NewMembersRefuse(up, r, i + 1); }
  }

  lemma CreationRefuses(s: State, r: Request)
    requires r.CreateGroup?
    ensures Refusal(CheckCreation(s, r))
  {
  }

  // ----- One lemma per operation -----

  lemma PreambleEffect(s: State, r: Request, event: GroupEvent)
    requires Inv(s)
    ensures Preamble(s, r, event).Some? ==> !CarriedOut(Preamble(s, r, event).value)
    ensures Preamble(s, r, event).None? ==>
              r.group in s.groups && s.groups[r.group].id == r.group && r.authority.attempt !in s.attempts
  {
    if Preamble(s, r, event).Some? { RefusalIsNotAccepted(s, r, event); } else { Ready(s, r, event); }
  }

  lemma CreationHasMembers(s: State, r: Request)
    requires r.CreateGroup? && CheckCreation(s, r).None?
    ensures |r.members| > 0
  {
  }

  lemma CreateAttempt(s: State, r: Request, up: Upstream)
    requires r.CreateGroup?
    ensures AttemptEffect(s, r, Create(s, r, up))
  {
    hide Refresh, CheckNewMembers, CheckCreation, RememberAttempt, PayloadOf, AttemptEffect, KeyTaken;
    var a := Create(s, r, up);
    CreationRefuses(s, r);
    NewMembersRefuse(up, r, 0);
    if a.state == s && !CarriedOut(a.outcome) {
      NotCarriedOut(s, r, a);
    } else {
      CreationHasMembers(s, r);
      var f := Refresh(NewGroup(s, r), ContextFor(s, r.authority, ChangeReason.CREATE, GroupEvent.ADD_MEMBER),
                       s.limits.maxHistory);
      RememberedEffect(s, Stored(s, f.group), r, CREATED);
    }
  }

  lemma AddAttempt(s: State, r: Request, up: Upstream)
    requires Inv(s) && r.AddMember?
    ensures AttemptEffect(s, r, Add(s, r, up))
  {
    hide Preamble, Finish, Inv, ValidateFor, PayloadOf, AttemptEffect, WithMember, Total;
    PreambleEffect(s, r, GroupEvent.ADD_MEMBER);
    var a := Add(s, r, up);
    if Preamble(s, r, GroupEvent.ADD_MEMBER).None? {
      var g := s.groups[r.group];
      ValidateRefuses(up, g, r.spec);
      FinishEffect(s, s, g.(members := WithMember(g.members, r.spec)),
                   ContextFor(s, r.authority, ChangeReason.ADD_MEMBER, GroupEvent.ADD_MEMBER), r, MEMBER_ADDED);
    }
    if a.state == s && !CarriedOut(a.outcome) { NotCarriedOut(s, r, a); }
  }

  lemma RemoveAttempt(s: State, r: Request)
    requires Inv(s) && r.RemoveMember?
    ensures AttemptEffect(s, r, Remove(s, r))
  {
    hide Preamble, Finish, Inv, PayloadOf, AttemptEffect;
    PreambleEffect(s, r, GroupEvent.REMOVE_MEMBER);
    var a := Remove(s, r);
    if Preamble(s, r, GroupEvent.REMOVE_MEMBER).None? {
      var g := s.groups[r.group];
      var i := Locate(g.members, r.member);
      if i < |g.members| {
        FinishEffect(s, s, g.(members := g.members[i := Departing(g.members[i])]),
                     ContextFor(s, r.authority, ChangeReason.REMOVE_MEMBER, GroupEvent.REMOVE_MEMBER), r,
                     MEMBER_REMOVED);
      }
    }
    if a.state == s && !CarriedOut(a.outcome) { NotCarriedOut(s, r, a); }
  }

  lemma EnableAttempt(s: State, r: Request, up: Upstream)
    requires Inv(s) && r.SetEnabled?
    ensures AttemptEffect(s, r, Enable(s, r, up))
  {
    hide Preamble, Finish, Inv, ValidateFor, PayloadOf, AttemptEffect, RememberAttempt, SpecOf;
    var event := if r.enabled then GroupEvent.ENABLE_MEMBER else GroupEvent.DISABLE_MEMBER;
    var reason := if r.enabled then ChangeReason.ENABLE_MEMBER else ChangeReason.DISABLE_MEMBER;
    PreambleEffect(s, r, event);
    var a := Enable(s, r, up);
    if Preamble(s, r, event).None? {
      var g := s.groups[r.group];
      var i := Locate(g.members, r.member);
      RememberedEffect(s, s, r, NO_CHANGE);
      if i < |g.members| {
        ValidateRefuses(up, g, SpecOf(g.members[i].record));
        var e := if r.enabled then Enabling(g.members[i]) else Disabled(g.members[i]);
        FinishEffect(s, s, g.(members := g.members[i := e]), ContextFor(s, r.authority, reason, event), r,
                     if r.enabled then MEMBER_ENABLED else MEMBER_DISABLED);
      }
    }
    if a.state == s && !CarriedOut(a.outcome) { NotCarriedOut(s, r, a); }
  }

  lemma ApplyAttempt(s: State, r: Request, up: Upstream)
    requires Inv(s) && r.ApplySet?
    ensures AttemptEffect(s, r, Apply(s, r, up))
  {
    hide Preamble, Refresh, Inv, PayloadOf, AttemptEffect, RememberAttempt, CheckSetRequest, TargetContext, Retargeted;
    PreambleEffect(s, r, GroupEvent.ADD_MEMBER);
    var a := Apply(s, r, up);
    if Preamble(s, r, GroupEvent.ADD_MEMBER).None? {
      var g := s.groups[r.group];
      SetRequestRefuses(s, g, r.members, up);
      var f := Refresh(Retargeted(g, r.members), TargetContext(s, r.authority, g, r.members), s.limits.maxHistory);
      var done := f.group.(members := Evict(f.group.members, s.limits.maxMembersPerGroup));
      RememberedEffect(s, Stored(s, done), r, if f.group.assignmentGen != g.assignmentGen then REBALANCED else NO_CHANGE);
    }
    if a.state == s && !CarriedOut(a.outcome) { NotCarriedOut(s, r, a); }
  }

  lemma RevalidationRefuses(s: State, r: Request, up: Upstream)
    requires r.Revalidate? && r.group in s.groups
    ensures var g, claims := s.groups[r.group], Claims(r.updates);
            var adopted := if AdoptionNeeded(g, claims) then Adopt(g, claims[0]) else g;
            && Refusal(ApplyUpdates(up, adopted, r.updates, 0).1)
            && Refusal(CheckMultipathUpdate(up, ApplyUpdates(up, adopted, r.updates, 0).0, r.newMultipathGen))
            && (AdoptionNeeded(g, claims) ==> Refusal(CheckAdoption(s, g, claims)))
  {
    hide ApplyUpdates, Adopt, Claims;
    var g, claims := s.groups[r.group], Claims(r.updates);
    UpdatesRefuse(up, if AdoptionNeeded(g, claims) then Adopt(g, claims[0]) else g, r.updates, 0);
  }

  lemma RevalidationAttempt(s: State, r: Request, up: Upstream)
    requires Inv(s) && r.Revalidate?
    ensures AttemptEffect(s, r, Revalidation(s, r, up))
  {
    hide Preamble, Finish, Inv, PayloadOf, AttemptEffect, ApplyUpdates, Adopt, CheckAdoption, CheckMultipathUpdate, Claims,
         Restored, AdoptionNeeded, RepeatsMember;
    PreambleEffect(s, r, GroupEvent.REVALIDATE);
    var a := Revalidation(s, r, up);
    if Preamble(s, r, GroupEvent.REVALIDATE).None? {
      RevalidationRefuses(s, r, up);
      UpdatedId(s, r, up);
      var updated := Updated(s, r, up);
      RestoredLedger(up, updated, r.newMultipathGen);
      FinishEffect(s, s, Restored(up, WithMultipath(updated, r.newMultipathGen)),
                   ContextFor(s, r.authority, ChangeReason.REVALIDATION, GroupEvent.REVALIDATE), r, REVALIDATED);
      if a.state == Stored(s, updated) && !CarriedOut(a.outcome) { NotCarriedOut(s, r, a); }
    }
    if a.state == s && !CarriedOut(a.outcome) { NotCarriedOut(s, r, a); }
  }

  lemma PlanningAttempt(s: State, r: Request, up: Upstream)
    requires Inv(s) && r.PlanRebalance?
    ensures AttemptEffect(s, r, Planning(s, r, up))
  {
    hide Preamble, Finish, Refresh, Inv, PayloadOf, AttemptEffect, CheckPlanRequest, TargetContext, Retargeted, PlanFor;
    PreambleEffect(s, r, PLAN_REBALANCE);
    var a := Planning(s, r, up);
    if Preamble(s, r, PLAN_REBALANCE).None? {
      var g := s.groups[r.group];
      SetRequestRefuses(s, g, r.members, up);
      var f := Refresh(Retargeted(g, r.members), TargetContext(s, r.authority, g, r.members), s.limits.maxHistory);
      FinishEffect(s, s, g.(plan := Some(PlanFor(s, r, g, f.group))),
                   ContextFor(s, r.authority, ChangeReason.REVALIDATION, PLAN_REBALANCE), r, REBALANCE_PLANNED);
    }
    if a.state == s && !CarriedOut(a.outcome) { NotCarriedOut(s, r, a); }
  }

  lemma CommitAttempt(s: State, r: Request)
    requires Inv(s) && r.CommitRebalance?
    ensures AttemptEffect(s, r, Commit(s, r))
  {
    hide Preamble, Finish, Inv, PayloadOf, AttemptEffect, Retargeted;
    PreambleEffect(s, r, COMMIT_REBALANCE);
    CommitNeverInternal(s, r);
    var a := Commit(s, r);
    if Preamble(s, r, COMMIT_REBALANCE).None? {
      var g := s.groups[r.group];
      if g.plan.Some? {
        var t := Retargeted(g.(plan := None), g.plan.value.targetMembers);
        RetargetedKeeps(g.(plan := None), g.plan.value.targetMembers);
        FinishEffect(s, s, t, ContextFor(s, r.authority, ChangeReason.REBALANCE_COMMIT, COMMIT_REBALANCE), r,
                     REBALANCED);
      }
    }
    if a.state == s && !CarriedOut(a.outcome) { NotCarriedOut(s, r, a); }
  }

  lemma AbortAttempt(s: State, r: Request)
    requires Inv(s) && r.AbortRebalance?
    ensures AttemptEffect(s, r, Abort(s, r))
  {
    hide Preamble, Finish, Inv, PayloadOf, AttemptEffect;
    PreambleEffect(s, r, ABORT_REBALANCE);
    var a := Abort(s, r);
    if Preamble(s, r, ABORT_REBALANCE).None? {
      FinishEffect(s, s, s.groups[r.group].(plan := None),
                   ContextFor(s, r.authority, ChangeReason.PLAN_ABORTED, ABORT_REBALANCE), r, REBALANCE_ABORTED);
    }
    if a.state == s && !CarriedOut(a.outcome) { NotCarriedOut(s, r, a); }
  }

  lemma WithdrawAttempt(s: State, r: Request)
    requires Inv(s) && r.WithdrawGroup?
    ensures AttemptEffect(s, r, Withdraw(s, r))
  {
    hide Preamble, Finish, Inv, PayloadOf, AttemptEffect;
    var completing := r.group in s.groups && s.groups[r.group].lifecycle.Withdrawing?;
    var event := if completing then COMPLETE_WITHDRAW else WITHDRAW;
    PreambleEffect(s, r, event);
    var a := Withdraw(s, r);
    if Preamble(s, r, event).None? {
      var g := s.groups[r.group];
      var ended := if completing then Retiring(g.(members := MapEntries(Undeclared, g.members))) else g;
      FinishEffect(s, s, ended, ContextFor(s, r.authority, ADMIN_WITHDRAW, event), r, WITHDRAWN_OK);
    }
    if a.state == s && !CarriedOut(a.outcome) { NotCarriedOut(s, r, a); }
  }

  lemma RevokeAttempt(s: State, r: Request)
    requires Inv(s) && r.RevokeGroup?
    ensures AttemptEffect(s, r, Revoke(s, r))
  {
    hide Preamble, Finish, Inv, PayloadOf, AttemptEffect;
    PreambleEffect(s, r, REVOKE);
    var a := Revoke(s, r);
    if Preamble(s, r, REVOKE).None? {
      var g := s.groups[r.group];
      FinishEffect(s, s, Retiring(g.(members := MapEntries(Disabled, g.members))),
                   ContextFor(s, r.authority, ADMIN_REVOKE, REVOKE), r, REVOKED_OK);
    }
    if a.state == s && !CarriedOut(a.outcome) { NotCarriedOut(s, r, a); }
  }

  lemma RetireAttempt(s: State, r: Request)
    requires Inv(s) && r.RetireGroup?
    ensures AttemptEffect(s, r, Retire(s, r))
  {
    hide Preamble, Finish, Inv, PayloadOf, AttemptEffect;
    PreambleEffect(s, r, RETIRE);
    var a := Retire(s, r);
    if Preamble(s, r, RETIRE).None? {
      var g := s.groups[r.group];
      FinishEffect(s, s, Retiring(g.(members := MapEntries(RetiredEntry, g.members), plan := None)),
                   ContextFor(s, r.authority, ADMIN_WITHDRAW, RETIRE), r, RETIRED_OK);
    }
    if a.state == s && !CarriedOut(a.outcome) { NotCarriedOut(s, r, a); }
  }

  lemma SupersedeAttempt(s: State, r: Request)
    requires Inv(s) && r.SupersedeGroup?
    ensures AttemptEffect(s, r, Supersede(s, r))
  {
    hide Preamble, Finish, Inv, PayloadOf, AttemptEffect, IsClosed;
    PreambleEffect(s, r, SUPERSEDE);
    var a := Supersede(s, r);
    if Preamble(s, r, SUPERSEDE).None? {
      var g := s.groups[r.group];
      if r.successor in s.groups {
        ClosedOutcome(s.groups[r.successor].lifecycle);
        var linked := Stored(s, s.groups[r.successor].(predecessor := g.id));
        FinishEffect(s, linked, Retiring(g.(members := MapEntries(Disabled, g.members), plan := None,
                                            successor := r.successor)),
                     ContextFor(s, r.authority, SUPERSESSION, SUPERSEDE), r, SUPERSEDED_OK);
      }
    }
    if a.state == s && !CarriedOut(a.outcome) { NotCarriedOut(s, r, a); }
  }

  /** Every request remembers its attempt exactly when it was carried out. */
  lemma ServeAttempt(s: State, r: Request, up: Upstream)
    requires Inv(s)
    ensures AttemptEffect(s, r, Serve(s, r, up))
  {
    hide AttemptEffect, Inv, Create, Add, Remove, Enable, Apply, Revalidation, Planning, Commit, Abort, Withdraw, Revoke,
         Retire, Supersede;
    match r
    case CreateGroup(_, _, _, _, _, _, _, _, _, _, _, _) => CreateAttempt(s, r, up);
    case AddMember(_, _, _) => AddAttempt(s, r, up);
    case RemoveMember(_, _, _) => RemoveAttempt(s, r);
    case SetEnabled(_, _, _, _) => EnableAttempt(s, r, up);
    case ApplySet(_, _, _) => ApplyAttempt(s, r, up);
    case Revalidate(_, _, _, _) => RevalidationAttempt(s, r, up);
    case PlanRebalance(_, _, _) => PlanningAttempt(s, r, up);
    case CommitRebalance(_, _, _) => CommitAttempt(s, r);
    case AbortRebalance(_, _, _) => AbortAttempt(s, r);
    case WithdrawGroup(_, _, _) => WithdrawAttempt(s, r);
    case RevokeGroup(_, _, _) => RevokeAttempt(s, r);
    case RetireGroup(_, _, _) => RetireAttempt(s, r);
    case SupersedeGroup(_, _, _) => SupersedeAttempt(s, r);
  }

  // ----- The table and its queue -----

  lemma FirstRemoved(attempts: map<Id, AttemptEntry>, order: seq<Id>)
    requires SameIds(attempts, order) && order != []
    ensures SameIds(attempts - {order[0]}, order[1..])
  {
    forall x ensures x in attempts - {order[0]} <==> x in order[1..] {
      if x in order && x != order[0] {
        var i :| 0 <= i < |order| && order[i] == x;
        assert order[1..][i - 1] == x;
      }
    }
  }

  lemma LastAdded(attempts: map<Id, AttemptEntry>, order: seq<Id>, id: Id, entry: AttemptEntry)
    requires SameIds(attempts, order) && id !in attempts
    ensures SameIds(attempts[id := entry], order + [id])
  {
  }

  /** What is left of table and queue: the newest entries, unchanged, within the bound. */
  lemma {:induction false} DropLeavesNewest(attempts: map<Id, AttemptEntry>, order: seq<Id>, max: nat)
    requires SameIds(attempts, order)
    ensures var left := DropOldest(attempts, order, max);
            var dropped := if |order| <= max then 0 else |order| - max;
            && SameIds(left.0, left.1) && left.1 == order[dropped..]
            && forall x :: x in left.0 ==> x in attempts && left.0[x] == attempts[x]
    decreases |order|
  {
    hide SameIds;
    if |order| > max {
      FirstRemoved(attempts, order);
      DropLeavesNewest(attempts - {order[0]}, order[1..], max);
      assert order[1..][|order| - 1 - max..] == order[|order| - max..];
    }
  }

  lemma InTable(attempts: map<Id, AttemptEntry>, order: seq<Id>, i: nat)
    requires SameIds(attempts, order) && i < |order|
    ensures order[i] in attempts
  {
  }

  /** The n-th newest remembered attempt. */
  ghost predicate RememberedAt(attempts: map<Id, AttemptEntry>, order: seq<Id>, n: nat, id: Id, payload: Payload) {
    && n < |order| && order[|order| - 1 - n] == id
    && id in attempts && attempts[id].payload == payload
  }

  /** Remembering a new attempt keeps table and queue in agreement and makes the new id the newest. */
  lemma RememberAgrees(attempts: map<Id, AttemptEntry>, order: seq<Id>, max: nat, id: Id, entry: AttemptEntry)
    requires Agree(attempts, order, max) && id !in attempts && 0 < max
    ensures var left := Remember(attempts, order, max, id, entry);
            Agree(left.0, left.1, max) && RememberedAt(left.0, left.1, 0, id, entry.payload)
  {
    hide DropOldest, SameIds;
    var left := DropOldest(attempts[id := entry], order + [id], max);
    LastAdded(attempts, order, id, entry);
    DropLeavesNewest(attempts[id := entry], order + [id], max);
    InTable(left.0, left.1, |left.1| - 1);
  }

  /** It moves every other attempt back by one place, as long as the bound allows it. */
  lemma RememberShifts(attempts: map<Id, AttemptEntry>, order: seq<Id>, max: nat, id: Id, entry: AttemptEntry, n: nat,
                       other: Id, payload: Payload)
    requires Agree(attempts, order, max) && id !in attempts && n + 1 < max
    requires RememberedAt(attempts, order, n, other, payload)
    ensures var left := Remember(attempts, order, max, id, entry); RememberedAt(left.0, left.1, n + 1, other, payload)
  {
    hide DropOldest, SameIds;
    var left := DropOldest(attempts[id := entry], order + [id], max);
    LastAdded(attempts, order, id, entry);
    DropLeavesNewest(attempts[id := entry], order + [id], max);
    var i := |left.1| - 1 - (n + 1);
    assert left.1[i] == (order + [id])[|order| - 1 - n];
    InTable(left.0, left.1, i);
  }
}
