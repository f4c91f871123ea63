/** Lifecycles of groups and members: derivation, legality of events, transitions, causes of staleness. */
module Lifecycle {
  import opened Prelude

  datatype GroupLifecycle =
    | Declared | Active | Degraded | RevalidationRequired | Rebalancing
    | Withdrawing | Withdrawn | Revoked | Superseded | Retired

  datatype GroupEvent =
    | CREATE | ADD_MEMBER | REMOVE_MEMBER | DISABLE_MEMBER | ENABLE_MEMBER
    | INVALIDATE_PATH | INVALIDATE_MULTIPATH | INVALIDATE_COST | INVALIDATE_EPOCH
    | REVALIDATE | PLAN_REBALANCE | COMMIT_REBALANCE | ABORT_REBALANCE
    | WITHDRAW | COMPLETE_WITHDRAW | REVOKE | SUPERSEDE | RETIRE

  datatype MemberState = MemberActive | MemberStale | MemberIneligible | MemberWithdrawn | MemberRetired

  datatype LifecycleInputs = LifecycleInputs(declared: nat, active: nat, minActive: nat, planPending: bool,
                                             authorityCurrent: bool)

  predicate IsTerminal(l: GroupLifecycle) {
    l.Withdrawn? || l.Revoked? || l.Superseded? || l.Retired?
  }

  predicate IsClosed(l: GroupLifecycle) {
    l.Withdrawing? || IsTerminal(l)
  }

  function DeriveLifecycle(inputs: LifecycleInputs): GroupLifecycle {
    if inputs.planPending then Rebalancing
    else if inputs.declared == 0 then Declared
    else if inputs.active == 0 then RevalidationRequired
    else if !inputs.authorityCurrent then RevalidationRequired
    else if inputs.active < inputs.minActive then Degraded
    else Active
  }

  predicate IsMemberEvent(e: GroupEvent) {
    e.ADD_MEMBER? || e.REMOVE_MEMBER? || e.DISABLE_MEMBER? || e.ENABLE_MEMBER?
  }

  predicate IsInvalidation(e: GroupEvent) {
    e.INVALIDATE_PATH? || e.INVALIDATE_MULTIPATH? || e.INVALIDATE_COST? || e.INVALIDATE_EPOCH?
  }

  predicate IsOrdinary(e: GroupEvent) {
    IsMemberEvent(e) || IsInvalidation(e) || e.REVALIDATE?
  }

  predicate LifecycleAllows(state: GroupLifecycle, e: GroupEvent) {
    var closing := e.WITHDRAW? || e.REVOKE? || e.SUPERSEDE? || e.RETIRE?;
    match state
    case Declared => IsOrdinary(e) || closing
    case Active | Degraded => IsOrdinary(e) || e.PLAN_REBALANCE? || e.COMMIT_REBALANCE? || e.ABORT_REBALANCE? || closing
    case RevalidationRequired => IsOrdinary(e) || closing
    case Rebalancing => IsInvalidation(e) || e.REVALIDATE? || e.COMMIT_REBALANCE? || e.ABORT_REBALANCE? || closing
    case Withdrawing => e.COMPLETE_WITHDRAW? || e.REVOKE? || e.RETIRE?
    case Withdrawn => e.REVOKE? || e.SUPERSEDE? || e.RETIRE?
    case Revoked => e.RETIRE?
    case Superseded => e.RETIRE?
    case Retired => false
  }

  function ApplyGroupEvent(state: GroupLifecycle, e: GroupEvent, inputs: LifecycleInputs): Option<GroupLifecycle> {
    if !LifecycleAllows(state, e) then None
    else
      match e
      case CREATE => Some(Declared)
      case PLAN_REBALANCE => Some(Rebalancing)
      case WITHDRAW => Some(Withdrawing)
      case COMPLETE_WITHDRAW => Some(Withdrawn)
      case REVOKE => Some(Revoked)
      case SUPERSEDE => Some(Superseded)
      case RETIRE => Some(Retired)
      case _ => Some(DeriveLifecycle(inputs))
  }

  function DeriveMemberState(declared: bool, enabled: bool, upstreamCurrent: bool): MemberState {
    if !declared then MemberWithdrawn
    else if !upstreamCurrent then MemberStale
    else if !enabled then MemberIneligible
    else MemberActive
  }

  /** How far a closed group still is from the end of its lineage. */
  function ClosedRank(l: GroupLifecycle): nat {
    match l
    case Withdrawing => 3
    case Withdrawn => 2
    case Revoked | Superseded => 1
    case Retired => 0
    case _ => 4
  }

  /** A closed group never reopens, and every further accepted event brings it strictly closer to the end. */
  lemma ClosedOnlyDescends(state: GroupLifecycle, e: GroupEvent, inputs: LifecycleInputs)
    requires IsClosed(state) && ApplyGroupEvent(state, e, inputs).Some?
    ensures IsClosed(ApplyGroupEvent(state, e, inputs).value)
    ensures ClosedRank(ApplyGroupEvent(state, e, inputs).value) < ClosedRank(state)
  {
  }

  /** The events that end a group for good. */
  predicate EndsGroup(e: GroupEvent) {
    e.COMPLETE_WITHDRAW? || e.REVOKE? || e.SUPERSEDE? || e.RETIRE?
  }

  /** Where an accepted event leads: the derived lifecycle, a plan, or a closed lifecycle of its own. */
  lemma EventTarget(state: GroupLifecycle, e: GroupEvent, inputs: LifecycleInputs)
    requires LifecycleAllows(state, e)
    ensures ApplyGroupEvent(state, e, inputs).Some?
    ensures var target := ApplyGroupEvent(state, e, inputs).value;
            && (IsTerminal(target) <==> EndsGroup(e))
            && (IsClosed(target) <==> EndsGroup(e) || e.WITHDRAW?)
            && (!IsClosed(target) ==> !IsClosed(state))
            && (!IsClosed(target) ==> target == if e.PLAN_REBALANCE? then Rebalancing else DeriveLifecycle(inputs))
            && (e.SUPERSEDE? ==> target == Superseded) && (e.RETIRE? ==> target == Retired)
  {
  }

  /** Invalidations and revalidation are legal in every open lifecycle. */
  lemma OpenAcceptsInvalidation(state: GroupLifecycle, e: GroupEvent)
    requires !IsClosed(state) && (IsInvalidation(e) || e.REVALIDATE?)
    ensures LifecycleAllows(state, e)
  {
  }

  // ----- Causes of staleness -----

  datatype Currentness = Currentness(stalePath: bool, staleMultipath: bool, staleCost: bool, staleEpoch: bool,
                                     fenced: bool, revalidation: bool, retired: bool)
  {
    predicate AuthorityCurrent() {
      !(staleEpoch || fenced || revalidation || retired)
    }
  }

  const CURRENT := Currentness(false, false, false, false, false, false, false)

  datatype ChangeReason =
    | CREATE | ADD_MEMBER | REMOVE_MEMBER | DISABLE_MEMBER | ENABLE_MEMBER | PATH_INVALIDATION
    | MULTIPATH_INVALIDATION | COST_INVALIDATION | EPOCH_INVALIDATION | REVALIDATION | ADMIN_WITHDRAW
    | ADMIN_REVOKE | SUPERSESSION | RECOVERY | PLAN_ABORTED | REBALANCE_COMMIT
}
