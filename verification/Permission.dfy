/** Who may do what: exactly which requests, notices and registrations get past the common checks, and with which answer
    the others are refused. */
module Permission {
  import opened Prelude
  import opened Assignment
  import opened Lifecycle
  import opened Records
  import opened Groups
  import opened GroupProofs
  import opened Governor
  import opened Invariants
  import opened Endings
  import opened Attempts
  import opened Standing

  // ----- Scopes and capabilities -----

  /** A part of a scope that is left nil matches everything. */
  predicate Matches(part: Id, value: Id) { part == NIL || part == value }

  /** The scope names what it is about, and everything it names agrees with the group. */
  predicate InScope(scope: Scope, key: GroupKey, id: Id) {
    && scope != DENY_ALL
    && (scope.GROUP? ==> scope.group != NIL && scope.group == id)
    && (scope.DESTINATION? ==> scope.destination != NIL && scope.destination == key.destination &&
                               Matches(scope.routingNamespace, key.routingNamespace) && Matches(scope.fabric, key.fabric))
    && (scope.ROUTING_NAMESPACE? ==> scope.routingNamespace != NIL && scope.routingNamespace == key.routingNamespace &&
                                     Matches(scope.fabric, key.fabric))
    && (scope.FABRIC? ==> scope.fabric != NIL && scope.fabric == key.fabric)
  }

  lemma CoversExactly(scope: Scope, key: GroupKey, id: Id)
    ensures scope.Covers(key, id) <==> InScope(scope, key, id)
  {
  }

  /** The lowest bit allows mutations, the next one upstream notices; the two do not imply each other. */
  lemma CapabilitiesExactly(word: U32)
    ensures HasCapability(word, MUTATE_GROUP) <==> word % 4 == 1 || word % 4 == 3
    ensures HasCapability(word, PUBLISH_UPSTREAM) <==> word % 4 >= 2
  {
  }

  /** The publisher is registered with this boot, which is not fenced. */
  predicate InGoodStanding(s: State, publisher: Id, boot: Id) {
    publisher in s.publishers && s.publishers[publisher].boot == boot && boot !in s.fenced
  }

  // ----- Lifecycles -----

  /** The lifecycles in which an event is legal, event by event. */
  predicate Legal(l: GroupLifecycle, e: GroupEvent) {
    match e
    case CREATE => false
    case ADD_MEMBER | REMOVE_MEMBER | DISABLE_MEMBER | ENABLE_MEMBER => InService(l) && l != Rebalancing
    case INVALIDATE_PATH | INVALIDATE_MULTIPATH | INVALIDATE_COST | INVALIDATE_EPOCH | REVALIDATE => InService(l)
    case PLAN_REBALANCE => l == Active || l == Degraded
    case COMMIT_REBALANCE | ABORT_REBALANCE => l == Active || l == Degraded || l == Rebalancing
    case WITHDRAW => InService(l)
    case COMPLETE_WITHDRAW => l == Withdrawing
    case REVOKE => InService(l) || l == Withdrawing || l == Withdrawn
    case SUPERSEDE => InService(l) || l == Withdrawn
    case RETIRE => l != Retired
  }

  lemma LegalExactly(l: GroupLifecycle, e: GroupEvent)
    ensures LifecycleAllows(l, e) <==> Legal(l, e)
  {
  }

  /** Where an administrative event leads, whatever the group holds. */
  lemma EndsExactly(l: GroupLifecycle, e: GroupEvent, inputs: LifecycleInputs)
    requires Legal(l, e)
    ensures ApplyGroupEvent(l, e, inputs).Some?
    ensures var to := ApplyGroupEvent(l, e, inputs).value;
            && (to == Withdrawing <==> e == WITHDRAW) && (to == Withdrawn <==> e == COMPLETE_WITHDRAW)
            && (to == Revoked <==> e == REVOKE) && (to == Superseded <==> e == SUPERSEDE)
            && (to == Retired <==> e == RETIRE)
  {
  }

  // ----- The common checks -----

  predicate Expected(given: Option<nat>, actual: nat) { given.None? || given.value == actual }

  /** The answer that stops a request before its operation looks at it, if any: the first of these conditions that fails. */
  function StoppedBy(s: State, r: Request, event: GroupEvent): Option<Outcome> {
    var a := r.authority;
    if a.publisher == NIL || a.boot == NIL || a.attempt == NIL then Some(MALFORMED_REQUEST)
    else if a.epoch != s.epoch then Some(STALE_EPOCH)
    else if a.publisher !in s.publishers then Some(UNAUTHORIZED)
    else if !InGoodStanding(s, a.publisher, a.boot) then Some(STALE_WORKER)
    else if s.publishers[a.publisher].capabilities % 2 == 0 then Some(UNAUTHORIZED)
    else if a.scope == DENY_ALL || (a.scope.GROUP? && a.scope.group != r.group) then Some(UNAUTHORIZED)
    else if r.group !in s.groups then Some(UNKNOWN_GROUP)
    else
      var g := s.groups[r.group];
      if !InScope(a.scope, g.key, r.group) then Some(UNAUTHORIZED)
      else if a.attempt in s.attempts then
        Some(if s.attempts[a.attempt].payload == PayloadOf(r) then IDEMPOTENT else ATTEMPT_CONFLICT)
      else if !Legal(g.lifecycle, event) then
        Some(match g.lifecycle case Revoked => REVOKED case Retired => RETIRED case Withdrawn => WITHDRAWN
                               case Superseded => SUPERSEDED case _ => LIFECYCLE_VIOLATION)
      else if !Expected(a.expectedMembership, g.membershipGen) then Some(STALE_GROUP_GENERATION)
      else if !Expected(a.expectedAssignment, g.assignmentGen) then Some(STALE_ASSIGNMENT_GENERATION)
      else if !Expected(a.expectedAuthority, g.authorityGen) then Some(STALE_AUTHORITY_GENERATION)
      else None
  }

  lemma ExpectedExactly(g: Group, a: Authority)
    ensures CheckExpected(g, a) ==
            if !Expected(a.expectedMembership, g.membershipGen) then Some(STALE_GROUP_GENERATION)
            else if !Expected(a.expectedAssignment, g.assignmentGen) then Some(STALE_ASSIGNMENT_GENERATION)
            else if !Expected(a.expectedAuthority, g.authorityGen) then Some(STALE_AUTHORITY_GENERATION)
            else None
  {
  }

  /** The common checks stop a request exactly when one of the conditions fails, with the answer of the first. */
  lemma StoppedExactly(s: State, r: Request, event: GroupEvent)
    ensures Preamble(s, r, event) == StoppedBy(s, r, event)
  {
    hide LifecycleAllows, PayloadOf, Legal, CheckExpected, Expected, InScope;
    if r.group in s.groups {
      LegalExactly(s.groups[r.group].lifecycle, event);
      CoversExactly(r.authority.scope, s.groups[r.group].key, r.group);
      ExpectedExactly(s.groups[r.group], r.authority);
    }
  }

  /** The event a request stands for. */
  function EventOf(s: State, r: Request): GroupEvent {
    match r
    case CreateGroup(_, _, _, _, _, _, _, _, _, _, _, _) => GroupEvent.CREATE
    case AddMember(_, _, _) => GroupEvent.ADD_MEMBER
    case RemoveMember(_, _, _) => GroupEvent.REMOVE_MEMBER
    case SetEnabled(_, _, _, enabled) => if enabled then GroupEvent.ENABLE_MEMBER else GroupEvent.DISABLE_MEMBER
    case ApplySet(_, _, _) => GroupEvent.ADD_MEMBER
    case Revalidate(_, _, _, _) => GroupEvent.REVALIDATE
    case PlanRebalance(_, _, _) => PLAN_REBALANCE
    case CommitRebalance(_, _, _) => COMMIT_REBALANCE
    case AbortRebalance(_, _, _) => ABORT_REBALANCE
    case WithdrawGroup(_, id, _) =>
      if id in s.groups && s.groups[id].lifecycle == Withdrawing then COMPLETE_WITHDRAW else WITHDRAW
    case RevokeGroup(_, _, _) => REVOKE
    case RetireGroup(_, _, _) => RETIRE
    case SupersedeGroup(_, _, _) => SUPERSEDE
  }

  /** Whatever the request about an existing group: when one of the common conditions fails, it is answered accordingly and
      changes nothing. */
  lemma StoppedRequest(s: State, r: Request, up: Upstream)
    requires !r.CreateGroup? && StoppedBy(s, r, EventOf(s, r)).Some?
    ensures Serve(s, r, up) == Answer(s, StoppedBy(s, r, EventOf(s, r)).value)
  {
    hide Preamble, StoppedBy, Finish, Refresh, ValidateFor, ApplyUpdates, Restored, CheckSetRequest, CheckPlanRequest;
    StoppedExactly(s, r, EventOf(s, r));
  }

  /** The answer that stops a creation before its terms are looked at. */
  function CreationStoppedBy(s: State, r: Request): Option<Outcome>
    requires r.CreateGroup?
  {
    var a := r.authority;
    if a.publisher == NIL || a.boot == NIL || a.attempt == NIL then Some(MALFORMED_REQUEST)
    else if a.epoch != s.epoch then Some(STALE_EPOCH)
    else if a.publisher !in s.publishers then Some(UNAUTHORIZED)
    else if !InGoodStanding(s, a.publisher, a.boot) then Some(STALE_WORKER)
    else if s.publishers[a.publisher].capabilities % 2 == 0 then Some(UNAUTHORIZED)
    else if a.scope == DENY_ALL || (a.scope.GROUP? && a.scope.group != r.group) then Some(UNAUTHORIZED)
    else if a.attempt in s.attempts then
      Some(if s.attempts[a.attempt].payload == PayloadOf(r) then IDEMPOTENT else ATTEMPT_CONFLICT)
    else None
  }

  lemma StoppedCreation(s: State, r: Request, up: Upstream)
    requires r.CreateGroup?
    ensures CreationStoppedBy(s, r).Some? ==> Serve(s, r, up) == Answer(s, CreationStoppedBy(s, r).value)
    ensures CreationStoppedBy(s, r).None? <==>
            Authorize(s, r.authority, MUTATE_GROUP, r.group).None? && r.authority.attempt !in s.attempts
  {
    hide Refresh, CheckCreation, CheckNewMembers, EnabledCount, PayloadOf, RememberAttempt;
  }

  // ----- What an attempt remembers -----

  /** Two requests for one operation with the same payload, signed alike, are the same request: the payload forgets nothing
      but the operation and the signature. */
  lemma PayloadTellsTheRequest(s: State, r: Request, r': Request)
    requires PayloadOf(r) == PayloadOf(r') && EventOf(s, r) == EventOf(s, r') && r.authority == r'.authority
    ensures r' == r
  {
  }

  // ----- Notices -----

  /** The answer that stops a notice, if any. */
  function NoticeStoppedBy(s: State, n: Notice): Option<Outcome> {
    if n.publisher == NIL || n.boot == NIL then Some(MALFORMED_REQUEST)
    else if n.epoch != s.epoch then Some(STALE_EPOCH)
    else if n.publisher !in s.publishers then Some(UNAUTHORIZED)
    else if !InGoodStanding(s, n.publisher, n.boot) then Some(STALE_WORKER)
    else if s.publishers[n.publisher].capabilities % 4 < 2 then Some(UNAUTHORIZED)
    else if NoticeSubject(n) == NIL then Some(MALFORMED_REQUEST)
    else None
  }

  lemma StoppedNotice(s: State, n: Notice, up: Upstream)
    ensures NoticeStoppedBy(s, n).Some? ==> Notify(s, n, up) == Answer(s, NoticeStoppedBy(s, n).value)
    ensures NoticeStoppedBy(s, n).None? <==>
            AuthorizeUpstream(s, n.epoch, n.publisher, n.boot).None? && NoticeSubject(n) != NIL
  {
    hide NoticeGroup;
    if n.publisher in s.publishers { CapabilitiesExactly(s.publishers[n.publisher].capabilities); }
  }

  // ----- Registrations -----

  /** A registration names its publisher and boot, carries some grant under the current epoch, its boot is not fenced, and
      there is room: for a new publisher among the publishers, for a new boot of a known one in the fence. */
  predicate Registrable(s: State, epoch: nat, reg: Registration) {
    && reg.publisher != NIL && reg.boot != NIL && epoch == s.epoch && reg.scope != DENY_ALL && reg.capabilities != 0
    && reg.boot !in s.fenced
    && (if reg.publisher in s.publishers
        then s.publishers[reg.publisher].boot == reg.boot || |s.fenced| < s.limits.maxPublishers
        else |s.publishers| < s.limits.maxPublishers)
  }

  /** A registration is accepted exactly when it is registrable; then the publisher has it, a superseded boot is fenced, and
      nothing else changes. A refused one changes nothing. */
  lemma RegisteredExactly(s: State, epoch: nat, reg: Registration)
    ensures Register(s, epoch, reg).outcome == REGISTERED <==> Registrable(s, epoch, reg)
    ensures !Registrable(s, epoch, reg) ==> Register(s, epoch, reg).state == s
    ensures Registrable(s, epoch, reg) ==>
              Register(s, epoch, reg).state ==
              s.(publishers := s.publishers[reg.publisher := reg],
                 fenced := if reg.publisher in s.publishers && s.publishers[reg.publisher].boot != reg.boot
                           then s.fenced + {s.publishers[reg.publisher].boot} else s.fenced)
  {
  }
}
