/** The records the governor keeps and the requests it answers. */
module Records {
  import opened Prelude
  import opened Assignment
  import opened Lifecycle

  datatype MembershipSource = DIRECT_PATH_SET | MULTIPATH_FABRIC

  datatype GroupKey = GroupKey(fabric: Id, routingNamespace: Id, destination: Id, costClass: Id) {
    predicate WellFormed() {
      fabric != NIL && routingNamespace != NIL && destination != NIL && costClass != NIL
    }
  }

  const MAX_SCALE: nat := 9

  datatype PathCost = PathCost(units: I64, scale: U32) {
    predicate WellFormed() { scale <= MAX_SCALE }
  }

  datatype CostBinding = CostBinding(model: Id, modelVersion: U32, routeClass: Id, policyGeneration: U64) {
    predicate WellFormed() { model != NIL && routeClass != NIL }
  }

  datatype CostClaim = CostClaim(costClass: Id, binding: CostBinding, cost: PathCost, source: Id) {
    predicate WellFormed() { costClass != NIL && binding.WellFormed() && cost.WellFormed() && source != NIL }
  }

  datatype CostSemantics = CostSemantics(costClass: Id, binding: CostBinding) {
    predicate WellFormed() { costClass != NIL && binding.WellFormed() }
  }

  datatype MemberSpec = MemberSpec(member: Id, path: Id, pathAuthority: U64, memberGeneration: U64, cost: CostClaim,
                                   provenance: Id, enabled: bool)
  {
    predicate WellFormed() { member != NIL && path != NIL && cost.WellFormed() && provenance != NIL }
  }

  datatype MemberRecord = MemberRecord(member: Id, path: Id, pathAuthority: U64, memberGeneration: U64, cost: CostClaim,
                                       provenance: Id, enabled: bool, declared: bool, state: MemberState)
  {
    predicate IsActive() { state.MemberActive? }
  }

  /** One declared member and whether each upstream fact it depends on is still current. */
  datatype MemberEntry = MemberEntry(record: MemberRecord, pathCurrent: bool, pathAuthorized: bool,
                                     multipathCurrent: bool, costCurrent: bool)
  {
    predicate UpstreamCurrent() { pathCurrent && multipathCurrent && costCurrent }
  }

  /** A plan identity stands for the digest it is cut from: the digested values themselves. */
  datatype PlanId = PlanId(group: Id, fromMembership: nat, fromAssignment: nat, target: seq<Id>)

  datatype Plan = Plan(id: PlanId, fromMembership: nat, fromAssignment: nat, fromAuthority: nat, targetMembership: nat,
                       targetDigest: seq<Id>, targetMembers: seq<MemberSpec>, moves: seq<BucketMove>,
                       assignment: seq<Id>, assignmentDigest: seq<Id>, epoch: nat, publisher: Id)

  datatype HistoryEntry = HistoryEntry(membershipGen: nat, assignmentGen: nat, authorityGen: nat, reason: ChangeReason,
                                       publisher: Id, epoch: nat, churn: nat, movesRecorded: nat, plan: Option<PlanId>,
                                       membershipDigest: seq<MemberRecord>, assignmentDigest: seq<Id>)

  datatype RebalanceRecord = RebalanceRecord(plan: Option<PlanId>, reason: ChangeReason,
                                             fromMembership: nat, toMembership: nat,
                                             fromAssignment: nat, toAssignment: nat,
                                             moves: seq<BucketMove>, churn: nat, assignmentDigest: seq<Id>)

  datatype Group = Group(
    id: Id, key: GroupKey, source: MembershipSource, lifecycle: GroupLifecycle, currentness: Currentness,
    membershipGen: nat, assignmentGen: nat, authorityGen: nat,
    semantics: CostSemantics, canonicalCost: PathCost, hashDomain: Id, bucketCount: U32, minActive: U32,
    members: seq<MemberEntry>, owners: seq<Id>, multipathSet: Id, multipathGen: U64,
    publisher: Id, boot: Id, boundEpoch: nat, provenance: Id, successor: Id, predecessor: Id,
    plan: Option<Plan>, history: seq<HistoryEntry>, lastRebalance: Option<RebalanceRecord>,
    declaredDigest: seq<Id>)

  datatype Limits = Limits(maxGroups: nat, maxMembersPerGroup: nat, maxTotalMembers: nat, maxBuckets: nat,
                           maxRebalanceMoves: nat, maxBatchSize: nat, maxHistory: nat, maxPublishers: nat,
                           maxAttemptsRemembered: nat)
  {
    /** The bounds a governor insists on before it exists, as far as this model uses them. */
    predicate Coherent() {
      && 0 < maxBuckets <= 0x100000 && 0 < maxMembersPerGroup <= maxBuckets && maxMembersPerGroup <= maxTotalMembers
      && 0 < maxGroups && 0 < maxRebalanceMoves <= maxBuckets && 0 < maxBatchSize && 0 < maxHistory
      && 0 < maxAttemptsRemembered && 0 < maxPublishers
    }
  }

  // ----- Authority -----

  datatype Scope =
    | DENY_ALL
    | GROUP(group: Id)
    | DESTINATION(destination: Id, routingNamespace: Id, fabric: Id)
    | ROUTING_NAMESPACE(routingNamespace: Id, fabric: Id)
    | FABRIC(fabric: Id)
  {
    predicate Covers(key: GroupKey, id: Id) {
      match this
      case DENY_ALL => false
      case GROUP(g) => g != NIL && g == id
      case DESTINATION(d, n, f) =>
        d != NIL && key.destination == d && (n == NIL || key.routingNamespace == n) && (f == NIL || key.fabric == f)
      case ROUTING_NAMESPACE(n, f) => n != NIL && key.routingNamespace == n && (f == NIL || key.fabric == f)
      case FABRIC(f) => f != NIL && key.fabric == f
    }
  }

  datatype Capability = MUTATE_GROUP | PUBLISH_UPSTREAM

  /** Bit 0 of a capability word allows mutation, bit 1 allows upstream notices. */
  predicate HasCapability(word: U32, c: Capability) {
    match c
    case MUTATE_GROUP => word % 2 == 1
    case PUBLISH_UPSTREAM => word / 2 % 2 == 1
  }

  datatype Registration = Registration(publisher: Id, boot: Id, scope: Scope, capabilities: U32, provenance: Id)

  datatype Authority = Authority(epoch: nat, publisher: Id, boot: Id, scope: Scope, attempt: Id,
                                 expectedMembership: Option<nat>, expectedAssignment: Option<nat>,
                                 expectedAuthority: Option<nat>)
  {
    predicate WellFormed() { publisher != NIL && boot != NIL && attempt != NIL }
  }

  datatype Outcome =
    | CREATED | MEMBER_ADDED | MEMBER_REMOVED | MEMBER_DISABLED | MEMBER_ENABLED | REBALANCED | REBALANCE_PLANNED
    | REBALANCE_ABORTED | REVALIDATED | WITHDRAWN_OK | REVOKED_OK | RETIRED_OK | SUPERSEDED_OK | NO_CHANGE | IDEMPOTENT
    | REGISTERED | FENCED
    | STALE_EPOCH | STALE_WORKER | UNAUTHORIZED | UNKNOWN_GROUP | UNKNOWN_MEMBER | DUPLICATE_GROUP | DUPLICATE_MEMBER
    | STALE_GROUP_GENERATION | STALE_ASSIGNMENT_GENERATION | STALE_AUTHORITY_GENERATION | STALE_PATH_AUTHORITY
    | STALE_MULTIPATH_SET | STALE_COST_GENERATION | COST_MISMATCH | COST_CLASS_MISMATCH | INSUFFICIENT_MEMBERS
    | RESOURCE_LIMIT | LIFECYCLE_VIOLATION | NO_PENDING_PLAN | STALE_PLAN | ATTEMPT_CONFLICT | MALFORMED_REQUEST
    | REVOKED | RETIRED | WITHDRAWN | SUPERSEDED | INTERNAL_ERROR
  {
    /** The outcomes that report an accepted mutation. */
    predicate Accepted() {
      CREATED? || MEMBER_ADDED? || MEMBER_REMOVED? || MEMBER_DISABLED? || MEMBER_ENABLED? || REBALANCED? ||
      REBALANCE_PLANNED? || REBALANCE_ABORTED? || REVALIDATED? || WITHDRAWN_OK? || REVOKED_OK? || RETIRED_OK? ||
      SUPERSEDED_OK? || NO_CHANGE? || IDEMPOTENT? || REGISTERED? || FENCED?
    }
  }

  // ----- Upstream views -----

  datatype Observation = Observation(generation: U64, authorized: bool)

  /** What the path authority and the multipath fabric answer during one step. */
  datatype Upstream = Upstream(paths: map<Id, Observation>, sets: map<Id, U64>, contains: set<(Id, U64, Id)>)

  // ----- Requests -----

  datatype MemberRevalidation = MemberRevalidation(member: Id, pathAuthority: U64, cost: Option<CostClaim>)

  datatype Request =
    | CreateGroup(authority: Authority, group: Id, key: GroupKey, source: MembershipSource, multipathSet: Id,
                  multipathGen: U64, semantics: CostSemantics, hashDomain: Id, bucketCount: U32, minActive: U32,
                  members: seq<MemberSpec>, provenance: Id)
    | AddMember(authority: Authority, group: Id, spec: MemberSpec)
    | RemoveMember(authority: Authority, group: Id, member: Id)
    | SetEnabled(authority: Authority, group: Id, member: Id, enabled: bool)
    | ApplySet(authority: Authority, group: Id, members: seq<MemberSpec>)
    | Revalidate(authority: Authority, group: Id, updates: seq<MemberRevalidation>, newMultipathGen: Option<U64>)
    | PlanRebalance(authority: Authority, group: Id, members: seq<MemberSpec>)
    | CommitRebalance(authority: Authority, group: Id, plan: PlanId)
    | AbortRebalance(authority: Authority, group: Id, plan: PlanId)
    | WithdrawGroup(authority: Authority, group: Id, successor: Id)
    | RevokeGroup(authority: Authority, group: Id, successor: Id)
    | RetireGroup(authority: Authority, group: Id, successor: Id)
    | SupersedeGroup(authority: Authority, group: Id, successor: Id)

  /** What an attempt remembers of a request: its fields without the operation and without the authority, so
      operations with the same layout share a payload. */
  datatype Payload =
    | CreatePayload(group: Id, key: GroupKey, source: MembershipSource, multipathSet: Id, multipathGen: U64,
                    semantics: CostSemantics, hashDomain: Id, bucketCount: U32, minActive: U32,
                    members: seq<MemberSpec>, provenance: Id)
    | SpecPayload(group: Id, spec: MemberSpec)
    | PairPayload(group: Id, other: Id)
    | EnabledPayload(group: Id, member: Id, enabled: bool)
    | SetPayload(group: Id, members: seq<MemberSpec>)
    | RevalidatePayload(group: Id, updates: seq<MemberRevalidation>, newMultipathGen: Option<U64>)
    | PlanPayload(group: Id, plan: PlanId)

  function PayloadOf(r: Request): Payload {
    match r
    case CreateGroup(_, g, k, s, ms, mg, cs, hd, bc, ma, m, p) => CreatePayload(g, k, s, ms, mg, cs, hd, bc, ma, m, p)
    case AddMember(_, g, spec) => SpecPayload(g, spec)
    case RemoveMember(_, g, m) => PairPayload(g, m)
    case SetEnabled(_, g, m, e) => EnabledPayload(g, m, e)
    case ApplySet(_, g, m) => SetPayload(g, m)
    case Revalidate(_, g, u, mg) => RevalidatePayload(g, u, mg)
    case PlanRebalance(_, g, m) => SetPayload(g, m)
    case CommitRebalance(_, g, p) => PlanPayload(g, p)
    case AbortRebalance(_, g, p) => PlanPayload(g, p)
    case WithdrawGroup(_, g, s) => PairPayload(g, s)
    case RevokeGroup(_, g, s) => PairPayload(g, s)
    case RetireGroup(_, g, s) => PairPayload(g, s)
    case SupersedeGroup(_, g, s) => PairPayload(g, s)
  }

  datatype AttemptEntry = AttemptEntry(payload: Payload, outcome: Outcome, group: Id)
}
