/** The governor as a state machine: what every request, notice, registration and epoch change does.

    The state holds the primary records only. Where the program consults one of its reverse indexes, the step
    functions scan all groups; module EcmpGovernorClass keeps the indexes and answers the same. */
module Governor {
  import opened Prelude
  import opened Assignment
  import opened Lifecycle
  import opened Records
  import opened Sorting
  import opened Groups

  datatype State = State(limits: Limits, epoch: nat, groups: map<Id, Group>, publishers: map<Id, Registration>,
                         fenced: set<Id>, attempts: map<Id, AttemptEntry>, order: seq<Id>, costPolicy: map<Id, U64>)

  datatype Answer = Answer(state: State, outcome: Outcome)

  /** The state keeps its epoch, its publishers, its fence, its cost policy and its limits. */
  ghost predicate SameAuthority(s: State, s': State) {
    && s'.fenced == s.fenced && s'.epoch == s.epoch && s'.publishers == s.publishers
    && s'.costPolicy == s.costPolicy && s'.limits == s.limits
  }

  // ----- Scans -----

  predicate KeyTaken(groups: map<Id, Group>, key: GroupKey) {
    exists id :: id in groups && groups[id].key == key
  }

  ghost function AnyKey(groups: map<Id, Group>): (id: Id)
    requires |groups| > 0
    ensures id in groups
  {
    var id :| id in groups; id
  }

  /** The declared members of all groups together. */
  ghost function Total(groups: map<Id, Group>): nat {
    if |groups| == 0 then 0
    else
      var id := AnyKey(groups);
      |DeclaredIds(groups[id].members)| + Total(groups - {id})
  }

  predicate DeclaresPath(g: Group, path: Id) {
    exists i :: 0 <= i < |g.members| && g.members[i].record.declared && g.members[i].record.path == path
  }

  // ----- Authority -----

  function Authorize(s: State, a: Authority, c: Capability, requested: Id): Option<Outcome> {
    if !a.WellFormed() then Some(MALFORMED_REQUEST)
    else if a.epoch != s.epoch then Some(STALE_EPOCH)
    else if a.publisher !in s.publishers then Some(UNAUTHORIZED)
    else if a.boot in s.fenced then Some(STALE_WORKER)
    else if s.publishers[a.publisher].boot != a.boot then Some(STALE_WORKER)
    else if !HasCapability(s.publishers[a.publisher].capabilities, c) then Some(UNAUTHORIZED)
    else if a.scope.DENY_ALL? then Some(UNAUTHORIZED)
    else if a.scope.GROUP? && a.scope.group != requested then Some(UNAUTHORIZED)
    else None
  }

  function AuthorizeUpstream(s: State, epoch: nat, publisher: Id, boot: Id): Option<Outcome> {
    if publisher == NIL || boot == NIL then Some(MALFORMED_REQUEST)
    else if epoch != s.epoch then Some(STALE_EPOCH)
    else if publisher !in s.publishers then Some(UNAUTHORIZED)
    else if s.publishers[publisher].boot != boot || boot in s.fenced then Some(STALE_WORKER)
    else if !HasCapability(s.publishers[publisher].capabilities, PUBLISH_UPSTREAM) then Some(UNAUTHORIZED)
    else None
  }

  // ----- Attempts -----

  function HandleAttempt(s: State, a: Authority, payload: Payload): Option<Outcome> {
    if a.attempt !in s.attempts then None
    else if s.attempts[a.attempt].payload != payload then Some(ATTEMPT_CONFLICT)
    else Some(IDEMPOTENT)
  }

  /** Forgets the oldest attempts until the bound holds. */
  function DropOldest(attempts: map<Id, AttemptEntry>, order: seq<Id>, max: nat): (map<Id, AttemptEntry>, seq<Id>) {
    if |order| <= max then (attempts, order) else DropOldest(attempts - {order[0]}, order[1..], max)
  }

  /** The table and the queue with one more attempt, the newest. */
  function Remember(attempts: map<Id, AttemptEntry>, order: seq<Id>, max: nat, attempt: Id, entry: AttemptEntry)
    : (map<Id, AttemptEntry>, seq<Id>)
  {
    if attempt in attempts then (attempts[attempt := entry], order)
    else DropOldest(attempts[attempt := entry], order + [attempt], max)
  }

  function RememberAttempt(s: State, attempt: Id, entry: AttemptEntry): (s': State)
    ensures SameAuthority(s, s')
  {
    var left := Remember(s.attempts, s.order, s.limits.maxAttemptsRemembered, attempt, entry);
    s.(attempts := left.0, order := left.1)
  }

  // ----- Checks shared by the group mutations -----

  function LifecycleOutcome(l: GroupLifecycle): Outcome {
    match l
    case Revoked => REVOKED
    case Retired => RETIRED
    case Withdrawn => WITHDRAWN
    case Superseded => SUPERSEDED
    case _ => LIFECYCLE_VIOLATION
  }

  function CheckExpected(g: Group, a: Authority): Option<Outcome> {
    if a.expectedMembership.Some? && a.expectedMembership.value != g.membershipGen then Some(STALE_GROUP_GENERATION)
    else if a.expectedAssignment.Some? && a.expectedAssignment.value != g.assignmentGen
    then Some(STALE_ASSIGNMENT_GENERATION)
    else if a.expectedAuthority.Some? && a.expectedAuthority.value != g.authorityGen
    then Some(STALE_AUTHORITY_GENERATION)
    else None
  }

  /** Everything a mutation of an existing group checks first. */
  function Preamble(s: State, r: Request, event: GroupEvent): Option<Outcome> {
    var a := r.authority;
    var denied := Authorize(s, a, MUTATE_GROUP, r.group);
    if denied.Some? then denied
    else if r.group !in s.groups then Some(UNKNOWN_GROUP)
    else
      var g := s.groups[r.group];
      if !a.scope.Covers(g.key, r.group) then Some(UNAUTHORIZED)
      else if HandleAttempt(s, a, PayloadOf(r)).Some? then HandleAttempt(s, a, PayloadOf(r))
      else if !LifecycleAllows(g.lifecycle, event) then Some(LifecycleOutcome(g.lifecycle))
      else CheckExpected(g, a)
  }

  function ContextFor(s: State, a: Authority, reason: ChangeReason, event: GroupEvent): Context {
    Context(reason, event, a.publisher, a.boot, s.epoch, true, true)
  }

  function Stored(s: State, g: Group): State {
    s.(groups := s.groups[g.id := g])
  }

  /** Refreshes a changed group, evicts withdrawn entries over the bound and remembers the attempt. */
  function Finish(s: State, g: Group, c: Context, r: Request, success: Outcome): (a: Answer)
    ensures SameAuthority(s, a.state)
  {
    var f := Refresh(g, c, s.limits.maxHistory);
    if !f.ok then Answer(Stored(s, f.group), LIFECYCLE_VIOLATION)
    else
      var done := f.group.(members := Evict(f.group.members, s.limits.maxMembersPerGroup));
      Answer(RememberAttempt(Stored(s, done), r.authority.attempt, AttemptEntry(PayloadOf(r), success, g.id)), success)
  }

  // ----- Validation of member specs -----

  function CheckUpstream(up: Upstream, spec: MemberSpec, source: MembershipSource, mset: Id, generation: U64)
    : Option<Outcome>
  {
    if spec.path !in up.paths then Some(STALE_PATH_AUTHORITY)
    else if up.paths[spec.path].generation != spec.pathAuthority then Some(STALE_PATH_AUTHORITY)
    else if !up.paths[spec.path].authorized then Some(STALE_PATH_AUTHORITY)
    else if source.MULTIPATH_FABRIC? && !SetHolds(up, mset, generation, spec.path) then Some(STALE_MULTIPATH_SET)
    else None
  }

  function CostRejection(semantics: CostSemantics, reference: PathCost, claim: CostClaim): Option<Outcome> {
    if claim.costClass != semantics.costClass then Some(COST_CLASS_MISMATCH)
    else if claim.binding.model != semantics.binding.model ||
            claim.binding.modelVersion != semantics.binding.modelVersion ||
            claim.binding.routeClass != semantics.binding.routeClass then Some(COST_CLASS_MISMATCH)
    else if claim.binding.policyGeneration != semantics.binding.policyGeneration then Some(STALE_COST_GENERATION)
    else if claim.cost != reference then Some(COST_MISMATCH)
    else None
  }

  function ValidateSpec(up: Upstream, spec: MemberSpec, semantics: CostSemantics, canonical: PathCost,
                        source: MembershipSource, mset: Id, generation: U64): Option<Outcome>
  {
    if !spec.WellFormed() then Some(MALFORMED_REQUEST)
    else
      var stale := CheckUpstream(up, spec, source, mset, generation);
      if stale.Some? then stale else CostRejection(semantics, canonical, spec.cost)
  }

  function ValidateFor(up: Upstream, g: Group, spec: MemberSpec): Option<Outcome> {
    ValidateSpec(up, spec, g.semantics, g.canonicalCost, g.source, g.multipathSet, g.multipathGen)
  }

  // ----- Creation -----

  /** The first spec, from position i on, that repeats a member or does not validate. */
  function CheckNewMembers(up: Upstream, r: Request, i: nat): Option<Outcome>
    requires r.CreateGroup? && i <= |r.members|
    decreases |r.members| - i
  {
    if i == |r.members| then None
    else if IndexOf(SpecIds(r.members), r.members[i].member) < i then Some(DUPLICATE_MEMBER)
    else
      var invalid := ValidateSpec(up, r.members[i], r.semantics, r.members[0].cost.cost, r.source, r.multipathSet,
                                  r.multipathGen);
      if invalid.Some? then invalid else CheckNewMembers(up, r, i + 1)
  }

  function EnabledCount(specs: seq<MemberSpec>): nat {
    if specs == [] then 0
    else EnabledCount(specs[..|specs| - 1]) + (if specs[|specs| - 1].enabled then 1 else 0)
  }

  /** The shape and limit checks of a creation, in the program's order. */
  ghost function CheckCreation(s: State, r: Request): Option<Outcome>
    requires r.CreateGroup?
  {
    if r.group == NIL || !r.key.WellFormed() then Some(MALFORMED_REQUEST)
    else if !r.authority.scope.Covers(r.key, r.group) then Some(UNAUTHORIZED)
    else if !r.semantics.WellFormed() || r.semantics.costClass != r.key.costClass then Some(MALFORMED_REQUEST)
    else if r.hashDomain == NIL || r.provenance == NIL then Some(MALFORMED_REQUEST)
    else if r.source.MULTIPATH_FABRIC? && r.multipathSet == NIL then Some(MALFORMED_REQUEST)
    else if r.minActive == 0 || r.bucketCount == 0 then Some(MALFORMED_REQUEST)
    else if r.bucketCount > s.limits.maxBuckets || r.minActive > s.limits.maxMembersPerGroup then Some(RESOURCE_LIMIT)
    else if |r.members| > s.limits.maxMembersPerGroup || |r.members| > r.bucketCount then Some(RESOURCE_LIMIT)
    else if |r.members| < r.minActive then Some(INSUFFICIENT_MEMBERS)
    else if |s.groups| >= s.limits.maxGroups then Some(RESOURCE_LIMIT)
    else if Total(s.groups) + |r.members| > s.limits.maxTotalMembers then Some(RESOURCE_LIMIT)
    else if r.group in s.groups || KeyTaken(s.groups, r.key) then Some(DUPLICATE_GROUP)
    else None
  }

  function NewGroup(s: State, r: Request): Group
    requires r.CreateGroup? && |r.members| > 0
  {
    Group(r.group, r.key, r.source, Declared, CURRENT, 0, 0, 1, r.semantics, r.members[0].cost.cost, r.hashDomain,
          r.bucketCount, r.minActive, SortBy(EntryKey, FreshEntries(r.members)),
          seq(r.bucketCount, _ => NIL), if r.source.MULTIPATH_FABRIC? then r.multipathSet else NIL, r.multipathGen,
          r.authority.publisher, r.authority.boot, s.epoch, r.provenance, NIL, NIL, None, [], None, [])
  }

  ghost function Create(s: State, r: Request, up: Upstream): (a: Answer)
    requires r.CreateGroup?
    ensures SameAuthority(s, a.state)
  {
    var a := r.authority;
    var denied := Authorize(s, a, MUTATE_GROUP, r.group);
    if denied.Some? then Answer(s, denied.value)
    else if HandleAttempt(s, a, PayloadOf(r)).Some? then Answer(s, HandleAttempt(s, a, PayloadOf(r)).value)
    else if CheckCreation(s, r).Some? then Answer(s, CheckCreation(s, r).value)
    else
      var invalid := CheckNewMembers(up, r, 0);
      if invalid.Some? then Answer(s, invalid.value)
      else if EnabledCount(r.members) < r.minActive then Answer(s, INSUFFICIENT_MEMBERS)
      else
        var c := ContextFor(s, a, ChangeReason.CREATE, GroupEvent.ADD_MEMBER);
        var f := Refresh(NewGroup(s, r), c, s.limits.maxHistory);
        if !f.ok then Answer(s, LIFECYCLE_VIOLATION)
        else
          Answer(RememberAttempt(Stored(s, f.group), a.attempt, AttemptEntry(PayloadOf(r), CREATED, r.group)), CREATED)
  }

  // ----- Single members -----

  function WithMember(ms: seq<MemberEntry>, spec: MemberSpec): seq<MemberEntry> {
    var i := Locate(ms, spec.member);
    SortBy(EntryKey, if i < |ms| then ms[i := FreshEntry(spec)] else ms + [FreshEntry(spec)])
  }

  ghost function Add(s: State, r: Request, up: Upstream): (a: Answer)
    requires r.AddMember?
    ensures SameAuthority(s, a.state)
  {
    var stop := Preamble(s, r, GroupEvent.ADD_MEMBER);
    if stop.Some? then Answer(s, stop.value)
    else
      var g := s.groups[r.group];
      var declared := |DeclaredIds(g.members)|;
      if DeclaredIn(g.members, r.spec.member) then Answer(s, DUPLICATE_MEMBER)
      else if declared + 1 > s.limits.maxMembersPerGroup || declared + 1 > g.bucketCount then Answer(s, RESOURCE_LIMIT)
      else if Total(s.groups) + 1 > s.limits.maxTotalMembers then Answer(s, RESOURCE_LIMIT)
      else
        var invalid := ValidateFor(up, g, r.spec);
        if invalid.Some? then Answer(s, invalid.value)
        else
          Finish(s, g.(members := WithMember(g.members, r.spec)),
                 ContextFor(s, r.authority, ChangeReason.ADD_MEMBER, GroupEvent.ADD_MEMBER), r, MEMBER_ADDED)
  }

  function Departing(e: MemberEntry): MemberEntry {
    Undeclared(e).(pathCurrent := true, multipathCurrent := true, costCurrent := true)
  }

  function Remove(s: State, r: Request): (a: Answer)
    requires r.RemoveMember?
    ensures SameAuthority(s, a.state)
  {
    var stop := Preamble(s, r, GroupEvent.REMOVE_MEMBER);
    if stop.Some? then Answer(s, stop.value)
    else
      var g := s.groups[r.group];
      var i := Locate(g.members, r.member);
      if i == |g.members| || !g.members[i].record.declared then Answer(s, UNKNOWN_MEMBER)
      else
        Finish(s, g.(members := g.members[i := Departing(g.members[i])]),
               ContextFor(s, r.authority, ChangeReason.REMOVE_MEMBER, GroupEvent.REMOVE_MEMBER), r, MEMBER_REMOVED)
  }

  function Enabling(e: MemberEntry): MemberEntry {
    MemberEntry(e.record.(enabled := true), true, true, true, true)
  }

  function Enable(s: State, r: Request, up: Upstream): (a: Answer)
    requires r.SetEnabled?
    ensures SameAuthority(s, a.state)
  {
    var event := if r.enabled then GroupEvent.ENABLE_MEMBER else GroupEvent.DISABLE_MEMBER;
    var reason := if r.enabled then ChangeReason.ENABLE_MEMBER else ChangeReason.DISABLE_MEMBER;
    var stop := Preamble(s, r, event);
    if stop.Some? then Answer(s, stop.value)
    else
      var g := s.groups[r.group];
      var i := Locate(g.members, r.member);
      if i == |g.members| || !g.members[i].record.declared then Answer(s, UNKNOWN_MEMBER)
      else if g.members[i].record.enabled == r.enabled then
        Answer(RememberAttempt(s, r.authority.attempt, AttemptEntry(PayloadOf(r), NO_CHANGE, g.id)), NO_CHANGE)
      else if r.enabled && g.currentness.staleCost then Answer(s, STALE_COST_GENERATION)
      else if r.enabled && ValidateFor(up, g, SpecOf(g.members[i].record)).Some? then
        Answer(s, ValidateFor(up, g, SpecOf(g.members[i].record)).value)
      else
        var e := if r.enabled then Enabling(g.members[i]) else Disabled(g.members[i]);
        Finish(s, g.(members := g.members[i := e]), ContextFor(s, r.authority, reason, event), r,
               if r.enabled then MEMBER_ENABLED else MEMBER_DISABLED)
  }

  // ----- Member sets -----

  /** Well-formed specs naming each member once; checked spec by spec from position i. */
  function CheckSpecShape(specs: seq<MemberSpec>, i: nat): Option<Outcome>
    requires i <= |specs|
    decreases |specs| - i
  {
    if i == |specs| then None
    else if !specs[i].WellFormed() then Some(MALFORMED_REQUEST)
    else if specs[i].member in SpecIds(specs[i + 1..]) then Some(DUPLICATE_MEMBER)
    else CheckSpecShape(specs, i + 1)
  }

  /** A declared member may not change its path. */
  predicate PathMoved(g: Group, spec: MemberSpec) {
    DeclaredIn(g.members, spec.member) && g.members[Locate(g.members, spec.member)].record.path != spec.path
  }

  predicate AnyPathMoved(g: Group, specs: seq<MemberSpec>) {
    exists i :: 0 <= i < |specs| && PathMoved(g, specs[i])
  }

  predicate SpecDiffers(r: MemberRecord, spec: MemberSpec) {
    r.enabled != spec.enabled || r.pathAuthority != spec.pathAuthority ||
    r.memberGeneration != spec.memberGeneration || r.cost != spec.cost
  }

  /** How many specs ask for a change of the declared set. */
  function SpecChanges(g: Group, specs: seq<MemberSpec>): nat {
    if specs == [] then 0
    else
      var last := specs[|specs| - 1];
      var differs := !DeclaredIn(g.members, last.member) ||
                     SpecDiffers(g.members[Locate(g.members, last.member)].record, last);
      SpecChanges(g, specs[..|specs| - 1]) + (if differs then 1 else 0)
  }

  /** How many declared members the specs leave out. */
  function Departures(ms: seq<MemberEntry>, specs: seq<MemberSpec>): nat {
    if ms == [] then 0
    else
      var last := ms[|ms| - 1].record;
      Departures(ms[..|ms| - 1], specs) + (if last.declared && last.member !in SpecIds(specs) then 1 else 0)
  }

  function TargetChanges(g: Group, specs: seq<MemberSpec>): nat {
    SpecChanges(g, specs) + Departures(g.members, specs)
  }

  function ValidateAll(up: Upstream, g: Group, specs: seq<MemberSpec>, i: nat): Option<Outcome>
    requires i <= |specs|
    decreases |specs| - i
  {
    if i == |specs| then None
    else if ValidateFor(up, g, specs[i]).Some? then ValidateFor(up, g, specs[i])
    else ValidateAll(up, g, specs, i + 1)
  }

  function CheckSetRequest(s: State, g: Group, specs: seq<MemberSpec>, up: Upstream): Option<Outcome> {
    if CheckSpecShape(specs, 0).Some? then CheckSpecShape(specs, 0)
    else if |specs| > s.limits.maxMembersPerGroup || |specs| > g.bucketCount then Some(RESOURCE_LIMIT)
    else if AnyPathMoved(g, specs) then Some(MALFORMED_REQUEST)
    else if TargetChanges(g, specs) > s.limits.maxBatchSize then Some(RESOURCE_LIMIT)
    else ValidateAll(up, g, specs, 0)
  }

  function TargetContext(s: State, a: Authority, g: Group, specs: seq<MemberSpec>): Context {
    if AddedCount(g.members, specs) > 0
    then ContextFor(s, a, ChangeReason.ADD_MEMBER, GroupEvent.ADD_MEMBER)
    else ContextFor(s, a, ChangeReason.REMOVE_MEMBER, GroupEvent.REMOVE_MEMBER)
  }

  function Retargeted(g: Group, specs: seq<MemberSpec>): Group {
    g.(members := ApplyTarget(g.members, specs))
  }

  function ChurnOf(before: Group, trial: Group): nat {
    if trial.assignmentGen != before.assignmentGen && trial.lastRebalance.Some? then trial.lastRebalance.value.churn else 0
  }

  function Apply(s: State, r: Request, up: Upstream): (a: Answer)
    requires r.ApplySet?
    ensures SameAuthority(s, a.state)
  {
    var stop := Preamble(s, r, GroupEvent.ADD_MEMBER);
    if stop.Some? then Answer(s, stop.value)
    else
      var g := s.groups[r.group];
      var invalid := CheckSetRequest(s, g, r.members, up);
      if invalid.Some? then Answer(s, invalid.value)
      else
        var f := Refresh(Retargeted(g, r.members), TargetContext(s, r.authority, g, r.members), s.limits.maxHistory);
        if !f.ok then Answer(s, LIFECYCLE_VIOLATION)
        else if ChurnOf(g, f.group) > s.limits.maxRebalanceMoves then Answer(s, RESOURCE_LIMIT)
        else
          var done := f.group.(members := Evict(f.group.members, s.limits.maxMembersPerGroup));
          var outcome := if f.group.assignmentGen != g.assignmentGen then REBALANCED else NO_CHANGE;
          Answer(RememberAttempt(Stored(s, done), r.authority.attempt, AttemptEntry(PayloadOf(r), outcome, g.id)),
                 outcome)
  }

  // ----- Revalidation -----

  predicate RepeatsMember(updates: seq<MemberRevalidation>) {
    exists i, j :: 0 <= i < j < |updates| && updates[i].member == updates[j].member
  }

  function Claims(updates: seq<MemberRevalidation>): seq<CostClaim> {
    if updates == [] then []
    else
      var last := updates[|updates| - 1];
      Claims(updates[..|updates| - 1]) + (if last.cost.Some? then [last.cost.value] else [])
  }

  predicate AdoptionNeeded(g: Group, claims: seq<CostClaim>) {
    exists i :: 0 <= i < |claims| && claims[i].binding.policyGeneration != g.semantics.binding.policyGeneration
  }

  function CheckAdoption(s: State, g: Group, claims: seq<CostClaim>): Option<Outcome>
    requires |claims| > 0
  {
    if |claims| != |DeclaredIds(g.members)| then Some(STALE_COST_GENERATION)
    else if exists i :: 0 <= i < |claims| && (claims[i].costClass != g.semantics.costClass ||
                          claims[i].binding != claims[0].binding || claims[i].cost != claims[0].cost)
    then Some(COST_CLASS_MISMATCH)
    else if g.semantics.costClass !in s.costPolicy ||
            s.costPolicy[g.semantics.costClass] != claims[0].binding.policyGeneration
    then Some(STALE_COST_GENERATION)
    else None
  }

  function Adopt(g: Group, claim: CostClaim): Group {
    g.(semantics := g.semantics.(binding := claim.binding), canonicalCost := claim.cost,
       currentness := g.currentness.(staleCost := false))
  }

  function UpdatedSpec(e: MemberEntry, u: MemberRevalidation): MemberSpec {
    SpecOf(e.record).(pathAuthority := if u.pathAuthority != 0 then u.pathAuthority else e.record.pathAuthority,
                      cost := if u.cost.Some? then u.cost.value else e.record.cost)
  }

  function Reproved(e: MemberEntry, spec: MemberSpec): MemberEntry {
    e.(record := e.record.(pathAuthority := spec.pathAuthority, cost := spec.cost))
  }

  /** Applies the updates from position i on until one is refused; what was applied before stays. */
  function ApplyUpdates(up: Upstream, g: Group, updates: seq<MemberRevalidation>, i: nat): (Group, Option<Outcome>)
    requires i <= |updates|
    decreases |updates| - i
  {
    if i == |updates| then (g, None)
    else
      var k := Locate(g.members, updates[i].member);
      if k == |g.members| || !g.members[k].record.declared then (g, Some(UNKNOWN_MEMBER))
      else
        var spec := UpdatedSpec(g.members[k], updates[i]);
        if ValidateFor(up, g, spec).Some? then (g, ValidateFor(up, g, spec))
        else ApplyUpdates(up, g.(members := g.members[k := Reproved(g.members[k], spec)]), updates, i + 1)
  }

  function CheckMultipathUpdate(up: Upstream, g: Group, generation: Option<U64>): Option<Outcome> {
    if generation.None? then None
    else if g.source.DIRECT_PATH_SET? then Some(MALFORMED_REQUEST)
    else if g.multipathSet !in up.sets || up.sets[g.multipathSet] != generation.value then Some(STALE_MULTIPATH_SET)
    else None
  }

  function WithMultipath(g: Group, generation: Option<U64>): Group {
    if generation.None? then g
    else g.(multipathGen := generation.value, currentness := g.currentness.(staleMultipath := false))
  }

  /** Authority is current again and every member is observed anew. */
  function Restored(up: Upstream, g: Group): Group {
    Reobserve(up, g.(members := MapEntries(CostProven, g.members),
                     currentness := g.currentness.(staleEpoch := false, fenced := false, revalidation := false,
                                                   staleCost := false)))
  }

  function Revalidation(s: State, r: Request, up: Upstream): (a: Answer)
    requires r.Revalidate?
    ensures SameAuthority(s, a.state)
  {
    var stop := Preamble(s, r, GroupEvent.REVALIDATE);
    if stop.Some? then Answer(s, stop.value)
    else
      var g := s.groups[r.group];
      var claims := Claims(r.updates);
      if |r.updates| > s.limits.maxBatchSize then Answer(s, RESOURCE_LIMIT)
      else if RepeatsMember(r.updates) then Answer(s, MALFORMED_REQUEST)
      else if AdoptionNeeded(g, claims) && CheckAdoption(s, g, claims).Some? then
        Answer(s, CheckAdoption(s, g, claims).value)
      else
        var adopted := if AdoptionNeeded(g, claims) then Adopt(g, claims[0]) else g;
        var (updated, refused) := ApplyUpdates(up, adopted, r.updates, 0);
        if refused.Some? then Answer(Stored(s, updated), refused.value)
        else if CheckMultipathUpdate(up, updated, r.newMultipathGen).Some? then
          Answer(Stored(s, updated), CheckMultipathUpdate(up, updated, r.newMultipathGen).value)
        else
          Finish(s, Restored(up, WithMultipath(updated, r.newMultipathGen)),
                 ContextFor(s, r.authority, ChangeReason.REVALIDATION, GroupEvent.REVALIDATE), r, REVALIDATED)
  }

  // ----- Plans -----

  /** Path stability and validity are checked spec by spec, before the number of changes. */
  function CheckTargets(up: Upstream, g: Group, specs: seq<MemberSpec>, i: nat): Option<Outcome>
    requires i <= |specs|
    decreases |specs| - i
  {
    if i == |specs| then None
    else if PathMoved(g, specs[i]) then Some(MALFORMED_REQUEST)
    else if ValidateFor(up, g, specs[i]).Some? then ValidateFor(up, g, specs[i])
    else CheckTargets(up, g, specs, i + 1)
  }

  function CheckPlanRequest(s: State, g: Group, specs: seq<MemberSpec>, up: Upstream): Option<Outcome> {
    if CheckSpecShape(specs, 0).Some? then CheckSpecShape(specs, 0)
    else if |specs| > s.limits.maxMembersPerGroup || |specs| > g.bucketCount then Some(RESOURCE_LIMIT)
    else if CheckTargets(up, g, specs, 0).Some? then CheckTargets(up, g, specs, 0)
    else if TargetChanges(g, specs) > s.limits.maxBatchSize then Some(RESOURCE_LIMIT)
    else None
  }

  function PlanFor(s: State, r: Request, g: Group, trial: Group): Plan
    requires r.PlanRebalance?
  {
    var target := DeclaredIds(trial.members);
    Plan(PlanId(g.id, g.membershipGen, g.assignmentGen, target), g.membershipGen, g.assignmentGen, g.authorityGen,
         trial.membershipGen, target, SortBy(SpecKey, r.members),
         if trial.assignmentGen != g.assignmentGen && trial.lastRebalance.Some? then trial.lastRebalance.value.moves
         else [],
         trial.owners, trial.owners, s.epoch, r.authority.publisher)
  }

  function Planning(s: State, r: Request, up: Upstream): (a: Answer)
    requires r.PlanRebalance?
    ensures SameAuthority(s, a.state)
  {
    var stop := Preamble(s, r, GroupEvent.PLAN_REBALANCE);
    if stop.Some? then Answer(s, stop.value)
    else
      var g := s.groups[r.group];
      if g.plan.Some? then Answer(s, LIFECYCLE_VIOLATION)
      else
        var invalid := CheckPlanRequest(s, g, r.members, up);
        if invalid.Some? then Answer(s, invalid.value)
        else
          var f := Refresh(Retargeted(g, r.members), TargetContext(s, r.authority, g, r.members), s.limits.maxHistory);
          if !f.ok then Answer(s, LIFECYCLE_VIOLATION)
          else if ChurnOf(g, f.group) > s.limits.maxRebalanceMoves then Answer(s, RESOURCE_LIMIT)
          else
            Finish(s, g.(plan := Some(PlanFor(s, r, g, f.group))),
                   ContextFor(s, r.authority, ChangeReason.REVALIDATION, GroupEvent.PLAN_REBALANCE), r,
                   REBALANCE_PLANNED)
  }

  function CheckPlan(g: Group, plan: PlanId): Option<Outcome> {
    if g.plan.None? || g.plan.value.id != plan then Some(NO_PENDING_PLAN) else None
  }

  function CheckPlanCurrent(g: Group): Option<Outcome>
    requires g.plan.Some?
  {
    var p := g.plan.value;
    if p.fromMembership != g.membershipGen || p.fromAssignment != g.assignmentGen || p.fromAuthority != g.authorityGen
    then Some(STALE_PLAN) else None
  }

  function Commit(s: State, r: Request): (a: Answer)
    requires r.CommitRebalance?
    ensures SameAuthority(s, a.state)
  {
    var stop := Preamble(s, r, GroupEvent.COMMIT_REBALANCE);
    if stop.Some? then Answer(s, stop.value)
    else
      var g := s.groups[r.group];
      if CheckPlan(g, r.plan).Some? then Answer(s, CheckPlan(g, r.plan).value)
      else if CheckPlanCurrent(g).Some? then Answer(s, CheckPlanCurrent(g).value)
      else
        var answer := Finish(s, Retargeted(g.(plan := None), g.plan.value.targetMembers),
                             ContextFor(s, r.authority, ChangeReason.REBALANCE_COMMIT, GroupEvent.COMMIT_REBALANCE), r,
                             REBALANCED);
        if answer.outcome.Accepted() && g.id in answer.state.groups &&
           answer.state.groups[g.id].owners != g.plan.value.assignmentDigest
        then Answer(answer.state, INTERNAL_ERROR)
        else answer
  }

  function Abort(s: State, r: Request): (a: Answer)
    requires r.AbortRebalance?
    ensures SameAuthority(s, a.state)
  {
    var stop := Preamble(s, r, GroupEvent.ABORT_REBALANCE);
    if stop.Some? then Answer(s, stop.value)
    else
      var g := s.groups[r.group];
      if CheckPlan(g, r.plan).Some? then Answer(s, CheckPlan(g, r.plan).value)
      else
        Finish(s, g.(plan := None),
               ContextFor(s, r.authority, ChangeReason.PLAN_ABORTED, GroupEvent.ABORT_REBALANCE), r, REBALANCE_ABORTED)
  }

  // ----- Administrative ends -----

  function Retiring(g: Group): Group { g.(currentness := g.currentness.(retired := true)) }

  function Withdraw(s: State, r: Request): (a: Answer)
    requires r.WithdrawGroup?
    ensures SameAuthority(s, a.state)
  {
    var completing := r.group in s.groups && s.groups[r.group].lifecycle.Withdrawing?;
    var event := if completing then COMPLETE_WITHDRAW else WITHDRAW;
    var stop := Preamble(s, r, event);
    if stop.Some? then Answer(s, stop.value)
    else
      var g := s.groups[r.group];
      var ended := if completing then Retiring(g.(members := MapEntries(Undeclared, g.members))) else g;
      Finish(s, ended, ContextFor(s, r.authority, ADMIN_WITHDRAW, event), r, WITHDRAWN_OK)
  }

  function Revoke(s: State, r: Request): (a: Answer)
    requires r.RevokeGroup?
    ensures SameAuthority(s, a.state)
  {
    var stop := Preamble(s, r, REVOKE);
    if stop.Some? then Answer(s, stop.value)
    else
      var g := s.groups[r.group];
      Finish(s, Retiring(g.(members := MapEntries(Disabled, g.members))),
             ContextFor(s, r.authority, ADMIN_REVOKE, REVOKE), r, REVOKED_OK)
  }

  function Retire(s: State, r: Request): (a: Answer)
    requires r.RetireGroup?
    ensures SameAuthority(s, a.state)
  {
    var stop := Preamble(s, r, RETIRE);
    if stop.Some? then Answer(s, stop.value)
    else
      var g := s.groups[r.group];
      Finish(s, Retiring(g.(members := MapEntries(RetiredEntry, g.members), plan := None)),
             ContextFor(s, r.authority, ADMIN_WITHDRAW, RETIRE), r, RETIRED_OK)
  }

  function Supersede(s: State, r: Request): (a: Answer)
    requires r.SupersedeGroup?
    ensures SameAuthority(s, a.state)
  {
    var stop := Preamble(s, r, SUPERSEDE);
    if stop.Some? then Answer(s, stop.value)
    else
      var g := s.groups[r.group];
      if r.successor == NIL || r.successor == g.id then Answer(s, MALFORMED_REQUEST)
      else if r.successor !in s.groups then Answer(s, UNKNOWN_GROUP)
      else if IsClosed(s.groups[r.successor].lifecycle) then
        Answer(s, LifecycleOutcome(s.groups[r.successor].lifecycle))
      else
        var linked := Stored(s, s.groups[r.successor].(predecessor := g.id));
        Finish(linked, Retiring(g.(members := MapEntries(Disabled, g.members), plan := None, successor := r.successor)),
               ContextFor(s, r.authority, SUPERSESSION, SUPERSEDE), r, SUPERSEDED_OK)
  }

  /** One request under the upstream answers of that moment. */
  ghost function Serve(s: State, r: Request, up: Upstream): (a: Answer)
    ensures SameAuthority(s, a.state)
  {
    match r
    case CreateGroup(_, _, _, _, _, _, _, _, _, _, _, _) => Create(s, r, up)
    case AddMember(_, _, _) => Add(s, r, up)
    case RemoveMember(_, _, _) => Remove(s, r)
    case SetEnabled(_, _, _, _) => Enable(s, r, up)
    case ApplySet(_, _, _) => Apply(s, r, up)
    case Revalidate(_, _, _, _) => Revalidation(s, r, up)
    case PlanRebalance(_, _, _) => Planning(s, r, up)
    case CommitRebalance(_, _, _) => Commit(s, r)
    case AbortRebalance(_, _, _) => Abort(s, r)
    case WithdrawGroup(_, _, _) => Withdraw(s, r)
    case RevokeGroup(_, _, _) => Revoke(s, r)
    case RetireGroup(_, _, _) => Retire(s, r)
    case SupersedeGroup(_, _, _) => Supersede(s, r)
  }

  // ----- Upstream notices -----

  /** The outcome of a notice for one group: the group afterwards, and whether it was refreshed. */
  datatype Noticed = Noticed(group: Group, affected: bool)

  function NoticeContext(reason: ChangeReason, event: GroupEvent, publisher: Id, boot: Id, epoch: nat): Context {
    Context(reason, event, publisher, boot, epoch, false, true)
  }

  function NoticePathEntry(up: Upstream, path: Id, e: MemberEntry): MemberEntry {
    if e.record.declared && e.record.path == path then ReobservePath(up, e) else e
  }

  function NoticePath(up: Upstream, path: Id, g: Group, c: Context, maxHistory: nat): Noticed {
    var ms := MapEntries(e => NoticePathEntry(up, path, e), g.members);
    var changed := exists i :: 0 <= i < |ms| && ms[i].pathCurrent != g.members[i].pathCurrent;
    var stale := AnyPathStale(ms);
    var observed := g.(members := ms, currentness := g.currentness.(stalePath := stale));
    if !changed && stale == g.currentness.stalePath then Noticed(observed, false)
    else Noticed(Refresh(observed, c, maxHistory).group, true)
  }

  predicate MultipathIsStale(up: Upstream, g: Group) {
    g.multipathSet !in up.sets || up.sets[g.multipathSet] != g.multipathGen ||
    exists i :: 0 <= i < |g.members| && g.members[i].record.declared &&
                (g.multipathSet, g.multipathGen, g.members[i].record.path) !in up.contains
  }

  function NoticeMultipath(up: Upstream, g: Group, c: Context, maxHistory: nat): Noticed {
    var stale := MultipathIsStale(up, g);
    if stale == g.currentness.staleMultipath then Noticed(g, false)
    else
      var ms := if stale then MapEntries(MultipathStale, g.members) else MapEntries(MultipathProven, g.members);
      var flagged := g.(members := ms, currentness := g.currentness.(staleMultipath := stale));
      Noticed(Refresh(flagged, c, maxHistory).group, true)
  }

  function NoticeCost(generation: U64, g: Group, c: Context, maxHistory: nat): Noticed {
    var stale := g.semantics.binding.policyGeneration != generation;
    if stale == g.currentness.staleCost then Noticed(g, false)
    else
      var ms := if stale then MapEntries(CostStale, g.members) else MapEntries(CostProven, g.members);
      var flagged := g.(members := ms, currentness := g.currentness.(staleCost := stale));
      Noticed(Refresh(flagged, c, maxHistory).group, true)
  }

  datatype Notice =
    | PathNotice(epoch: nat, publisher: Id, boot: Id, path: Id)
    | MultipathNotice(epoch: nat, publisher: Id, boot: Id, mset: Id)
    | CostNotice(epoch: nat, publisher: Id, boot: Id, costClass: Id, generation: U64)

  function NoticeSubject(n: Notice): Id {
    match n
    case PathNotice(_, _, _, path) => path
    case MultipathNotice(_, _, _, mset) => mset
    case CostNotice(_, _, _, costClass, _) => costClass
  }

  /** The groups a notice is about. */
  predicate DependsOn(g: Group, n: Notice) {
    match n
    case PathNotice(_, _, _, path) => DeclaresPath(g, path)
    case MultipathNotice(_, _, _, mset) => mset != NIL && g.multipathSet == mset
    case CostNotice(_, _, _, costClass, _) => costClass != NIL && g.key.costClass == costClass
  }

  function NoticeGroup(s: State, up: Upstream, n: Notice, g: Group): Noticed {
    if !DependsOn(g, n) || n.publisher !in s.publishers ||
       !s.publishers[n.publisher].scope.Covers(g.key, g.id) || IsClosed(g.lifecycle) then Noticed(g, false)
    else
      match n
      case PathNotice(_, p, b, path) =>
        NoticePath(up, path, g, NoticeContext(PATH_INVALIDATION, INVALIDATE_PATH, p, b, s.epoch), s.limits.maxHistory)
      case MultipathNotice(_, p, b, _) =>
        if g.source.DIRECT_PATH_SET? then Noticed(g, false)
        else
          NoticeMultipath(up, g, NoticeContext(MULTIPATH_INVALIDATION, INVALIDATE_MULTIPATH, p, b, s.epoch),
                          s.limits.maxHistory)
      case CostNotice(_, p, b, _, generation) =>
        NoticeCost(generation, g, NoticeContext(COST_INVALIDATION, INVALIDATE_COST, p, b, s.epoch), s.limits.maxHistory)
  }

  function Notify(s: State, n: Notice, up: Upstream): Answer {
    var denied := AuthorizeUpstream(s, n.epoch, n.publisher, n.boot);
    if denied.Some? then Answer(s, denied.value)
    else if NoticeSubject(n) == NIL then Answer(s, MALFORMED_REQUEST)
    else
      var groups := map id | id in s.groups :: NoticeGroup(s, up, n, s.groups[id]).group;
      var affected := exists id :: id in s.groups && NoticeGroup(s, up, n, s.groups[id]).affected;
      var policy := if n.CostNotice? then s.costPolicy[n.costClass := n.generation] else s.costPolicy;
      Answer(s.(groups := groups, costPolicy := policy), if affected then REBALANCED else NO_CHANGE)
  }

  // ----- Publishers and epochs -----

  function Register(s: State, epoch: nat, reg: Registration): Answer {
    if reg.publisher == NIL || reg.boot == NIL then Answer(s, MALFORMED_REQUEST)
    else if epoch != s.epoch then Answer(s, STALE_EPOCH)
    else if reg.scope.DENY_ALL? || reg.capabilities == 0 then Answer(s, UNAUTHORIZED)
    else if reg.boot in s.fenced then Answer(s, STALE_WORKER)
    else if reg.publisher in s.publishers then
      if s.publishers[reg.publisher].boot == reg.boot then
        Answer(s.(publishers := s.publishers[reg.publisher := reg]), REGISTERED)
      else if |s.fenced| >= s.limits.maxPublishers then Answer(s, RESOURCE_LIMIT)
      else
        Answer(s.(publishers := s.publishers[reg.publisher := reg],
                  fenced := s.fenced + {s.publishers[reg.publisher].boot}), REGISTERED)
    else if |s.publishers| >= s.limits.maxPublishers then Answer(s, RESOURCE_LIMIT)
    else Answer(s.(publishers := s.publishers[reg.publisher := reg]), REGISTERED)
  }

  function LapseContext(g: Group, reason: ChangeReason, publisher: Id, boot: Id, epoch: nat): Context {
    Context(reason, INVALIDATE_EPOCH, publisher, boot, epoch, false, false)
  }

  /** A group whose authority lapsed: nothing is proven any more, the plan is gone, the map stays. */
  function FencedGroup(g: Group, publisher: Id, boot: Id, epoch: nat, maxHistory: nat): Group {
    var lapsed := g.(currentness := g.currentness.(fenced := true, revalidation := true), plan := None,
                     members := MapEntries(Unproven, g.members));
    Refresh(lapsed, LapseContext(g, EPOCH_INVALIDATION, publisher, boot, epoch), maxHistory).group
  }

  function Fence(s: State, publisher: Id, boot: Id): Answer {
    if publisher == NIL || boot == NIL then Answer(s, MALFORMED_REQUEST)
    else if publisher !in s.publishers || s.publishers[publisher].boot != boot then Answer(s, FENCED)
    else
      var groups := map id | id in s.groups ::
        var g := s.groups[id];
        if g.publisher == publisher && g.boot == boot && !IsClosed(g.lifecycle)
        then FencedGroup(g, publisher, boot, s.epoch, s.limits.maxHistory) else g;
      Answer(s.(publishers := s.publishers - {publisher}, groups := groups,
                fenced := if |s.fenced| < s.limits.maxPublishers then s.fenced + {boot} else s.fenced), FENCED)
  }

  function EpochGroup(g: Group, epoch: nat, maxHistory: nat): Group {
    if IsClosed(g.lifecycle) || (g.boundEpoch != 0 && g.boundEpoch == epoch) then g
    else
      var lapsed := g.(authorityGen := g.authorityGen + 1, plan := None, members := MapEntries(Unproven, g.members),
                       currentness := g.currentness.(staleEpoch := true, revalidation := true));
      Refresh(lapsed, LapseContext(g, EPOCH_INVALIDATION, g.publisher, g.boot, epoch), maxHistory).group
  }

  /** Advances the epoch; an epoch that is not newer is refused with STALE_EPOCH. */
  function SetEpoch(s: State, epoch: nat): Answer {
    if epoch <= s.epoch then Answer(s, STALE_EPOCH)
    else
      Answer(s.(epoch := epoch, publishers := map[], fenced := {},
                groups := map id | id in s.groups :: EpochGroup(s.groups[id], epoch, s.limits.maxHistory)), NO_CHANGE)
  }

  // ----- Restart -----

  /** What a store file keeps of a state. */
  datatype Image = Image(epoch: nat, groups: map<Id, Group>)

  function RecoveredGroup(g: Group, epoch: nat, maxHistory: nat): Group {
    var members := MapEntries(Unproven, g.members);
    var lapsed := g.(members := members, currentness := g.currentness.(staleEpoch := true, revalidation := true),
                     plan := None, authorityGen := g.authorityGen + 1, declaredDigest := DeclaredIds(members));
    Refresh(lapsed, LapseContext(g, RECOVERY, g.publisher, g.boot, epoch), maxHistory).group
  }

  function RecoveredGroups(image: Image, maxHistory: nat): map<Id, Group> {
    map id | id in image.groups :: RecoveredGroup(image.groups[id], image.epoch, maxHistory)
  }

  /** Loads a decoded store image into an empty governor. */
  function Load(s: State, image: Image): Answer {
    if s.groups != map[] then Answer(s, MALFORMED_REQUEST)
    else if image.epoch < s.epoch then Answer(s, STALE_EPOCH)
    else
      Answer(s.(epoch := image.epoch, publishers := map[], fenced := {}, attempts := map[], order := [],
                groups := RecoveredGroups(image, s.limits.maxHistory)), CREATED)
  }

  function Save(s: State): Image { Image(s.epoch, s.groups) }

  // ----- Runs -----

  datatype Step =
    | OnRequest(request: Request, up: Upstream)
    | OnNotice(notice: Notice, up: Upstream)
    | OnRegister(epoch: nat, registration: Registration)
    | OnFence(publisher: Id, boot: Id)
    | OnEpoch(epoch: nat)

  ghost function Next(s: State, step: Step): Answer {
    match step
    case OnRequest(r, up) => Serve(s, r, up)
    case OnNotice(n, up) => Notify(s, n, up)
    case OnRegister(e, reg) => Register(s, e, reg)
    case OnFence(p, b) => Fence(s, p, b)
    case OnEpoch(e) => SetEpoch(s, e)
  }
}
