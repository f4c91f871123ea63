/** One group: its members and their flags, and the refresh that every change ends with. */
module Groups {
  import opened Prelude
  import opened Assignment
  import opened Lifecycle
  import opened Records
  import opened Sorting

  // ----- Members -----

  function EntryKey(e: MemberEntry): Key { Key(e.record.path, e.record.member) }

  function SpecKey(s: MemberSpec): Key { Key(s.path, s.member) }

  function MemberIds(ms: seq<MemberEntry>): (ids: seq<Id>)
    ensures |ids| == |ms|
  {
    seq(|ms|, i requires 0 <= i < |ms| => ms[i].record.member)
  }

  function SpecIds(specs: seq<MemberSpec>): (ids: seq<Id>)
    ensures |ids| == |specs|
  {
    seq(|specs|, i requires 0 <= i < |specs| => specs[i].member)
  }

  /** The active members, in the order of the entries. */
  function ActiveIds(ms: seq<MemberEntry>): seq<Id> {
    if ms == [] then []
    else
      var last := ms[|ms| - 1].record;
      ActiveIds(ms[..|ms| - 1]) + (if last.IsActive() then [last.member] else [])
  }

  /** The declared members, in the order of the entries. */
  function DeclaredIds(ms: seq<MemberEntry>): seq<Id> {
    if ms == [] then []
    else
      var last := ms[|ms| - 1].record;
      DeclaredIds(ms[..|ms| - 1]) + (if last.declared then [last.member] else [])
  }

  /** The position of the entry of a member, or the number of entries. */
  function Locate(ms: seq<MemberEntry>, member: Id): (i: nat)
    ensures i <= |ms|
    ensures i < |ms| ==> ms[i].record.member == member
  {
    IndexOf(MemberIds(ms), member)
  }

  function RecordsOf(ms: seq<MemberEntry>): (rs: seq<MemberRecord>)
    ensures |rs| == |ms|
  {
    seq(|ms|, i requires 0 <= i < |ms| => ms[i].record)
  }

  function MakeRecord(spec: MemberSpec): MemberRecord {
    MemberRecord(spec.member, spec.path, spec.pathAuthority, spec.memberGeneration, spec.cost, spec.provenance,
                 spec.enabled, true, MemberActive)
  }

  /** The entry of a member that was just validated. */
  function FreshEntry(spec: MemberSpec): MemberEntry {
    MemberEntry(MakeRecord(spec), true, true, true, true)
  }

  /** The entries of members that were just validated. */
  function FreshEntries(specs: seq<MemberSpec>): (ms: seq<MemberEntry>)
    ensures |ms| == |specs|
  {
    seq(|specs|, i requires 0 <= i < |specs| => FreshEntry(specs[i]))
  }

  function SpecOf(r: MemberRecord): MemberSpec {
    MemberSpec(r.member, r.path, r.pathAuthority, r.memberGeneration, r.cost, r.provenance, r.enabled)
  }

  function DeriveEntry(e: MemberEntry): MemberEntry {
    e.(record := e.record.(state := DeriveMemberState(e.record.declared, e.record.enabled, e.UpstreamCurrent())))
  }

  /** Applies one change to every entry. */
  function MapEntries(f: MemberEntry -> MemberEntry, ms: seq<MemberEntry>): (r: seq<MemberEntry>)
    ensures |r| == |ms|
    ensures forall i :: 0 <= i < |ms| ==> r[i] == f(ms[i])
  {
    seq(|ms|, i requires 0 <= i < |ms| => f(ms[i]))
  }

  function Unproven(e: MemberEntry): MemberEntry {
    e.(pathCurrent := false, pathAuthorized := false, multipathCurrent := false, costCurrent := false)
  }

  function CostProven(e: MemberEntry): MemberEntry { e.(costCurrent := true) }

  function CostStale(e: MemberEntry): MemberEntry { if e.record.declared then e.(costCurrent := false) else e }

  function MultipathProven(e: MemberEntry): MemberEntry { e.(multipathCurrent := true) }

  function MultipathStale(e: MemberEntry): MemberEntry { if e.record.declared then e.(multipathCurrent := false) else e }

  function Undeclared(e: MemberEntry): MemberEntry { e.(record := e.record.(declared := false, enabled := true)) }

  function Disabled(e: MemberEntry): MemberEntry { e.(record := e.record.(enabled := false)) }

  function RetiredEntry(e: MemberEntry): MemberEntry { e.(record := e.record.(declared := false, enabled := false)) }

  /** Drops undeclared entries, first ones first, until at most `max` entries are left. */
  function Evict(ms: seq<MemberEntry>, max: nat): seq<MemberEntry>
    decreases |ms|
  {
    if |ms| <= max then ms
    else
      var i := FirstUndeclared(ms);
      if i == |ms| then ms else Evict(ms[..i] + ms[i + 1..], max)
  }

  function FirstUndeclared(ms: seq<MemberEntry>): (i: nat)
    ensures i <= |ms|
    ensures i < |ms| ==> !ms[i].record.declared
    ensures forall j :: 0 <= j < i ==> ms[j].record.declared
  {
    if ms == [] then 0
    else
      var i := FirstUndeclared(ms[..|ms| - 1]);
      if i < |ms| - 1 then i else if ms[|ms| - 1].record.declared then |ms| else |ms| - 1
  }

  // ----- Declared target sets -----

  /** What becomes of an existing entry when the declared set is replaced. */
  function Retarget(e: MemberEntry, specs: seq<MemberSpec>): MemberEntry {
    var k := IndexOf(SpecIds(specs), e.record.member);
    if k < |specs| then FreshEntry(specs[k]) else if e.record.declared then Undeclared(e) else e
  }

  function RetargetAll(ms: seq<MemberEntry>, specs: seq<MemberSpec>): (r: seq<MemberEntry>)
    ensures |r| == |ms|
  {
    seq(|ms|, i requires 0 <= i < |ms| => Retarget(ms[i], specs))
  }

  /** The entries of those specs that have none yet. */
  function Newcomers(ms: seq<MemberEntry>, specs: seq<MemberSpec>): seq<MemberEntry> {
    if specs == [] then []
    else
      var last := specs[|specs| - 1];
      Newcomers(ms, specs[..|specs| - 1]) +
      (if Locate(ms, last.member) == |ms| then [FreshEntry(last)] else [])
  }

  function ApplyTarget(ms: seq<MemberEntry>, specs: seq<MemberSpec>): seq<MemberEntry> {
    SortBy(EntryKey, RetargetAll(ms, specs) + Newcomers(ms, specs))
  }

  predicate DeclaredIn(ms: seq<MemberEntry>, member: Id) {
    var i := Locate(ms, member);
    i < |ms| && ms[i].record.declared
  }

  /** How many specs declare a member that was not declared. */
  function AddedCount(ms: seq<MemberEntry>, specs: seq<MemberSpec>): nat {
    if specs == [] then 0
    else
      AddedCount(ms, specs[..|specs| - 1]) + (if DeclaredIn(ms, specs[|specs| - 1].member) then 0 else 1)
  }

  // ----- Refresh -----

  datatype Context = Context(reason: ChangeReason, event: GroupEvent, publisher: Id, boot: Id, epoch: nat,
                             bind: bool, recompute: bool)

  datatype Refreshed = Refreshed(group: Group, ok: bool)

  /** The authority binding follows the caller. */
  function Bind(g: Group, c: Context): Group {
    if !c.bind || (g.boundEpoch == c.epoch && g.publisher == c.publisher && g.boot == c.boot) then g
    else g.(authorityGen := g.authorityGen + 1, boundEpoch := c.epoch, publisher := c.publisher, boot := c.boot)
  }

  function DeriveMembers(g: Group): Group {
    var ms := MapEntries(DeriveEntry, g.members);
    var declared := DeclaredIds(ms);
    if declared == g.declaredDigest then g.(members := ms)
    else g.(members := ms, membershipGen := g.membershipGen + 1, declaredDigest := declared)
  }

  /** The map is recomputed from the active members; `before` supplies the generations the change started from. */
  function Reassign(before: Group, g: Group, c: Context): Group {
    var active := ActiveIds(g.members);
    var previous := Padded(g.owners, g.bucketCount);
    var owners := Rebalanced(previous, active);
    var moves := Moves(previous, owners, active);
    var g' := if owners == g.owners then g else g.(assignmentGen := g.assignmentGen + 1, owners := owners);
    if moves == [] then g'
    else
      g'.(lastRebalance := Some(RebalanceRecord(
        if g.plan.Some? then Some(g.plan.value.id) else None, c.reason, before.membershipGen, g'.membershipGen,
        before.assignmentGen, g'.assignmentGen, moves, |moves|, owners)))
  }

  function InputsOf(g: Group): LifecycleInputs {
    LifecycleInputs(|DeclaredIds(g.members)|, |ActiveIds(g.members)|, g.minActive, g.plan.Some?,
                    g.currentness.AuthorityCurrent())
  }

  function Trim<T>(xs: seq<T>, max: nat): (r: seq<T>)
    ensures |r| <= max
  {
    if |xs| <= max then xs else xs[|xs| - max..]
  }

  /** A change of generation, lifecycle or currentness leaves one history entry. */
  function Chronicle(before: Group, g: Group, c: Context, maxHistory: nat): Group {
    if g.membershipGen == before.membershipGen && g.assignmentGen == before.assignmentGen &&
       g.authorityGen == before.authorityGen && g.lifecycle == before.lifecycle && g.currentness == before.currentness
    then g
    else
      var moved := g.lastRebalance.Some? && g.assignmentGen != before.assignmentGen;
      var entry := HistoryEntry(
        g.membershipGen, g.assignmentGen, g.authorityGen, c.reason, c.publisher, c.epoch,
        if moved then g.lastRebalance.value.churn else 0,
        if moved then |g.lastRebalance.value.moves| else 0,
        if g.plan.Some? then Some(g.plan.value.id) else None, RecordsOf(g.members), g.owners);
      g.(history := Trim(g.history + [entry], maxHistory))
  }

  /** The group with everything derived except the lifecycle. */
  function Settle(g: Group, c: Context): Group {
    var derived := DeriveMembers(Bind(g, c));
    if c.recompute then Reassign(g, derived, c) else derived
  }

  function Refresh(g: Group, c: Context, maxHistory: nat): Refreshed {
    var settled := Settle(g, c);
    match ApplyGroupEvent(settled.lifecycle, c.event, InputsOf(settled))
    case None => Refreshed(settled, false)
    case Some(lifecycle) => Refreshed(Chronicle(g, settled.(lifecycle := lifecycle), c, maxHistory), true)
  }

  // ----- Upstream observation -----

  function ReobservePath(up: Upstream, e: MemberEntry): MemberEntry {
    if e.record.path !in up.paths then e.(pathCurrent := false, pathAuthorized := false)
    else
      var o := up.paths[e.record.path];
      e.(pathCurrent := o.authorized && o.generation == e.record.pathAuthority, pathAuthorized := o.authorized)
  }

  predicate SetHolds(up: Upstream, mset: Id, generation: U64, path: Id) {
    mset in up.sets && up.sets[mset] == generation && (mset, generation, path) in up.contains
  }

  function ReobserveEntry(up: Upstream, source: MembershipSource, mset: Id, generation: U64, e: MemberEntry): MemberEntry {
    if !e.record.declared then e
    else
      ReobservePath(up, e).(multipathCurrent :=
        source.DIRECT_PATH_SET? || (mset != NIL && SetHolds(up, mset, generation, e.record.path)))
  }

  predicate AnyPathStale(ms: seq<MemberEntry>) {
    exists i :: 0 <= i < |ms| && ms[i].record.declared && !ms[i].pathCurrent
  }

  predicate AnyMultipathStale(ms: seq<MemberEntry>) {
    exists i :: 0 <= i < |ms| && ms[i].record.declared && !ms[i].multipathCurrent
  }

  function Reobserve(up: Upstream, g: Group): Group {
    var ms := MapEntries(e => ReobserveEntry(up, g.source, g.multipathSet, g.multipathGen, e), g.members);
    g.(members := ms,
       currentness := g.currentness.(stalePath := AnyPathStale(ms),
                                     staleMultipath := g.source.MULTIPATH_FABRIC? && AnyMultipathStale(ms)))
  }
}
