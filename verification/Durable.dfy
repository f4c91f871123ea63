/** What a store file keeps of a state, and which states survive being written and read back. */
module Durable {
  import opened Prelude
  import opened Assignment
  import opened AssignmentProofs
  import opened Lifecycle
  import opened Records
  import opened Bytes
  import opened AssignmentPairs
  import opened StoreFile
  import opened StoreCodec
  import opened StorePayload
  import opened Groups
  import opened GroupProofs
  import opened Governor
  import opened Invariants
  import opened Attempts

  /** The digest functions: what a store file writes instead of the digested values. */
  datatype Cut = Cut(ids: seq<Id> -> Tag, records: seq<MemberRecord> -> Tag, owners: seq<Id> -> Tag, plan: PlanId -> Id,
                     payload: Payload -> Tag, outcome: Outcome -> U32, condition: Id -> U32)

  // ----- Stored forms -----

  function StoredPlanFor(p: Plan, cut: Cut): StoredPlan {
    StoredPlan(cut.plan(p.id), p.fromMembership, p.fromAssignment, p.fromAuthority, p.targetMembership,
               cut.ids(p.targetDigest), p.targetMembers, p.moves, p.assignment, cut.owners(p.assignmentDigest), p.epoch,
               p.publisher)
  }

  function StoredHistoryFor(h: HistoryEntry, cut: Cut): StoredHistory {
    StoredHistory(h.membershipGen, h.assignmentGen, h.authorityGen, h.reason, h.publisher, h.epoch, h.churn,
                  h.movesRecorded, if h.plan.Some? then Some(cut.plan(h.plan.value)) else None,
                  cut.records(h.membershipDigest), cut.owners(h.assignmentDigest))
  }

  function StoredHistoriesFor(hs: seq<HistoryEntry>, cut: Cut): (r: seq<StoredHistory>)
    ensures |r| == |hs|
  {
    seq(|hs|, i requires 0 <= i < |hs| => StoredHistoryFor(hs[i], cut))
  }

  function StoredRebalanceFor(r: RebalanceRecord, cut: Cut): StoredRebalance {
    StoredRebalance(if r.plan.Some? then cut.plan(r.plan.value) else NIL, r.reason, r.fromMembership, r.toMembership,
                    r.fromAssignment, r.toAssignment, r.moves, r.churn, cut.owners(r.assignmentDigest))
  }

  function HeadFor(g: Group): GroupHead {
    GroupHead(g.id, g.key, g.source, g.lifecycle, g.currentness, g.membershipGen, g.assignmentGen, g.authorityGen)
  }

  function TermsFor(g: Group): GroupTerms {
    GroupTerms(g.semantics, g.canonicalCost, g.hashDomain, g.bucketCount, g.minActive)
  }

  function BindingFor(g: Group, cut: Cut): GroupBinding {
    GroupBinding(g.multipathSet, g.multipathGen, g.publisher, g.boot, g.boundEpoch, g.provenance, g.successor,
                 g.predecessor, cut.ids(g.declaredDigest))
  }

  function BodyFor(g: Group, cut: Cut): GroupBody {
    GroupBody(g.owners, if g.plan.Some? then Some(StoredPlanFor(g.plan.value, cut)) else None,
              StoredHistoriesFor(g.history, cut),
              if g.lastRebalance.Some? then Some(StoredRebalanceFor(g.lastRebalance.value, cut)) else None)
  }

  /** A group as it is written. */
  function StoredFor(g: Group, cut: Cut): StoredGroup {
    StoredGroup(HeadFor(g), TermsFor(g), BindingFor(g, cut), g.members, BodyFor(g, cut))
  }

  // ----- Nothing is lost -----

  /** Two values with one digest are one value. */
  ghost predicate Apart<T, D>(digest: T -> D, x: T, y: T) {
    digest(x) == digest(y) ==> x == y
  }

  ghost predicate PlanIdsApart(cut: Cut, x: Option<PlanId>, y: Option<PlanId>) {
    x.Some? && y.Some? ==> Apart(cut.plan, x.value, y.value)
  }

  ghost predicate HistoryApart(cut: Cut, x: HistoryEntry, y: HistoryEntry) {
    && PlanIdsApart(cut, x.plan, y.plan) && Apart(cut.records, x.membershipDigest, y.membershipDigest)
    && Apart(cut.owners, x.assignmentDigest, y.assignmentDigest)
  }

  ghost predicate HistoriesApart(cut: Cut, xs: seq<HistoryEntry>, ys: seq<HistoryEntry>) {
    forall i :: 0 <= i < |xs| && i < |ys| ==> HistoryApart(cut, xs[i], ys[i])
  }

  ghost predicate RebalancesApart(cut: Cut, x: RebalanceRecord, y: RebalanceRecord) {
    && PlanIdsApart(cut, x.plan, y.plan) && (x.plan.Some? ==> cut.plan(x.plan.value) != NIL)
    && (y.plan.Some? ==> cut.plan(y.plan.value) != NIL) && Apart(cut.owners, x.assignmentDigest, y.assignmentDigest)
  }

  ghost predicate PlansApart(cut: Cut, x: Plan, y: Plan) {
    && Apart(cut.plan, x.id, y.id) && Apart(cut.ids, x.targetDigest, y.targetDigest)
    && Apart(cut.owners, x.assignmentDigest, y.assignmentDigest)
  }

  /** No two digests of these two groups collide. */
  ghost predicate NoCollision(cut: Cut, a: Group, b: Group) {
    && Apart(cut.ids, a.declaredDigest, b.declaredDigest) && HistoriesApart(cut, a.history, b.history)
    && (a.plan.Some? && b.plan.Some? ==> PlansApart(cut, a.plan.value, b.plan.value))
    && (a.lastRebalance.Some? && b.lastRebalance.Some? ==>
          RebalancesApart(cut, a.lastRebalance.value, b.lastRebalance.value))
  }

  lemma HistoriesDetermined(a: seq<HistoryEntry>, b: seq<HistoryEntry>, cut: Cut)
    requires HistoriesApart(cut, a, b) && StoredHistoriesFor(a, cut) == StoredHistoriesFor(b, cut)
    ensures a == b
  {
    assert |a| == |StoredHistoriesFor(a, cut)| == |b|;
    forall i | 0 <= i < |a| ensures a[i] == b[i] {
      assert StoredHistoriesFor(a, cut)[i] == StoredHistoryFor(a[i], cut);
      assert StoredHistoriesFor(b, cut)[i] == StoredHistoryFor(b[i], cut);
      assert HistoryApart(cut, a[i], b[i]);
    }
  }

  /** The stored form determines the group: everything a group holds survives, unless two digests collide. */
  lemma GroupDetermined(a: Group, b: Group, cut: Cut)
    requires NoCollision(cut, a, b) && StoredFor(a, cut) == StoredFor(b, cut)
    ensures a == b
  {
    hide StoredHistoriesFor, HistoriesApart;
    assert HeadFor(a) == HeadFor(b) && TermsFor(a) == TermsFor(b) && BindingFor(a, cut) == BindingFor(b, cut);
    assert BodyFor(a, cut) == BodyFor(b, cut);
    HistoriesDetermined(a.history, b.history, cut);
    if a.plan.Some? {
      assert StoredPlanFor(a.plan.value, cut) == StoredPlanFor(b.plan.value, cut);
    }
    if a.lastRebalance.Some? {
      assert StoredRebalanceFor(a.lastRebalance.value, cut) == StoredRebalanceFor(b.lastRebalance.value, cut);
    }
  }

  // ----- Which groups are read back -----

  /** The cost terms the members must meet are complete. */
  predicate Priced(g: Group) { g.semantics.WellFormed() && g.canonicalCost.WellFormed() }

  /** A pending plan assigns buckets to members the group already has. */
  predicate PlanKnown(g: Group) {
    g.plan.Some? ==> OwnersKnownIn(g.plan.value.assignment, Known(g.members))
  }

  predicate EntrySound(e: MemberEntry) { e.record.path != NIL && e.record.cost.WellFormed() }

  predicate SoundEntries(ms: seq<MemberEntry>) {
    forall i :: 0 <= i < |ms| ==> EntrySound(ms[i])
  }

  predicate SoundSpecs(specs: seq<MemberSpec>) {
    forall i :: 0 <= i < |specs| ==> specs[i].WellFormed()
  }

  /** At most one move for each bucket of the map. */
  predicate MovesWithin(moves: seq<BucketMove>, buckets: nat) {
    |moves| <= buckets && forall i :: 0 <= i < |moves| ==> moves[i].bucket < buckets
  }

  /** What every group keeps besides being in order: whatever the reader checks and nobody else does. */
  predicate Sturdy(g: Group) {
    && g.id != NIL && g.key.WellFormed() && g.hashDomain != NIL && SoundEntries(g.members)
    && |g.owners| == g.bucketCount && g.semantics.costClass != NIL
    && (g.lastRebalance.Some? ==> MovesWithin(g.lastRebalance.value.moves, g.bucketCount))
    && (g.plan.Some? ==>
          var p := g.plan.value;
          MovesWithin(p.moves, g.bucketCount) && |p.assignment| == g.bucketCount && SoundSpecs(p.targetMembers))
  }

  lemma KnownMembers(ms: seq<MemberEntry>, x: Id)
    ensures x in Known(ms) <==> x in MemberIds(ms)
  {
    if x in MemberIds(ms) {
      var i :| 0 <= i < |ms| && MemberIds(ms)[i] == x;
      assert ms[i] in ms;
    }
    if x in Known(ms) {
      var e :| e in ms && e.record.member == x;
      var i :| 0 <= i < |ms| && ms[i] == e;
      assert MemberIds(ms)[i] == x;
    }
  }

  lemma {:induction false} DeclaredCountIs(ms: seq<MemberEntry>)
    ensures DeclaredCount(ms) == |DeclaredIds(ms)|
  {
    if ms != [] { DeclaredCountIs(ms[..|ms| - 1]); }
  }

  lemma OrderedMembersFit(ms: seq<MemberEntry>)
    requires EntriesOk(ms) && SoundEntries(ms)
    ensures MembersFit(ms)
  {
    forall i | 0 <= i < |ms| ensures EntryFits(ms[i]) {
      assert MemberIds(ms)[i] != NIL;
      assert EntrySound(ms[i]);
    }
    forall i, j | 0 <= i < j < |ms| ensures ms[i].record.member != ms[j].record.member {
      assert MemberIds(ms)[i] != MemberIds(ms)[j];
    }
  }

  lemma OwnersOfGroupKnown(g: Group)
    requires OwnersKnown(g)
    ensures OwnersKnownIn(g.owners, Known(g.members))
  {
    forall b | 0 <= b < |g.owners| ensures g.owners[b] == NIL || g.owners[b] in Known(g.members) {
      KnownMembers(g.members, g.owners[b]);
    }
  }

  lemma BodyOfGroupFits(g: Group, limits: Limits, cut: Cut)
    requires limits.Coherent() && 0 < g.bucketCount <= limits.maxBuckets && |g.owners| == g.bucketCount
    requires |g.history| <= limits.maxHistory && OwnersKnown(g) && Sturdy(g)
    requires g.plan.Some? ==> |g.plan.value.targetMembers| <= limits.maxMembersPerGroup
    ensures BodyFits(BodyFor(g, cut), limits, Known(g.members)) <==> PlanKnown(g)
  {
    OwnersOfGroupKnown(g);
    hide OwnersKnownIn, Known, OwnersKnown, SoundEntries;
  }

  /** A group in order that is sturdy passes every structural check exactly when its cost terms are complete and its
      pending plan, if any, names only members it has. */
  lemma GroupReadBack(g: Group, limits: Limits, cut: Cut)
    requires limits.Coherent() && GroupOk(g, limits) && Sturdy(g)
    ensures GroupFits(StoredFor(g, cut), limits) <==> Priced(g) && PlanKnown(g)
  {
    hide Derived, Settled, DeriveLifecycle, PlanOk, MembersFit, BodyFits, PlanKnown, BodyFor;
    OrderedMembersFit(g.members);
    DeclaredCountIs(g.members);
    BodyOfGroupFits(g, limits, cut);
  }
}
