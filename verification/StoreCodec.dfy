/** The groups of a store payload: their layout, and which of them a strict reader takes back. */
module StoreCodec {
  import opened Prelude
  import opened Assignment
  import opened Lifecycle
  import opened Records
  import opened Bytes
  import opened Codecs
  import opened RecordCodecs
  import opened AssignmentPairs

  // ----- Laws -----

  /** Whatever is read is a value the codec writes and reads back. */
  ghost predicate Careful<T(!new)>(c: Codec<T>) {
    forall s {:trigger c.decode(s)} :: c.decode(s).Some? ==>
      c.carries(c.decode(s).value.value) && c.fits(c.decode(s).value.value)
  }

  /** Every value written without loss is read back exactly when it fits, and nothing that does not fit is ever read. */
  ghost predicate Faithful<T(!new)>(c: Codec<T>) {
    RoundTrips(c) && Careful(c)
  }

  lemma LawfulIsFaithful<T(!new)>(c: Codec<T>)
    requires Lawful(c)
    ensures Faithful(c)
  {
  }

  lemma BothFaithful<A(!new), B(!new)>(a: Codec<A>, b: Codec<B>)
    requires Faithful(a) && Faithful(b)
    ensures Faithful(Both(a, b))
  {
    BothRoundTrips(a, b);
  }

  lemma ViaFaithful<A(!new), B(!new)>(c: Codec<A>, make: A -> B, take: B -> A, ok: A -> bool)
    requires Faithful(c) && (forall v :: make(take(v)) == v) && forall a :: ok(a) ==> take(make(a)) == a
    ensures Faithful(Via(c, make, take, ok))
  {
    ViaRoundTrips(c, make, take, ok);
  }

  lemma ThenFaithful<A(!new), B(!new)>(a: Codec<A>, b: A -> Codec<B>)
    requires Faithful(a) && forall v :: Faithful(b(v))
    ensures Faithful(Then(a, b))
  {
    ThenRoundTrips(a, b);
    var c := Then(a, b);
    forall s | c.decode(s).Some? ensures c.carries(c.decode(s).value.value) && c.fits(c.decode(s).value.value) {
      assert Faithful(b(a.decode(s).value.value));
    }
  }

  lemma {:induction false} ManyCareful<T(!new)>(c: Codec<T>, s: seq<Byte>, n: nat)
    requires Careful(c) && DecodeMany(c, s, n).Some?
    ensures var vs := DecodeMany(c, s, n).value.value;
            |vs| == n && forall i :: 0 <= i < n ==> c.carries(vs[i]) && c.fits(vs[i])
    decreases n
  {
    if n > 0 { ManyCareful(c, c.decode(s).value.rest, n - 1); }
  }

  lemma ManyFaithful<T(!new)>(c: Codec<T>, max: nat)
    requires Faithful(c)
    ensures Faithful(Many(c, max))
  {
    ManyRoundTrips(c, max);
    var m := Many(c, max);
    forall s | m.decode(s).Some? ensures m.carries(m.decode(s).value.value) && m.fits(m.decode(s).value.value) {
      CountStrict(s);
      var count := Word(4).decode(s).value;
      ManyCareful(c, count.rest, count.value);
    }
  }

  lemma MaybeFaithful<T(!new)>(c: Codec<T>)
    requires Faithful(c)
    ensures Faithful(Maybe(c))
  {
    MaybeRoundTrips(c);
  }

  // ----- Stored forms: as the records of the governor, with digests and plan identities cut to bytes -----

  type Digest = seq<Byte>

  datatype StoredPlan = StoredPlan(id: Id, fromMembership: nat, fromAssignment: nat, fromAuthority: nat,
                                   targetMembership: nat, targetDigest: Digest, targetMembers: seq<MemberSpec>,
                                   moves: seq<BucketMove>, assignment: seq<Id>, assignmentDigest: Digest, epoch: nat,
                                   publisher: Id)

  datatype StoredHistory = StoredHistory(membershipGen: nat, assignmentGen: nat, authorityGen: nat,
                                         reason: ChangeReason, publisher: Id, epoch: nat, churn: nat,
                                         movesRecorded: nat, plan: Option<Id>, membershipDigest: Digest,
                                         assignmentDigest: Digest)

  datatype StoredRebalance = StoredRebalance(plan: Id, reason: ChangeReason, fromMembership: nat, toMembership: nat,
                                             fromAssignment: nat, toAssignment: nat, moves: seq<BucketMove>,
                                             churn: nat, assignmentDigest: Digest)

  datatype GroupHead = GroupHead(id: Id, key: GroupKey, source: MembershipSource, lifecycle: GroupLifecycle,
                                 currentness: Currentness, membershipGen: nat, assignmentGen: nat, authorityGen: nat)

  datatype GroupTerms = GroupTerms(semantics: CostSemantics, canonicalCost: PathCost, hashDomain: Id,
                                   bucketCount: U32, minActive: U32)

  datatype GroupBinding = GroupBinding(multipathSet: Id, multipathGen: U64, publisher: Id, boot: Id, boundEpoch: nat,
                                       provenance: Id, successor: Id, predecessor: Id, declaredDigest: Digest)

  datatype GroupBody = GroupBody(owners: seq<Id>, plan: Option<StoredPlan>, history: seq<StoredHistory>,
                                 lastRebalance: Option<StoredRebalance>)

  datatype StoredGroup = StoredGroup(head: GroupHead, terms: GroupTerms, binding: GroupBinding,
                                     members: seq<MemberEntry>, body: GroupBody)

  // ----- Enumerations and bits -----

  function SourceNumber(s: MembershipSource): nat { if s.DIRECT_PATH_SET? then 1 else 2 }

  function SourceOf(n: nat): MembershipSource { if n == 1 then DIRECT_PATH_SET else MULTIPATH_FABRIC }

  function LifecycleNumber(l: GroupLifecycle): nat {
    match l
    case Declared => 1
    case Active => 2
    case Degraded => 3
    case RevalidationRequired => 4
    case Rebalancing => 5
    case Withdrawing => 6
    case Withdrawn => 7
    case Revoked => 8
    case Superseded => 9
    case Retired => 10
  }

  function LifecycleOf(n: nat): GroupLifecycle {
    match n
    case 1 => Declared
    case 2 => Active
    case 3 => Degraded
    case 4 => RevalidationRequired
    case 5 => Rebalancing
    case 6 => Withdrawing
    case 7 => Withdrawn
    case 8 => Revoked
    case 9 => Superseded
    case _ => Retired
  }

  function ReasonNumber(r: ChangeReason): nat {
    match r
    case CREATE => 1
    case ADD_MEMBER => 2
    case REMOVE_MEMBER => 3
    case DISABLE_MEMBER => 4
    case ENABLE_MEMBER => 5
    case PATH_INVALIDATION => 6
    case MULTIPATH_INVALIDATION => 7
    case COST_INVALIDATION => 8
    case EPOCH_INVALIDATION => 9
    case REVALIDATION => 10
    case ADMIN_WITHDRAW => 11
    case ADMIN_REVOKE => 12
    case SUPERSESSION => 13
    case RECOVERY => 14
    case PLAN_ABORTED => 15
    case REBALANCE_COMMIT => 16
  }

  function ReasonOf(n: nat): ChangeReason {
    match n
    case 1 => ChangeReason.CREATE
    case 2 => ChangeReason.ADD_MEMBER
    case 3 => ChangeReason.REMOVE_MEMBER
    case 4 => ChangeReason.DISABLE_MEMBER
    case 5 => ChangeReason.ENABLE_MEMBER
    case 6 => PATH_INVALIDATION
    case 7 => MULTIPATH_INVALIDATION
    case 8 => COST_INVALIDATION
    case 9 => EPOCH_INVALIDATION
    case 10 => REVALIDATION
    case 11 => ADMIN_WITHDRAW
    case 12 => ADMIN_REVOKE
    case 13 => SUPERSESSION
    case 14 => RECOVERY
    case 15 => PLAN_ABORTED
    case _ => REBALANCE_COMMIT
  }

  /** One more bit below those of n. */
  function Push(b: bool, n: nat): nat { (if b then 1 else 0) + 2 * n }

  function Lowest(n: nat): bool { n % 2 == 1 }

  function Half(n: nat): nat { n / 2 }

  lemma PushAndHalve(b: bool, n: nat)
    ensures Lowest(Push(b, n)) == b && Half(Push(b, n)) == n
  {
  }

  lemma HalveAndPush(n: nat)
    ensures Push(Lowest(n), Half(n)) == n
  {
  }

  /** Cause k of staleness is bit k - 1. */
  function BitsOf(c: Currentness): nat {
    Push(c.stalePath, Push(c.staleMultipath, Push(c.staleCost, Push(c.staleEpoch, Push(c.fenced,
      Push(c.revalidation, Push(c.retired, 0)))))))
  }

  function CausesOf(n: nat): Currentness {
    var n1 := Half(n);
    var n2 := Half(n1);
    var n3 := Half(n2);
    var n4 := Half(n3);
    var n5 := Half(n4);
    Currentness(Lowest(n), Lowest(n1), Lowest(n2), Lowest(n3), Lowest(n4), Lowest(n5), Lowest(Half(n5)))
  }

  function Sources(): Codec<MembershipSource> { Enumeration(2, SourceOf, SourceNumber) }

  function Lifecycles(): Codec<GroupLifecycle> { Enumeration(10, LifecycleOf, LifecycleNumber) }

  function Reasons(): Codec<ChangeReason> { Enumeration(16, ReasonOf, ReasonNumber) }

  function Causes(): Codec<Currentness> { Via(Word(4), CausesOf, BitsOf, (n: nat) => n < 128) }

  lemma EnumerationsTakeAll()
    ensures TakesAll(Sources()) && TakesAll(Lifecycles()) && TakesAll(Reasons())
  {
    EnumerationLawful(2, SourceOf, SourceNumber);
    EnumerationLawful(10, LifecycleOf, LifecycleNumber);
    EnumerationLawful(16, ReasonOf, ReasonNumber);
  }

  lemma PushBound(b: bool, n: nat, k: nat)
    requires n < k
    ensures Push(b, n) < 2 * k
  {
  }

  lemma BitsBound(c: Currentness)
    ensures BitsOf(c) < 128
  {
    var n5 := Push(c.revalidation, Push(c.retired, 0));
    var n3 := Push(c.staleEpoch, Push(c.fenced, n5));
    assert n5 < 4;
    hide Push;
    PushBound(c.fenced, n5, 4);
    PushBound(c.staleEpoch, Push(c.fenced, n5), 8);
    PushBound(c.staleCost, n3, 16);
    PushBound(c.staleMultipath, Push(c.staleCost, n3), 32);
    PushBound(c.stalePath, Push(c.staleMultipath, Push(c.staleCost, n3)), 64);
  }

  lemma BitsRoundTrip(c: Currentness)
    ensures CausesOf(BitsOf(c)) == c
  {
    var n5 := Push(c.revalidation, Push(c.retired, 0));
    var n3 := Push(c.staleEpoch, Push(c.fenced, n5));
    hide Push, Lowest, Half;
    PushAndHalve(c.retired, 0);
    PushAndHalve(c.revalidation, Push(c.retired, 0));
    PushAndHalve(c.fenced, n5);
    PushAndHalve(c.staleEpoch, Push(c.fenced, n5));
    PushAndHalve(c.staleCost, n3);
    PushAndHalve(c.staleMultipath, Push(c.staleCost, n3));
    PushAndHalve(c.stalePath, Push(c.staleMultipath, Push(c.staleCost, n3)));
  }

  lemma CausesRoundTrip(n: nat)
    requires n < 128
    ensures BitsOf(CausesOf(n)) == n
  {
    var n1 := Half(n);
    var n2 := Half(n1);
    var n3 := Half(n2);
    var n4 := Half(n3);
    var n5 := Half(n4);
    var n6 := Half(n5);
    assert Half(n6) == 0;
    hide Push, Lowest, Half;
    HalveAndPush(n);
    HalveAndPush(n1);
    HalveAndPush(n2);
    HalveAndPush(n3);
    HalveAndPush(n4);
    HalveAndPush(n5);
    HalveAndPush(n6);
  }

  lemma CausesTakeAll()
    ensures TakesAll(Causes())
  {
    WordLawful(4);
    Limit64();
    hide BitsOf, CausesOf;
    forall c: Currentness ensures BitsOf(c) < 128 && CausesOf(BitsOf(c)) == c {
      BitsBound(c);
      BitsRoundTrip(c);
    }
    forall n: nat | n < 128 ensures BitsOf(CausesOf(n)) == n { CausesRoundTrip(n); }
    ViaLawful(Word(4), CausesOf, BitsOf, (n: nat) => n < 128);
  }

  // ----- Parts of a group -----

  const DIGEST_BYTES: nat := 32

  /** A 64-bit counter. */
  function Counter(): Codec<nat> { Word(8) }

  function Digests(): Codec<Digest> { Fixed(DIGEST_BYTES) }

  predicate Counts(n: nat) { n < 0x1_00000000_00000000 }

  predicate IsDigest(d: Digest) { |d| == DIGEST_BYTES }

  lemma AtomsFaithful()
    ensures Faithful(Identity()) && Faithful(Counter()) && Faithful(Digests()) && Faithful(Small()) && Faithful(Big())
    ensures Faithful(Keys()) && Faithful(Sources()) && Faithful(Lifecycles()) && Faithful(Reasons()) && Faithful(Causes())
    ensures Faithful(Costs()) && Faithful(Semantics()) && Faithful(Specs()) && Faithful(Entries()) && Faithful(MoveCodec())
  {
    PrimitivesTakeAll();
    WordLawful(8);
    FixedLawful(DIGEST_BYTES);
    EnumerationsTakeAll();
    CausesTakeAll();
    KeysTakeAll();
    ClaimsTakeAll();
    SemanticsTakeAll();
    SpecsTakeAll();
    EntriesTakeAll();
    MoveLawful();
  }

  /** What the simple parts carry; all of them read back whatever they carry. */
  lemma AtomsTake()
    ensures forall id :: Identity().carries(id) && Identity().fits(id)
    ensures forall n :: (Counter().carries(n) <==> Counts(n)) && Counter().fits(n)
    ensures forall d :: (Digests().carries(d) <==> IsDigest(d)) && Digests().fits(d)
    ensures forall n :: Big().carries(n) && Big().fits(n)
    ensures forall n :: Small().carries(n) && Small().fits(n)
    ensures forall r :: Reasons().carries(r) && Reasons().fits(r)
  {
    Limit64();
    EnumerationsTakeAll();
    PrimitivesTakeAll();
  }

  type HeadTuple = (Id, (GroupKey, (MembershipSource, (GroupLifecycle, (Currentness, (nat, (nat, nat)))))))

  function HeadOf(p: HeadTuple): GroupHead {
    GroupHead(p.0, p.1.0, p.1.1.0, p.1.1.1.0, p.1.1.1.1.0, p.1.1.1.1.1.0, p.1.1.1.1.1.1.0, p.1.1.1.1.1.1.1)
  }

  function HeadTupleOf(h: GroupHead): HeadTuple {
    (h.id, (h.key, (h.source, (h.lifecycle, (h.currentness, (h.membershipGen, (h.assignmentGen, h.authorityGen)))))))
  }

  function HeadLayout(): Codec<HeadTuple> {
    Both(Identity(), Both(Keys(), Both(Sources(), Both(Lifecycles(), Both(Causes(),
      Both(Counter(), Both(Counter(), Counter())))))))
  }

  /** A head is taken back when the group has an identity and a complete key. */
  function Heads(): Codec<GroupHead> {
    Via(HeadLayout(), HeadOf, HeadTupleOf, (p: HeadTuple) => p.0 != NIL && p.1.0.WellFormed())
  }

  lemma HeadsFaithful()
    ensures Faithful(Heads())
  {
    AtomsFaithful();
    hide Faithful;
    BothFaithful(Counter(), Counter());
    BothFaithful(Counter(), Both(Counter(), Counter()));
    BothFaithful(Causes(), Both(Counter(), Both(Counter(), Counter())));
    BothFaithful(Lifecycles(), Both(Causes(), Both(Counter(), Both(Counter(), Counter()))));
    BothFaithful(Sources(), Both(Lifecycles(), Both(Causes(), Both(Counter(), Both(Counter(), Counter())))));
    BothFaithful(Keys(), Both(Sources(), Both(Lifecycles(), Both(Causes(), Both(Counter(), Both(Counter(), Counter()))))));
    BothFaithful(Identity(), Both(Keys(), Both(Sources(), Both(Lifecycles(), Both(Causes(),
      Both(Counter(), Both(Counter(), Counter())))))));
    ViaFaithful(HeadLayout(), HeadOf, HeadTupleOf, (p: HeadTuple) => p.0 != NIL && p.1.0.WellFormed());
  }

  lemma HeadsTake(h: GroupHead)
    ensures Heads().carries(h) <==> Counts(h.membershipGen) && Counts(h.assignmentGen) && Counts(h.authorityGen)
    ensures Heads().fits(h) <==> h.id != NIL && h.key.WellFormed()
  {
    KeysTakeAll();
    EnumerationsTakeAll();
    CausesTakeAll();
    AtomsTake();
    hide Lawful, Keys, Sources, Lifecycles, Causes, Identity, Counter, Counts;
    var t := HeadTupleOf(h);
    assert HeadLayout().carries(t) ==
           (Identity().carries(t.0) && Keys().carries(t.1.0) && Sources().carries(t.1.1.0) &&
            Lifecycles().carries(t.1.1.1.0) && Causes().carries(t.1.1.1.1.0) && Counter().carries(t.1.1.1.1.1.0) &&
            Counter().carries(t.1.1.1.1.1.1.0) && Counter().carries(t.1.1.1.1.1.1.1));
  }

  type TermsTuple = (CostSemantics, (PathCost, (Id, (U32, U32))))

  function TermsOf(p: TermsTuple): GroupTerms { GroupTerms(p.0, p.1.0, p.1.1.0, p.1.1.1.0, p.1.1.1.1) }

  function TermsTupleOf(t: GroupTerms): TermsTuple {
    (t.semantics, (t.canonicalCost, (t.hashDomain, (t.bucketCount, t.minActive))))
  }

  function TermsLayout(): Codec<TermsTuple> {
    Both(Semantics(), Both(Costs(), Both(Identity(), Both(Small(), Small()))))
  }

  predicate TermsFit(t: GroupTerms, limits: Limits) {
    && t.semantics.WellFormed() && t.canonicalCost.WellFormed() && t.hashDomain != NIL
    && 0 < t.bucketCount <= ABSOLUTE_MAX_BUCKETS && t.bucketCount <= limits.maxBuckets
    && 0 < t.minActive <= limits.maxMembersPerGroup
  }

  function Terms(limits: Limits): Codec<GroupTerms> {
    Via(TermsLayout(), TermsOf, TermsTupleOf, (p: TermsTuple) => TermsFit(TermsOf(p), limits))
  }

  lemma TermsFaithful(limits: Limits)
    ensures Faithful(Terms(limits))
  {
    AtomsFaithful();
    hide Faithful;
    BothFaithful(Small(), Small());
    BothFaithful(Identity(), Both(Small(), Small()));
    BothFaithful(Costs(), Both(Identity(), Both(Small(), Small())));
    BothFaithful(Semantics(), Both(Costs(), Both(Identity(), Both(Small(), Small()))));
    ViaFaithful(TermsLayout(), TermsOf, TermsTupleOf, (p: TermsTuple) => TermsFit(TermsOf(p), limits));
  }

  lemma TermsTake(t: GroupTerms, limits: Limits)
    ensures Terms(limits).carries(t) && (Terms(limits).fits(t) <==> TermsFit(t, limits))
  {
    SemanticsTakeAll();
    ClaimsTakeAll();
    AtomsTake();
    hide Lawful, Semantics, Costs, Identity, Small;
    var p := TermsTupleOf(t);
    assert TermsLayout().carries(p) ==
           (Semantics().carries(p.0) && Costs().carries(p.1.0) && Identity().carries(p.1.1.0) &&
            Small().carries(p.1.1.1.0) && Small().carries(p.1.1.1.1));
  }

  type BindingTuple = (Id, (U64, (Id, (Id, (nat, (Id, (Id, (Id, Digest))))))))

  function BindingOf(p: BindingTuple): GroupBinding {
    GroupBinding(p.0, p.1.0, p.1.1.0, p.1.1.1.0, p.1.1.1.1.0, p.1.1.1.1.1.0, p.1.1.1.1.1.1.0, p.1.1.1.1.1.1.1.0,
                 p.1.1.1.1.1.1.1.1)
  }

  function BindingTupleOf(b: GroupBinding): BindingTuple {
    (b.multipathSet, (b.multipathGen, (b.publisher, (b.boot, (b.boundEpoch, (b.provenance, (b.successor,
      (b.predecessor, b.declaredDigest))))))))
  }

  function BindingLayout(): Codec<BindingTuple> {
    Both(Identity(), Both(Big(), Both(Identity(), Both(Identity(), Both(Counter(), Both(Identity(), Both(Identity(),
      Both(Identity(), Digests()))))))))
  }

  function Bound(): Codec<GroupBinding> {
    Via(BindingLayout(), BindingOf, BindingTupleOf, (p: BindingTuple) => true)
  }

  lemma BoundFaithful()
    ensures Faithful(Bound())
  {
    AtomsFaithful();
    hide Faithful;
    BothFaithful(Identity(), Digests());
    BothFaithful(Identity(), Both(Identity(), Digests()));
    BothFaithful(Identity(), Both(Identity(), Both(Identity(), Digests())));
    BothFaithful(Counter(), Both(Identity(), Both(Identity(), Both(Identity(), Digests()))));
    BothFaithful(Identity(), Both(Counter(), Both(Identity(), Both(Identity(), Both(Identity(), Digests())))));
    BothFaithful(Identity(), Both(Identity(), Both(Counter(), Both(Identity(), Both(Identity(), Both(Identity(),
      Digests()))))));
    BothFaithful(Big(), Both(Identity(), Both(Identity(), Both(Counter(), Both(Identity(), Both(Identity(),
      Both(Identity(), Digests())))))));
    BothFaithful(Identity(), Both(Big(), Both(Identity(), Both(Identity(), Both(Counter(), Both(Identity(),
      Both(Identity(), Both(Identity(), Digests()))))))));
    ViaFaithful(BindingLayout(), BindingOf, BindingTupleOf, (p: BindingTuple) => true);
  }

  lemma BoundTakes(b: GroupBinding)
    ensures Bound().carries(b) <==> Counts(b.boundEpoch) && IsDigest(b.declaredDigest)
    ensures Bound().fits(b)
  {
    AtomsTake();
    hide Identity, Counter, Digests, Big, Counts, IsDigest;
    var p := BindingTupleOf(b);
    assert BindingLayout().carries(p) ==
           (Identity().carries(p.0) && Big().carries(p.1.0) && Identity().carries(p.1.1.0) &&
            Identity().carries(p.1.1.1.0) && Counter().carries(p.1.1.1.1.0) && Identity().carries(p.1.1.1.1.1.0) &&
            Identity().carries(p.1.1.1.1.1.1.0) && Identity().carries(p.1.1.1.1.1.1.1.0) &&
            Digests().carries(p.1.1.1.1.1.1.1.1));
  }

  // ----- Members -----

  predicate EntryFits(e: MemberEntry) {
    e.record.member != NIL && e.record.path != NIL && e.record.cost.WellFormed()
  }

  predicate RepeatsEntry(ms: seq<MemberEntry>) {
    exists i, j :: 0 <= i < j < |ms| && ms[i].record.member == ms[j].record.member
  }

  predicate MembersFit(ms: seq<MemberEntry>) {
    (forall i :: 0 <= i < |ms| ==> EntryFits(ms[i])) && !RepeatsEntry(ms)
  }

  function Members(limits: Limits): Codec<seq<MemberEntry>> {
    Via(Many(Entries(), limits.maxMembersPerGroup), (ms: seq<MemberEntry>) => ms, (ms: seq<MemberEntry>) => ms,
        (ms: seq<MemberEntry>) => MembersFit(ms))
  }

  lemma MembersFaithful(limits: Limits)
    ensures Faithful(Members(limits))
  {
    AtomsFaithful();
    ManyFaithful(Entries(), limits.maxMembersPerGroup);
    ViaFaithful(Many(Entries(), limits.maxMembersPerGroup), (ms: seq<MemberEntry>) => ms, (ms: seq<MemberEntry>) => ms,
                (ms: seq<MemberEntry>) => MembersFit(ms));
  }

  lemma MembersTake(ms: seq<MemberEntry>, limits: Limits)
    ensures Members(limits).carries(ms) <==> |ms| < 0x1_00000000
    ensures Members(limits).fits(ms) <==> |ms| <= limits.maxMembersPerGroup && MembersFit(ms)
  {
    EntriesTakeAll();
    hide Lawful;
    assert forall i :: 0 <= i < |ms| ==> Entries().carries(ms[i]) && Entries().fits(ms[i]);
  }

  // ----- History and rebalance records -----

  type HistoryTuple = (nat, (nat, (nat, (ChangeReason, (Id, (nat, (nat, (nat, (Option<Id>, (Digest, Digest))))))))))

  function HistoryOf(p: HistoryTuple): StoredHistory {
    StoredHistory(p.0, p.1.0, p.1.1.0, p.1.1.1.0, p.1.1.1.1.0, p.1.1.1.1.1.0, p.1.1.1.1.1.1.0, p.1.1.1.1.1.1.1.0,
                  p.1.1.1.1.1.1.1.1.0, p.1.1.1.1.1.1.1.1.1.0, p.1.1.1.1.1.1.1.1.1.1)
  }

  function HistoryTupleOf(h: StoredHistory): HistoryTuple {
    (h.membershipGen, (h.assignmentGen, (h.authorityGen, (h.reason, (h.publisher, (h.epoch, (h.churn,
      (h.movesRecorded, (h.plan, (h.membershipDigest, h.assignmentDigest))))))))))
  }

  /** The end of a history entry: counters, plan and digests. */
  function HistoryEnd(): Codec<(nat, (nat, (nat, (Option<Id>, (Digest, Digest)))))> {
    Both(Counter(), Both(Counter(), Both(Counter(), Both(Maybe(Identity()), Both(Digests(), Digests())))))
  }

  function HistoryLayout(): Codec<HistoryTuple> {
    Both(Counter(), Both(Counter(), Both(Counter(), Both(Reasons(), Both(Identity(), HistoryEnd())))))
  }

  function Histories(): Codec<StoredHistory> {
    Via(HistoryLayout(), HistoryOf, HistoryTupleOf, (p: HistoryTuple) => true)
  }

  predicate HistoryCarries(h: StoredHistory) {
    && Counts(h.membershipGen) && Counts(h.assignmentGen) && Counts(h.authorityGen) && Counts(h.epoch)
    && Counts(h.churn) && Counts(h.movesRecorded) && IsDigest(h.membershipDigest) && IsDigest(h.assignmentDigest)
  }

  lemma HistoryEndFaithful()
    ensures Faithful(HistoryEnd())
  {
    AtomsFaithful();
    MaybeFaithful(Identity());
    hide Faithful;
    BothFaithful(Digests(), Digests());
    BothFaithful(Maybe(Identity()), Both(Digests(), Digests()));
    BothFaithful(Counter(), Both(Maybe(Identity()), Both(Digests(), Digests())));
    BothFaithful(Counter(), Both(Counter(), Both(Maybe(Identity()), Both(Digests(), Digests()))));
    BothFaithful(Counter(), Both(Counter(), Both(Counter(), Both(Maybe(Identity()), Both(Digests(), Digests())))));
  }

  lemma HistoriesFaithful()
    ensures Faithful(Histories())
  {
    AtomsFaithful();
    HistoryEndFaithful();
    hide Faithful, HistoryEnd;
    BothFaithful(Identity(), HistoryEnd());
    BothFaithful(Reasons(), Both(Identity(), HistoryEnd()));
    BothFaithful(Counter(), Both(Reasons(), Both(Identity(), HistoryEnd())));
    BothFaithful(Counter(), Both(Counter(), Both(Reasons(), Both(Identity(), HistoryEnd()))));
    BothFaithful(Counter(), Both(Counter(), Both(Counter(), Both(Reasons(), Both(Identity(), HistoryEnd())))));
    ViaFaithful(HistoryLayout(), HistoryOf, HistoryTupleOf, (p: HistoryTuple) => true);
  }

  lemma HistoryEndTakes(e: (nat, (nat, (nat, (Option<Id>, (Digest, Digest))))))
    ensures HistoryEnd().carries(e) <==>
            Counts(e.0) && Counts(e.1.0) && Counts(e.1.1.0) && IsDigest(e.1.1.1.1.0) && IsDigest(e.1.1.1.1.1)
    ensures HistoryEnd().fits(e)
  {
    AtomsTake();
    hide Identity, Counter, Digests, Counts, IsDigest;
    assert HistoryEnd().carries(e) ==
           (Counter().carries(e.0) && Counter().carries(e.1.0) && Counter().carries(e.1.1.0) &&
            Maybe(Identity()).carries(e.1.1.1.0) && Digests().carries(e.1.1.1.1.0) && Digests().carries(e.1.1.1.1.1));
    assert HistoryEnd().fits(e) ==
           (Counter().fits(e.0) && Counter().fits(e.1.0) && Counter().fits(e.1.1.0) &&
            Maybe(Identity()).fits(e.1.1.1.0) && Digests().fits(e.1.1.1.1.0) && Digests().fits(e.1.1.1.1.1));
    assert e.1.1.1.0.Some? ==> Identity().carries(e.1.1.1.0.value) && Identity().fits(e.1.1.1.0.value);
  }

  lemma HistoriesTake(h: StoredHistory)
    ensures Histories().carries(h) <==> HistoryCarries(h)
    ensures Histories().fits(h)
  {
    var p := HistoryTupleOf(h);
    AtomsTake();
    HistoryEndTakes(p.1.1.1.1.1);
    hide Identity, Counter, Digests, Reasons, HistoryEnd, Counts, IsDigest;
    assert HistoryLayout().carries(p) ==
           (Counter().carries(p.0) && Counter().carries(p.1.0) && Counter().carries(p.1.1.0) &&
            Reasons().carries(p.1.1.1.0) && Identity().carries(p.1.1.1.1.0) && HistoryEnd().carries(p.1.1.1.1.1));
  }

  type RebalanceTuple = (Id, (ChangeReason, (nat, (nat, (nat, (nat, (seq<BucketMove>, (nat, Digest))))))))

  function RebalanceOf(p: RebalanceTuple): StoredRebalance {
    StoredRebalance(p.0, p.1.0, p.1.1.0, p.1.1.1.0, p.1.1.1.1.0, p.1.1.1.1.1.0, p.1.1.1.1.1.1.0, p.1.1.1.1.1.1.1.0,
                    p.1.1.1.1.1.1.1.1)
  }

  function RebalanceTupleOf(r: StoredRebalance): RebalanceTuple {
    (r.plan, (r.reason, (r.fromMembership, (r.toMembership, (r.fromAssignment, (r.toAssignment, (r.moves,
      (r.churn, r.assignmentDigest))))))))
  }

  /** The end of a rebalance record: its moves, its churn and its digest. */
  function RebalanceEnd(limits: Limits): Codec<(seq<BucketMove>, (nat, Digest))> {
    Both(Many(MoveCodec(), limits.maxBuckets), Both(Counter(), Digests()))
  }

  function RebalanceLayout(limits: Limits): Codec<RebalanceTuple> {
    Both(Identity(), Both(Reasons(), Both(Counter(), Both(Counter(), Both(Counter(), Both(Counter(),
      RebalanceEnd(limits)))))))
  }

  function Rebalances(limits: Limits): Codec<StoredRebalance> {
    Via(RebalanceLayout(limits), RebalanceOf, RebalanceTupleOf, (p: RebalanceTuple) => true)
  }

  /** A list of moves a 32-bit count and 32-bit buckets can hold. */
  predicate MovesCarry(moves: seq<BucketMove>) {
    |moves| < 0x1_00000000 && forall i :: 0 <= i < |moves| ==> moves[i].bucket < 0x1_00000000
  }

  predicate RebalanceCarries(r: StoredRebalance) {
    && Counts(r.fromMembership) && Counts(r.toMembership) && Counts(r.fromAssignment) && Counts(r.toAssignment)
    && Counts(r.churn) && MovesCarry(r.moves) && IsDigest(r.assignmentDigest)
  }

  lemma RebalanceEndFaithful(limits: Limits)
    ensures Faithful(RebalanceEnd(limits))
  {
    AtomsFaithful();
    hide Faithful;
    ManyFaithful(MoveCodec(), limits.maxBuckets);
    BothFaithful(Counter(), Digests());
    BothFaithful(Many(MoveCodec(), limits.maxBuckets), Both(Counter(), Digests()));
  }

  lemma RebalancesFaithful(limits: Limits)
    ensures Faithful(Rebalances(limits))
  {
    AtomsFaithful();
    RebalanceEndFaithful(limits);
    var end := RebalanceEnd(limits);
    hide Faithful, RebalanceEnd;
    BothFaithful(Counter(), end);
    BothFaithful(Counter(), Both(Counter(), end));
    BothFaithful(Counter(), Both(Counter(), Both(Counter(), end)));
    BothFaithful(Counter(), Both(Counter(), Both(Counter(), Both(Counter(), end))));
    BothFaithful(Reasons(), Both(Counter(), Both(Counter(), Both(Counter(), Both(Counter(), end)))));
    BothFaithful(Identity(), Both(Reasons(), Both(Counter(), Both(Counter(), Both(Counter(), Both(Counter(), end))))));
    ViaFaithful(RebalanceLayout(limits), RebalanceOf, RebalanceTupleOf, (p: RebalanceTuple) => true);
  }

  lemma MovesTake(moves: seq<BucketMove>, max: nat)
    ensures Many(MoveCodec(), max).carries(moves) <==> MovesCarry(moves)
    ensures Many(MoveCodec(), max).fits(moves) <==> |moves| <= max
  {
    MoveLawful();
    hide Lawful, MoveCodec;
    assert forall i :: 0 <= i < |moves| ==>
             (MoveCodec().carries(moves[i]) <==> moves[i].bucket < 0x1_00000000) && MoveCodec().fits(moves[i]);
  }

  lemma RebalanceEndTakes(e: (seq<BucketMove>, (nat, Digest)), limits: Limits)
    ensures RebalanceEnd(limits).carries(e) <==> MovesCarry(e.0) && Counts(e.1.0) && IsDigest(e.1.1)
    ensures RebalanceEnd(limits).fits(e) <==> |e.0| <= limits.maxBuckets
  {
    AtomsTake();
    MovesTake(e.0, limits.maxBuckets);
    hide Counter, Digests, Many, MovesCarry, Counts, IsDigest;
    assert RebalanceEnd(limits).carries(e) ==
           (Many(MoveCodec(), limits.maxBuckets).carries(e.0) && Counter().carries(e.1.0) && Digests().carries(e.1.1));
  }

  lemma RebalancesTake(r: StoredRebalance, limits: Limits)
    ensures Rebalances(limits).carries(r) <==> RebalanceCarries(r)
    ensures Rebalances(limits).fits(r) <==> |r.moves| <= limits.maxBuckets
  {
    var p := RebalanceTupleOf(r);
    AtomsTake();
    RebalanceEndTakes(p.1.1.1.1.1.1, limits);
    hide Identity, Counter, Reasons, RebalanceEnd, MovesCarry, Counts, IsDigest;
    assert RebalanceLayout(limits).carries(p) ==
           (Identity().carries(p.0) && Reasons().carries(p.1.0) && Counter().carries(p.1.1.0) &&
            Counter().carries(p.1.1.1.0) && Counter().carries(p.1.1.1.1.0) && Counter().carries(p.1.1.1.1.1.0) &&
            RebalanceEnd(limits).carries(p.1.1.1.1.1.1));
  }

  // ----- Bucket maps -----

  /** A bucket map written as pairs; its owners must be known when it is read. */
  function Maps(limits: Limits, known: set<Id>): Codec<seq<Id>> {
    Codec((owners: seq<Id>) => if |owners| < 0x1_00000000 then EncodePairs(owners) else [],
          (s: seq<Byte>) => DecodePairs(s, limits.maxBuckets, known),
          (owners: seq<Id>) => |owners| < 0x1_00000000,
          (owners: seq<Id>) => MapFits(owners, limits, known))
  }

  predicate MapFits(owners: seq<Id>, limits: Limits, known: set<Id>) {
    0 < |owners| <= ABSOLUTE_MAX_BUCKETS && |owners| <= limits.maxBuckets && OwnersKnownIn(owners, known)
  }

  lemma MapsFaithful(limits: Limits, known: set<Id>)
    ensures Faithful(Maps(limits, known))
  {
    var c := Maps(limits, known);
    hide DecodePairs, EncodePairs, FramedPairs, OwnersKnownIn, Describes, PairsOf;
    forall owners: seq<Id>, tail: seq<Byte> | c.carries(owners)
      ensures c.decode(c.encode(owners) + tail) == if c.fits(owners) then Some(Read(owners, tail)) else None
    {
      PairsDescribe(owners);
      FramedIsEncoded(owners);
      PairsRoundTrip(PairsOf(owners), owners, limits.maxBuckets, known, tail);
    }
    forall s | c.decode(s).Some? ensures c.carries(c.decode(s).value.value) && c.fits(c.decode(s).value.value) {
      var pairs := AcceptedIsDescribed(s, limits.maxBuckets, known);
    }
  }

  lemma FramedIsEncoded(owners: seq<Id>)
    requires |owners| < 0x1_00000000
    ensures FramedPairs(PairsOf(owners)) == EncodePairs(owners)
  {
  }

  // ----- Plans -----

  type PlanEndTuple = (seq<MemberSpec>, (seq<BucketMove>, (seq<Id>, (Digest, (nat, Id)))))

  type PlanTuple = (Id, (nat, (nat, (nat, (nat, (Digest, PlanEndTuple))))))

  function StoredPlanOf(p: PlanTuple): StoredPlan {
    var e := p.1.1.1.1.1.1;
    StoredPlan(p.0, p.1.0, p.1.1.0, p.1.1.1.0, p.1.1.1.1.0, p.1.1.1.1.1.0, e.0, e.1.0, e.1.1.0, e.1.1.1.0, e.1.1.1.1.0,
               e.1.1.1.1.1)
  }

  function PlanTupleOf(p: StoredPlan): PlanTuple {
    (p.id, (p.fromMembership, (p.fromAssignment, (p.fromAuthority, (p.targetMembership, (p.targetDigest,
      (p.targetMembers, (p.moves, (p.assignment, (p.assignmentDigest, (p.epoch, p.publisher)))))))))))
  }

  function PlanEnd(limits: Limits, known: set<Id>): Codec<PlanEndTuple> {
    Both(Many(Specs(), limits.maxMembersPerGroup), Both(Many(MoveCodec(), limits.maxBuckets),
      Both(Maps(limits, known), Both(Digests(), Both(Counter(), Identity())))))
  }

  function PlanLayout(limits: Limits, known: set<Id>): Codec<PlanTuple> {
    Both(Identity(), Both(Counter(), Both(Counter(), Both(Counter(), Both(Counter(), Both(Digests(),
      PlanEnd(limits, known)))))))
  }

  function StoredPlans(limits: Limits, known: set<Id>): Codec<StoredPlan> {
    Via(PlanLayout(limits, known), StoredPlanOf, PlanTupleOf, (p: PlanTuple) => true)
  }

  predicate PlanCarries(p: StoredPlan) {
    && Counts(p.fromMembership) && Counts(p.fromAssignment) && Counts(p.fromAuthority) && Counts(p.targetMembership)
    && IsDigest(p.targetDigest) && |p.targetMembers| < 0x1_00000000 && MovesCarry(p.moves)
    && |p.assignment| < 0x1_00000000 && IsDigest(p.assignmentDigest) && Counts(p.epoch)
  }

  predicate PlanFits(p: StoredPlan, limits: Limits, known: set<Id>) {
    && |p.targetMembers| <= limits.maxMembersPerGroup && |p.moves| <= limits.maxBuckets
    && MapFits(p.assignment, limits, known)
  }

  lemma PlanEndFaithful(limits: Limits, known: set<Id>)
    ensures Faithful(PlanEnd(limits, known))
  {
    AtomsFaithful();
    MapsFaithful(limits, known);
    var moves, specs := Many(MoveCodec(), limits.maxBuckets), Many(Specs(), limits.maxMembersPerGroup);
    hide Faithful, Maps;
    ManyFaithful(MoveCodec(), limits.maxBuckets);
    ManyFaithful(Specs(), limits.maxMembersPerGroup);
    BothFaithful(Counter(), Identity());
    BothFaithful(Digests(), Both(Counter(), Identity()));
    BothFaithful(Maps(limits, known), Both(Digests(), Both(Counter(), Identity())));
    BothFaithful(moves, Both(Maps(limits, known), Both(Digests(), Both(Counter(), Identity()))));
    BothFaithful(specs, Both(moves, Both(Maps(limits, known), Both(Digests(), Both(Counter(), Identity())))));
  }

  lemma StoredPlansFaithful(limits: Limits, known: set<Id>)
    ensures Faithful(StoredPlans(limits, known))
  {
    AtomsFaithful();
    PlanEndFaithful(limits, known);
    var end := PlanEnd(limits, known);
    hide Faithful, PlanEnd;
    BothFaithful(Digests(), end);
    BothFaithful(Counter(), Both(Digests(), end));
    BothFaithful(Counter(), Both(Counter(), Both(Digests(), end)));
    BothFaithful(Counter(), Both(Counter(), Both(Counter(), Both(Digests(), end))));
    BothFaithful(Counter(), Both(Counter(), Both(Counter(), Both(Counter(), Both(Digests(), end)))));
    BothFaithful(Identity(), Both(Counter(), Both(Counter(), Both(Counter(), Both(Counter(), Both(Digests(), end))))));
    ViaFaithful(PlanLayout(limits, known), StoredPlanOf, PlanTupleOf, (p: PlanTuple) => true);
  }

  lemma SpecsListTakes(specs: seq<MemberSpec>, max: nat)
    ensures Many(Specs(), max).carries(specs) <==> |specs| < 0x1_00000000
    ensures Many(Specs(), max).fits(specs) <==> |specs| <= max
  {
    SpecsTakeAll();
    hide Lawful, Specs;
    assert forall i :: 0 <= i < |specs| ==> Specs().carries(specs[i]) && Specs().fits(specs[i]);
  }

  lemma PlanEndTakes(e: PlanEndTuple, limits: Limits, known: set<Id>)
    ensures PlanEnd(limits, known).carries(e) <==>
            |e.0| < 0x1_00000000 && MovesCarry(e.1.0) && |e.1.1.0| < 0x1_00000000 && IsDigest(e.1.1.1.0) &&
            Counts(e.1.1.1.1.0)
    ensures PlanEnd(limits, known).fits(e) <==>
            |e.0| <= limits.maxMembersPerGroup && |e.1.0| <= limits.maxBuckets && MapFits(e.1.1.0, limits, known)
  {
    AtomsTake();
    SpecsListTakes(e.0, limits.maxMembersPerGroup);
    MovesTake(e.1.0, limits.maxBuckets);
    hide Identity, Counter, Digests, Many, MovesCarry, Counts, IsDigest, MapFits, EncodePairs, DecodePairs;
    assert PlanEnd(limits, known).carries(e) ==
           (Many(Specs(), limits.maxMembersPerGroup).carries(e.0) && Many(MoveCodec(), limits.maxBuckets).carries(e.1.0) &&
            Maps(limits, known).carries(e.1.1.0) && Digests().carries(e.1.1.1.0) && Counter().carries(e.1.1.1.1.0) &&
            Identity().carries(e.1.1.1.1.1));
    assert PlanEnd(limits, known).fits(e) ==
           (Many(Specs(), limits.maxMembersPerGroup).fits(e.0) && Many(MoveCodec(), limits.maxBuckets).fits(e.1.0) &&
            Maps(limits, known).fits(e.1.1.0) && Digests().fits(e.1.1.1.0) && Counter().fits(e.1.1.1.1.0) &&
            Identity().fits(e.1.1.1.1.1));
  }

  lemma StoredPlansTake(p: StoredPlan, limits: Limits, known: set<Id>)
    ensures StoredPlans(limits, known).carries(p) <==> PlanCarries(p)
    ensures StoredPlans(limits, known).fits(p) <==> PlanFits(p, limits, known)
  {
    var t := PlanTupleOf(p);
    AtomsTake();
    PlanEndTakes(t.1.1.1.1.1.1, limits, known);
    hide Identity, Counter, Digests, PlanEnd, MovesCarry, Counts, IsDigest, MapFits;
    assert PlanLayout(limits, known).carries(t) ==
           (Identity().carries(t.0) && Counter().carries(t.1.0) && Counter().carries(t.1.1.0) &&
            Counter().carries(t.1.1.1.0) && Counter().carries(t.1.1.1.1.0) && Digests().carries(t.1.1.1.1.1.0) &&
            PlanEnd(limits, known).carries(t.1.1.1.1.1.1));
    assert PlanLayout(limits, known).fits(t) ==
           (Identity().fits(t.0) && Counter().fits(t.1.0) && Counter().fits(t.1.1.0) && Counter().fits(t.1.1.1.0) &&
            Counter().fits(t.1.1.1.1.0) && Digests().fits(t.1.1.1.1.1.0) &&
            PlanEnd(limits, known).fits(t.1.1.1.1.1.1));
  }

  // ----- The whole group -----

  type BodyTuple = (seq<Id>, (Option<StoredPlan>, (seq<StoredHistory>, Option<StoredRebalance>)))

  function BodyOf(p: BodyTuple): GroupBody { GroupBody(p.0, p.1.0, p.1.1.0, p.1.1.1) }

  function BodyTupleOf(b: GroupBody): BodyTuple { (b.owners, (b.plan, (b.history, b.lastRebalance))) }

  function BodyLayout(limits: Limits, known: set<Id>): Codec<BodyTuple> {
    Both(Maps(limits, known), Both(Maybe(StoredPlans(limits, known)), Both(Many(Histories(), limits.maxHistory),
      Maybe(Rebalances(limits)))))
  }

  function Bodies(limits: Limits, known: set<Id>): Codec<GroupBody> {
    Via(BodyLayout(limits, known), BodyOf, BodyTupleOf, (p: BodyTuple) => true)
  }

  predicate BodyCarries(b: GroupBody) {
    && |b.owners| < 0x1_00000000 && (b.plan.Some? ==> PlanCarries(b.plan.value)) && |b.history| < 0x1_00000000
    && (forall i :: 0 <= i < |b.history| ==> HistoryCarries(b.history[i]))
    && (b.lastRebalance.Some? ==> RebalanceCarries(b.lastRebalance.value))
  }

  predicate BodyFits(b: GroupBody, limits: Limits, known: set<Id>) {
    && MapFits(b.owners, limits, known) && (b.plan.Some? ==> PlanFits(b.plan.value, limits, known))
    && |b.history| <= limits.maxHistory
    && (b.lastRebalance.Some? ==> |b.lastRebalance.value.moves| <= limits.maxBuckets)
  }

  lemma BodiesFaithful(limits: Limits, known: set<Id>)
    ensures Faithful(Bodies(limits, known))
  {
    MapsFaithful(limits, known);
    StoredPlansFaithful(limits, known);
    HistoriesFaithful();
    RebalancesFaithful(limits);
    hide Faithful, Maps, StoredPlans, Histories, Rebalances;
    MaybeFaithful(StoredPlans(limits, known));
    ManyFaithful(Histories(), limits.maxHistory);
    MaybeFaithful(Rebalances(limits));
    BothFaithful(Many(Histories(), limits.maxHistory), Maybe(Rebalances(limits)));
    BothFaithful(Maybe(StoredPlans(limits, known)), Both(Many(Histories(), limits.maxHistory),
                                                         Maybe(Rebalances(limits))));
    BothFaithful(Maps(limits, known), Both(Maybe(StoredPlans(limits, known)), Both(Many(Histories(), limits.maxHistory),
                                                                                   Maybe(Rebalances(limits)))));
    ViaFaithful(BodyLayout(limits, known), BodyOf, BodyTupleOf, (p: BodyTuple) => true);
  }

  lemma HistoryListTakes(hs: seq<StoredHistory>, max: nat)
    ensures Many(Histories(), max).carries(hs) <==>
            |hs| < 0x1_00000000 && forall i :: 0 <= i < |hs| ==> HistoryCarries(hs[i])
    ensures Many(Histories(), max).fits(hs) <==> |hs| <= max
  {
    hide Histories, HistoryCarries;
    forall i | 0 <= i < |hs|
      ensures (Histories().carries(hs[i]) <==> HistoryCarries(hs[i])) && Histories().fits(hs[i])
    {
      HistoriesTake(hs[i]);
    }
  }

  lemma PlanOptionTakes(p: Option<StoredPlan>, limits: Limits, known: set<Id>)
    ensures Maybe(StoredPlans(limits, known)).carries(p) <==> p.None? || PlanCarries(p.value)
    ensures Maybe(StoredPlans(limits, known)).fits(p) <==> p.None? || PlanFits(p.value, limits, known)
  {
    if p.Some? { StoredPlansTake(p.value, limits, known); }
    hide StoredPlans, PlanCarries, PlanFits;
  }

  lemma RebalanceOptionTakes(r: Option<StoredRebalance>, limits: Limits)
    ensures Maybe(Rebalances(limits)).carries(r) <==> r.None? || RebalanceCarries(r.value)
    ensures Maybe(Rebalances(limits)).fits(r) <==> r.None? || |r.value.moves| <= limits.maxBuckets
  {
    if r.Some? { RebalancesTake(r.value, limits); }
    hide Rebalances, RebalanceCarries;
  }

  lemma MapsTake(owners: seq<Id>, limits: Limits, known: set<Id>)
    ensures Maps(limits, known).carries(owners) <==> |owners| < 0x1_00000000
    ensures Maps(limits, known).fits(owners) <==> MapFits(owners, limits, known)
  {
    hide EncodePairs, DecodePairs, MapFits;
  }

  lemma BodiesTake(b: GroupBody, limits: Limits, known: set<Id>)
    ensures Bodies(limits, known).carries(b) <==> BodyCarries(b)
    ensures Bodies(limits, known).fits(b) <==> BodyFits(b, limits, known)
  {
    var p := BodyTupleOf(b);
    MapsTake(b.owners, limits, known);
    PlanOptionTakes(b.plan, limits, known);
    HistoryListTakes(b.history, limits.maxHistory);
    RebalanceOptionTakes(b.lastRebalance, limits);
    hide StoredPlans, Histories, Rebalances, PlanCarries, HistoryCarries, RebalanceCarries, MapFits, PlanFits, Many, Maps,
         Maybe;
    assert BodyLayout(limits, known).carries(p) ==
           (Maps(limits, known).carries(p.0) && Maybe(StoredPlans(limits, known)).carries(p.1.0) &&
            Many(Histories(), limits.maxHistory).carries(p.1.1.0) && Maybe(Rebalances(limits)).carries(p.1.1.1));
    assert BodyLayout(limits, known).fits(p) ==
           (Maps(limits, known).fits(p.0) && Maybe(StoredPlans(limits, known)).fits(p.1.0) &&
            Many(Histories(), limits.maxHistory).fits(p.1.1.0) && Maybe(Rebalances(limits)).fits(p.1.1.1));
  }

  function Known(ms: seq<MemberEntry>): set<Id> { set e | e in ms :: e.record.member }

  function DeclaredCount(ms: seq<MemberEntry>): nat {
    if ms == [] then 0
    else DeclaredCount(ms[..|ms| - 1]) + (if ms[|ms| - 1].record.declared then 1 else 0)
  }

  /** The owners of the buckets, here and in a plan, must be among the members just read. */
  function MembersAndBody(limits: Limits): Codec<(seq<MemberEntry>, GroupBody)> {
    Then(Members(limits), (ms: seq<MemberEntry>) => Bodies(limits, Known(ms)))
  }

  type GroupTuple = (GroupHead, (GroupTerms, (GroupBinding, (seq<MemberEntry>, GroupBody))))

  function StoredGroupOf(p: GroupTuple): StoredGroup { StoredGroup(p.0, p.1.0, p.1.1.0, p.1.1.1.0, p.1.1.1.1) }

  function GroupTupleOf(g: StoredGroup): GroupTuple { (g.head, (g.terms, (g.binding, (g.members, g.body)))) }

  function GroupLayout(limits: Limits): Codec<GroupTuple> {
    Both(Heads(), Both(Terms(limits), Both(Bound(), MembersAndBody(limits))))
  }

  predicate DeclaredFit(members: seq<MemberEntry>, bucketCount: nat) { DeclaredCount(members) <= bucketCount }

  /** One group of a payload. */
  function StoredGroups(limits: Limits): Codec<StoredGroup> {
    Via(GroupLayout(limits), StoredGroupOf, GroupTupleOf, (p: GroupTuple) => DeclaredFit(p.1.1.1.0, p.1.0.bucketCount))
  }

  lemma MembersAndBodyFaithful(limits: Limits)
    ensures Faithful(MembersAndBody(limits))
  {
    hide Faithful, Bodies, Members;
    MembersFaithful(limits);
    forall ms: seq<MemberEntry> ensures Faithful(Bodies(limits, Known(ms))) { BodiesFaithful(limits, Known(ms)); }
    ThenFaithful(Members(limits), (ms: seq<MemberEntry>) => Bodies(limits, Known(ms)));
  }

  /** Groups are written without loss and read back exactly when they fit; nothing else is ever read. */
  lemma StoredGroupsFaithful(limits: Limits)
    ensures Faithful(StoredGroups(limits))
  {
    hide Faithful, Heads, Terms, Bound, MembersAndBody;
    HeadsFaithful();
    TermsFaithful(limits);
    BoundFaithful();
    MembersAndBodyFaithful(limits);
    BothFaithful(Bound(), MembersAndBody(limits));
    BothFaithful(Terms(limits), Both(Bound(), MembersAndBody(limits)));
    BothFaithful(Heads(), Both(Terms(limits), Both(Bound(), MembersAndBody(limits))));
    ViaFaithful(GroupLayout(limits), StoredGroupOf, GroupTupleOf,
                (p: GroupTuple) => DeclaredFit(p.1.1.1.0, p.1.0.bucketCount));
  }

  predicate GroupCarries(g: StoredGroup) {
    && Counts(g.head.membershipGen) && Counts(g.head.assignmentGen) && Counts(g.head.authorityGen)
    && Counts(g.binding.boundEpoch) && IsDigest(g.binding.declaredDigest) && |g.members| < 0x1_00000000
    && BodyCarries(g.body)
  }

  /** Every structural check of the reader. */
  predicate GroupFits(g: StoredGroup, limits: Limits) {
    && g.head.id != NIL && g.head.key.WellFormed() && TermsFit(g.terms, limits)
    && |g.members| <= limits.maxMembersPerGroup && MembersFit(g.members)
    && BodyFits(g.body, limits, Known(g.members)) && DeclaredFit(g.members, g.terms.bucketCount)
  }

  lemma StoredGroupsTake(g: StoredGroup, limits: Limits)
    ensures StoredGroups(limits).carries(g) <==> GroupCarries(g)
    ensures StoredGroups(limits).fits(g) <==> GroupFits(g, limits)
  {
    var p := GroupTupleOf(g);
    HeadsTake(g.head);
    TermsTake(g.terms, limits);
    BoundTakes(g.binding);
    MembersTake(g.members, limits);
    BodiesTake(g.body, limits, Known(g.members));
    hide Heads, Terms, Bound, Members, Bodies, BodyCarries, BodyFits, TermsFit, MembersFit, DeclaredFit, Counts, IsDigest,
         Known;
    assert GroupLayout(limits).carries(p) ==
           (Heads().carries(g.head) && Terms(limits).carries(g.terms) && Bound().carries(g.binding) &&
            Members(limits).carries(g.members) && Bodies(limits, Known(g.members)).carries(g.body));
    assert GroupLayout(limits).fits(p) ==
           (Heads().fits(g.head) && Terms(limits).fits(g.terms) && Bound().fits(g.binding) &&
            Members(limits).fits(g.members) && Bodies(limits, Known(g.members)).fits(g.body));
  }
}
