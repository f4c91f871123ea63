/** The byte format of a store payload as one flat list of fields, from the version to the trailer. */
module Layouts {
  import opened Prelude
  import opened Assignment
  import opened Lifecycle
  import opened Records
  import opened Bytes
  import opened Codecs
  import opened RecordCodecs
  import opened AssignmentPairs
  import opened StoreCodec
  import opened StorePayload

  // ----- Fields -----

  /** A field is a run of bytes; a format is a list of fields. */
  type Field = seq<Byte>

  function Joined(fields: seq<Field>): seq<Byte> {
    if fields == [] then [] else fields[0] + Joined(fields[1..])
  }

  lemma {:induction false} JoinedAppend(a: seq<Field>, b: seq<Field>)
    ensures Joined(a + b) == Joined(a) + Joined(b)
  {
    if a == [] {
      assert a + b == b;
    } else {
      assert (a + b)[1..] == a[1..] + b;
      JoinedAppend(a[1..], b);
    }
  }

  lemma JoinedOne(a: Field)
    ensures Joined([a]) == a
  {
    assert [a][1..] == [];
  }

  lemma JoinedTwo(a: Field, b: Field)
    ensures Joined([a, b]) == a + b
  {
    assert [a, b][1..] == [b];
    JoinedOne(b);
  }

  lemma JoinedThree(a: Field, b: Field, c: Field)
    ensures Joined([a, b, c]) == a + (b + c)
  {
    assert [a, b, c][1..] == [b, c];
    JoinedTwo(b, c);
  }

  lemma JoinedFour(a: Field, b: Field, c: Field, d: Field)
    ensures Joined([a, b, c, d]) == a + (b + (c + d))
  {
    assert [a, b, c, d][1..] == [b, c, d];
    JoinedThree(b, c, d);
  }

  /** The fields of every element of a list, one element after the other. */
  function Each<T>(f: T -> seq<Field>, xs: seq<T>): seq<Field> {
    if xs == [] then [] else f(xs[0]) + Each(f, xs[1..])
  }

  lemma {:induction false} EachEncoded<T>(c: Codec<T>, f: T -> seq<Field>, xs: seq<T>)
    requires forall x :: x in xs ==> c.encode(x) == Joined(f(x))
    ensures EncodeAll(c, xs) == Joined(Each(f, xs))
  {
    if xs != [] {
      assert xs[0] in xs;
      EachEncoded(c, f, xs[1..]);
      JoinedAppend(f(xs[0]), Each(f, xs[1..]));
    }
  }

  function Word32Field(n: nat): Field { LittleEndian(n, 4) }

  function Word64Field(n: nat): Field { LittleEndian(n, 8) }

  function FlagField(b: bool): Field { [if b then 1 else 0] }

  /** Members of an enumeration are numbered from one in this order. */
  function OrdinalField<T(==)>(order: seq<T>, v: T): Field
    requires |order| < 255
  {
    [IndexOf(order, v) + 1]
  }

  const SOURCES := [DIRECT_PATH_SET, MULTIPATH_FABRIC]
  const STATES := [MemberActive, MemberStale, MemberIneligible, MemberWithdrawn, MemberRetired]
  const LIFECYCLES := [Declared, Active, Degraded, RevalidationRequired, Rebalancing, Withdrawing, Withdrawn, Revoked,
                       Superseded, Retired]
  const MOVE_REASONS := [INITIAL_ASSIGNMENT, OWNER_REMOVED, OWNER_OVER_QUOTA]
  const REASONS := [ChangeReason.CREATE, ChangeReason.ADD_MEMBER, ChangeReason.REMOVE_MEMBER, ChangeReason.DISABLE_MEMBER,
                    ChangeReason.ENABLE_MEMBER, PATH_INVALIDATION, MULTIPATH_INVALIDATION, COST_INVALIDATION,
                    EPOCH_INVALIDATION, REVALIDATION, ADMIN_WITHDRAW, ADMIN_REVOKE, SUPERSESSION, RECOVERY, PLAN_ABORTED,
                    REBALANCE_COMMIT]

  lemma ByteField(n: nat)
    requires n < 256
    ensures LittleEndian(n, 1) == [n]
  {
    assert LittleEndian(n / 256, 0) == [];
  }

  lemma FlagEncoded(b: bool)
    ensures Flag().encode(b) == FlagField(b)
  {
    ByteField(if b then 1 else 0);
  }

  lemma {:induction false} OrdinalEncoded<T>(order: seq<T>, number: T -> nat, v: T)
    requires 0 < number(v) <= |order| < 255 && order[number(v) - 1] == v
    requires forall i :: 0 <= i < |order| ==> number(order[i]) == i + 1
    ensures LittleEndian(number(v), 1) == OrdinalField(order, v)
  {
    ByteField(number(v));
    IndexOfFirst(order, v);
    assert v in order;
    assert number(order[IndexOf(order, v)]) == IndexOf(order, v) + 1;
  }

  lemma SourceEncoded(s: MembershipSource)
    ensures Sources().encode(s) == OrdinalField(SOURCES, s)
  {
    OrdinalEncoded(SOURCES, SourceNumber, s);
  }

  lemma StateEncoded(s: MemberState)
    ensures MemberStates().encode(s) == OrdinalField(STATES, s)
  {
    OrdinalEncoded(STATES, StateNumber, s);
  }

  lemma LifecycleEncoded(l: GroupLifecycle)
    ensures Lifecycles().encode(l) == OrdinalField(LIFECYCLES, l)
  {
    OrdinalEncoded(LIFECYCLES, LifecycleNumber, l);
  }

  lemma MoveReasonEncoded(r: MoveReason)
    ensures MoveReasons().encode(r) == OrdinalField(MOVE_REASONS, r)
  {
    OrdinalEncoded(MOVE_REASONS, MoveReasonNumber, r);
  }

  lemma ReasonsInOrder()
    ensures |REASONS| == 16 && forall i :: 0 <= i < 16 ==> ReasonNumber(REASONS[i]) == i + 1
  {
  }

  lemma ReasonListed(r: ChangeReason)
    ensures 0 < ReasonNumber(r) <= 16 && REASONS[ReasonNumber(r) - 1] == r
  {
  }

  lemma ReasonEncoded(r: ChangeReason)
    ensures Reasons().encode(r) == OrdinalField(REASONS, r)
  {
    hide ReasonNumber, OrdinalField;
    ReasonsInOrder();
    ReasonListed(r);
    OrdinalEncoded(REASONS, ReasonNumber, r);
  }

  // ----- A few fields before more bytes -----

  lemma OneThen(a: Field, t: seq<Byte>)
    ensures Joined([a]) + t == a + t
  {
    JoinedOne(a);
  }

  lemma TwoThen(a: Field, b: Field, t: seq<Byte>)
    ensures Joined([a, b]) + t == a + (b + t)
  {
    JoinedTwo(a, b);
  }

  lemma ThreeThen(a: Field, b: Field, c: Field, t: seq<Byte>)
    ensures Joined([a, b, c]) + t == a + (b + (c + t))
  {
    JoinedThree(a, b, c);
  }

  lemma FourThen(a: Field, b: Field, c: Field, d: Field, t: seq<Byte>)
    ensures Joined([a, b, c, d]) + t == a + (b + (c + (d + t)))
  {
    JoinedFour(a, b, c, d);
  }

  /** Each cause of staleness is worth its own power of two. */
  function CauseField(c: Currentness): Field {
    Word32Field((if c.stalePath then 1 else 0) + (if c.staleMultipath then 2 else 0) + (if c.staleCost then 4 else 0) +
                (if c.staleEpoch then 8 else 0) + (if c.fenced then 16 else 0) + (if c.revalidation then 32 else 0) +
                (if c.retired then 64 else 0))
  }

  lemma CauseEncoded(c: Currentness)
    ensures Causes().encode(c) == CauseField(c)
  {
    var n6 := Push(c.retired, 0);
    var n5 := Push(c.revalidation, n6);
    var n4 := Push(c.fenced, n5);
    var n3 := Push(c.staleEpoch, n4);
    var n2 := Push(c.staleCost, n3);
    var n1 := Push(c.staleMultipath, n2);
    assert BitsOf(c) == Push(c.stalePath, n1);
  }

  // ----- Shared records -----

  function KeyFields(k: GroupKey): seq<Field> {
    [IdBytes(k.fabric), IdBytes(k.routingNamespace), IdBytes(k.destination), IdBytes(k.costClass)]
  }

  function BindingFields(b: CostBinding): seq<Field> {
    [IdBytes(b.model), Word32Field(b.modelVersion), IdBytes(b.routeClass), Word64Field(b.policyGeneration)]
  }

  /** A negative cost is written in two's complement. */
  function CostFields(c: PathCost): seq<Field> {
    [Word64Field(if c.units < 0 then c.units + 0x1_00000000_00000000 else c.units), Word32Field(c.scale)]
  }

  function ClaimFields(c: CostClaim): seq<Field> {
    [IdBytes(c.costClass)] + BindingFields(c.binding) + CostFields(c.cost) + [IdBytes(c.source)]
  }

  function SpecFields(m: MemberSpec): seq<Field> {
    [IdBytes(m.member), IdBytes(m.path), Word64Field(m.pathAuthority), Word64Field(m.memberGeneration)] +
    ClaimFields(m.cost) + [IdBytes(m.provenance), FlagField(m.enabled)]
  }

  function EntryFields(e: MemberEntry): seq<Field> {
    var r := e.record;
    SpecFields(MemberSpec(r.member, r.path, r.pathAuthority, r.memberGeneration, r.cost, r.provenance, r.enabled)) +
    [FlagField(r.declared), OrdinalField(STATES, r.state)] +
    [FlagField(e.pathCurrent), FlagField(e.pathAuthorized), FlagField(e.multipathCurrent), FlagField(e.costCurrent)]
  }

  function MoveFields(m: BucketMove): seq<Field> {
    [Word32Field(m.bucket), IdBytes(m.from), IdBytes(m.to), OrdinalField(MOVE_REASONS, m.reason)]
  }

  lemma KeyLaid(k: GroupKey)
    ensures Keys().encode(k) == Joined(KeyFields(k))
  {
    JoinedFour(IdBytes(k.fabric), IdBytes(k.routingNamespace), IdBytes(k.destination), IdBytes(k.costClass));
  }

  lemma BindingLaid(b: CostBinding)
    ensures Bindings().encode(b) == Joined(BindingFields(b))
  {
    JoinedFour(IdBytes(b.model), Word32Field(b.modelVersion), IdBytes(b.routeClass), Word64Field(b.policyGeneration));
  }

  lemma CostLaid(c: PathCost)
    ensures Costs().encode(c) == Joined(CostFields(c))
  {
    JoinedTwo(Word64Field(Unsigned(c.units)), Word32Field(c.scale));
  }

  lemma ClaimLaid(c: CostClaim)
    ensures Claims().encode(c) == Joined(ClaimFields(c))
  {
    BindingLaid(c.binding);
    CostLaid(c.cost);
    hide Bindings, Costs, BindingFields, CostFields, Joined;
    JoinedOne(IdBytes(c.costClass));
    JoinedOne(IdBytes(c.source));
    JoinedAppend([IdBytes(c.costClass)] + BindingFields(c.binding) + CostFields(c.cost), [IdBytes(c.source)]);
    JoinedAppend([IdBytes(c.costClass)] + BindingFields(c.binding), CostFields(c.cost));
    JoinedAppend([IdBytes(c.costClass)], BindingFields(c.binding));
    Regroup4(IdBytes(c.costClass), Joined(BindingFields(c.binding)), Joined(CostFields(c.cost)), IdBytes(c.source));
  }

  lemma Regroup4(a: Field, b: Field, c: Field, d: Field)
    ensures a + b + c + d == a + (b + (c + d))
  {
  }

  lemma SpecLaid(m: MemberSpec)
    ensures Specs().encode(m) == Joined(SpecFields(m))
  {
    ClaimLaid(m.cost);
    FlagEncoded(m.enabled);
    hide Claims, ClaimFields, Joined, Flag;
    var a, b, c, d := IdBytes(m.member), IdBytes(m.path), Word64Field(m.pathAuthority), Word64Field(m.memberGeneration);
    JoinedFour(a, b, c, d);
    JoinedTwo(IdBytes(m.provenance), FlagField(m.enabled));
    JoinedAppend([a, b, c, d] + ClaimFields(m.cost), [IdBytes(m.provenance), FlagField(m.enabled)]);
    JoinedAppend([a, b, c, d], ClaimFields(m.cost));
    Regroup5(a, b, c, d, Joined(ClaimFields(m.cost)) + (IdBytes(m.provenance) + FlagField(m.enabled)));
    Regroup3(a + (b + (c + d)), Joined(ClaimFields(m.cost)), IdBytes(m.provenance) + FlagField(m.enabled));
  }

  lemma Regroup3(a: Field, b: Field, c: Field)
    ensures a + b + c == a + (b + c)
  {
  }

  lemma Regroup5(a: Field, b: Field, c: Field, d: Field, e: Field)
    ensures (a + (b + (c + d))) + e == a + (b + (c + (d + e)))
  {
  }

  lemma EntryLaid(e: MemberEntry)
    ensures Entries().encode(e) == Joined(EntryFields(e))
  {
    var r := e.record;
    var spec := MemberSpec(r.member, r.path, r.pathAuthority, r.memberGeneration, r.cost, r.provenance, r.enabled);
    SpecLaid(spec);
    FlagEncoded(r.declared);
    StateEncoded(r.state);
    FlagEncoded(e.pathCurrent);
    FlagEncoded(e.pathAuthorized);
    FlagEncoded(e.multipathCurrent);
    FlagEncoded(e.costCurrent);
    hide Specs, SpecFields, Joined, Flag, MemberStates, FlagField, OrdinalField;
    var f := [FlagField(r.declared), OrdinalField(STATES, r.state)];
    var p, q, m, c := FlagField(e.pathCurrent), FlagField(e.pathAuthorized), FlagField(e.multipathCurrent),
                      FlagField(e.costCurrent);
    JoinedTwo(f[0], f[1]);
    JoinedFour(p, q, m, c);
    JoinedAppend(SpecFields(spec) + f, [p, q, m, c]);
    JoinedAppend(SpecFields(spec), f);
  }

  lemma MoveLaid(m: BucketMove)
    ensures MoveCodec().encode(m) == Joined(MoveFields(m))
  {
    MoveReasonEncoded(m.reason);
    hide MoveReasons, OrdinalField;
    JoinedFour(Word32Field(m.bucket), IdBytes(m.from), IdBytes(m.to), OrdinalField(MOVE_REASONS, m.reason));
  }

  // ----- Lists and options -----

  /** A list is its length and then its elements. */
  function ListFields<T>(f: T -> seq<Field>, xs: seq<T>): seq<Field> {
    [Word32Field(|xs|)] + Each(f, xs)
  }

  lemma ListLaid<T>(c: Codec<T>, f: T -> seq<Field>, xs: seq<T>, max: nat)
    requires forall x :: x in xs ==> c.encode(x) == Joined(f(x))
    ensures Many(c, max).encode(xs) == Joined(ListFields(f, xs))
  {
    EachEncoded(c, f, xs);
    JoinedOne(Word32Field(|xs|));
    JoinedAppend([Word32Field(|xs|)], Each(f, xs));
  }

  /** An option is a flag and then its value, if any. */
  function MaybeFields<T>(f: T -> seq<Field>, v: Option<T>): seq<Field> {
    [FlagField(v.Some?)] + (if v.Some? then f(v.value) else [])
  }

  lemma MaybeLaid<T>(c: Codec<T>, f: T -> seq<Field>, v: Option<T>)
    requires v.Some? ==> c.encode(v.value) == Joined(f(v.value))
    ensures Maybe(c).encode(v) == Joined(MaybeFields(f, v))
  {
    JoinedOne(FlagField(v.Some?));
    JoinedAppend([FlagField(v.Some?)], if v.Some? then f(v.value) else []);
    assert [1] + (if v.Some? then c.encode(v.value) else []) == [1] + (if v.Some? then Joined(f(v.value)) else []);
    if v.None? { assert Joined([]) == [] && [0] + [] == [0]; }
  }

  function PairFields(p: Pair): seq<Field> { [Word32Field(p.bucket), IdBytes(p.owner)] }

  /** A map is its size, the number of its pairs, which is the same, and then every bucket with its owner; a map too large
      for its size is not written. */
  function MapFields(owners: seq<Id>): seq<Field> {
    if |owners| >= 0x1_00000000 then []
    else [Word32Field(|owners|), Word32Field(|owners|)] + Each(PairFields, PairsOf(owners))
  }

  lemma {:induction false} PairsLaid(pairs: seq<Pair>)
    ensures AllBytes(pairs) == Joined(Each(PairFields, pairs))
  {
    if pairs != [] {
      PairsLaid(pairs[1..]);
      JoinedTwo(Word32Field(pairs[0].bucket), IdBytes(pairs[0].owner));
      JoinedAppend(PairFields(pairs[0]), Each(PairFields, pairs[1..]));
    }
  }

  lemma MapLaid(owners: seq<Id>, limits: Limits, known: set<Id>)
    ensures Maps(limits, known).encode(owners) == Joined(MapFields(owners))
  {
    if |owners| < 0x1_00000000 {
      var n, pairs := Word32Field(|owners|), PairsOf(owners);
      PairsLaid(pairs);
      hide AllBytes, Joined, Each;
      TwoThen(n, n, Joined(Each(PairFields, pairs)));
      JoinedAppend([n, n], Each(PairFields, pairs));
    }
  }

  // ----- Groups -----

  function HeadFields(h: GroupHead): seq<Field> {
    [IdBytes(h.id)] + KeyFields(h.key) +
    [OrdinalField(SOURCES, h.source), OrdinalField(LIFECYCLES, h.lifecycle), CauseField(h.currentness)] +
    [Word64Field(h.membershipGen), Word64Field(h.assignmentGen), Word64Field(h.authorityGen)]
  }

  lemma HeadLaid(h: GroupHead)
    ensures Heads().encode(h) == Joined(HeadFields(h))
  {
    KeyLaid(h.key);
    SourceEncoded(h.source);
    LifecycleEncoded(h.lifecycle);
    CauseEncoded(h.currentness);
    hide Keys, KeyFields, Sources, Lifecycles, Causes, Joined, OrdinalField, CauseField;
    var a, b, c := OrdinalField(SOURCES, h.source), OrdinalField(LIFECYCLES, h.lifecycle), CauseField(h.currentness);
    var x, y, z := Word64Field(h.membershipGen), Word64Field(h.assignmentGen), Word64Field(h.authorityGen);
    var t := HeadTupleOf(h);
    assert Heads().encode(h) == HeadLayout().encode(t) ==
           Identity().encode(t.0) + (Keys().encode(t.1.0) + (Sources().encode(t.1.1.0) + (Lifecycles().encode(t.1.1.1.0) +
           (Causes().encode(t.1.1.1.1.0) + (Counter().encode(t.1.1.1.1.1.0) +
           (Counter().encode(t.1.1.1.1.1.1.0) + Counter().encode(t.1.1.1.1.1.1.1)))))));
    JoinedOne(IdBytes(h.id));
    JoinedThree(x, y, z);
    ThreeThen(a, b, c, Joined([x, y, z]));
    JoinedParts4([IdBytes(h.id)], KeyFields(h.key), [a, b, c], [x, y, z]);
  }

  lemma JoinedParts3(a: seq<Field>, b: seq<Field>, c: seq<Field>)
    ensures Joined(a + b + c) == Joined(a) + (Joined(b) + Joined(c))
  {
    hide Joined;
    JoinedAppend(a + b, c);
    JoinedAppend(a, b);
    Regroup3(Joined(a), Joined(b), Joined(c));
  }

  lemma JoinedParts4(a: seq<Field>, b: seq<Field>, c: seq<Field>, d: seq<Field>)
    ensures Joined(a + b + c + d) == Joined(a) + (Joined(b) + (Joined(c) + Joined(d)))
  {
    hide Joined;
    JoinedAppend(a + b + c, d);
    JoinedParts3(a, b, c);
    Regroup4(Joined(a), Joined(b), Joined(c), Joined(d));
    Regroup3(Joined(a), Joined(b) + Joined(c), Joined(d));
  }

  function TermsFields(t: GroupTerms): seq<Field> {
    ([IdBytes(t.semantics.costClass)] + BindingFields(t.semantics.binding)) + CostFields(t.canonicalCost) +
    [IdBytes(t.hashDomain), Word32Field(t.bucketCount), Word32Field(t.minActive)]
  }

  lemma TermsLaid(t: GroupTerms, limits: Limits)
    ensures Terms(limits).encode(t) == Joined(TermsFields(t))
  {
    BindingLaid(t.semantics.binding);
    CostLaid(t.canonicalCost);
    hide Bindings, BindingFields, Costs, CostFields, Joined;
    var p := TermsTupleOf(t);
    assert Terms(limits).encode(t) == TermsLayout().encode(p) ==
           Semantics().encode(p.0) + (Costs().encode(p.1.0) + (Identity().encode(p.1.1.0) +
           (Small().encode(p.1.1.1.0) + Small().encode(p.1.1.1.1))));
    var a, b := IdBytes(t.semantics.costClass), BindingFields(t.semantics.binding);
    JoinedOne(a);
    JoinedAppend([a], b);
    var x, y, z := IdBytes(t.hashDomain), Word32Field(t.bucketCount), Word32Field(t.minActive);
    JoinedThree(x, y, z);
    JoinedParts3([a] + b, CostFields(t.canonicalCost), [x, y, z]);
  }

  function BoundFields(b: GroupBinding): seq<Field> {
    [IdBytes(b.multipathSet), Word64Field(b.multipathGen), IdBytes(b.publisher), IdBytes(b.boot)] +
    [Word64Field(b.boundEpoch), IdBytes(b.provenance), IdBytes(b.successor)] + [IdBytes(b.predecessor), b.declaredDigest]
  }

  lemma BoundLaid(b: GroupBinding)
    ensures Bound().encode(b) == Joined(BoundFields(b))
  {
    hide Joined;
    var m, n, p, q := IdBytes(b.multipathSet), Word64Field(b.multipathGen), IdBytes(b.publisher), IdBytes(b.boot);
    var x, y, z := Word64Field(b.boundEpoch), IdBytes(b.provenance), IdBytes(b.successor);
    var v, d := IdBytes(b.predecessor), b.declaredDigest;
    var t := BindingTupleOf(b);
    assert Bound().encode(b) == BindingLayout().encode(t) == m + (n + (p + (q + (x + (y + (z + (v + d)))))));
    JoinedTwo(v, d);
    ThreeThen(x, y, z, Joined([v, d]));
    FourThen(m, n, p, q, Joined([x, y, z]) + Joined([v, d]));
    JoinedParts3([m, n, p, q], [x, y, z], [v, d]);
  }

  function PlanFields(p: StoredPlan): seq<Field> {
    [IdBytes(p.id), Word64Field(p.fromMembership), Word64Field(p.fromAssignment), Word64Field(p.fromAuthority)] +
    [Word64Field(p.targetMembership), p.targetDigest] + PlanEndFields(p)
  }

  function PlanEndFields(p: StoredPlan): seq<Field> {
    ListFields(SpecFields, p.targetMembers) + ListFields(MoveFields, p.moves) + MapFields(p.assignment) +
    [p.assignmentDigest, Word64Field(p.epoch), IdBytes(p.publisher)]
  }

  lemma SpecsLaid(specs: seq<MemberSpec>, max: nat)
    ensures Many(Specs(), max).encode(specs) == Joined(ListFields(SpecFields, specs))
  {
    hide Many, ListFields;
    forall m | m in specs ensures Specs().encode(m) == Joined(SpecFields(m)) { SpecLaid(m); }
    ListLaid(Specs(), SpecFields, specs, max);
  }

  lemma MovesLaid(moves: seq<BucketMove>, max: nat)
    ensures Many(MoveCodec(), max).encode(moves) == Joined(ListFields(MoveFields, moves))
  {
    hide Many, ListFields;
    forall m | m in moves ensures MoveCodec().encode(m) == Joined(MoveFields(m)) { MoveLaid(m); }
    ListLaid(MoveCodec(), MoveFields, moves, max);
  }

  lemma PlanEndLaid(p: StoredPlan, limits: Limits, known: set<Id>)
    ensures PlanEnd(limits, known).encode((p.targetMembers, (p.moves, (p.assignment, (p.assignmentDigest,
                                                                                   (p.epoch, p.publisher)))))) ==
            Joined(PlanEndFields(p))
  {
    SpecsLaid(p.targetMembers, limits.maxMembersPerGroup);
    MovesLaid(p.moves, limits.maxBuckets);
    MapLaid(p.assignment, limits, known);
    hide Specs, SpecFields, MoveCodec, MoveFields, Joined, Many, ListFields, MapFields, Maps;
    var x, y, z := p.assignmentDigest, Word64Field(p.epoch), IdBytes(p.publisher);
    JoinedThree(x, y, z);
    JoinedParts4(ListFields(SpecFields, p.targetMembers), ListFields(MoveFields, p.moves), MapFields(p.assignment),
                 [x, y, z]);
  }

  lemma PlanLaid(p: StoredPlan, limits: Limits, known: set<Id>)
    ensures StoredPlans(limits, known).encode(p) == Joined(PlanFields(p))
  {
    PlanEndLaid(p, limits, known);
    hide PlanEnd, Joined, PlanEndFields;
    var a, b, c, d := IdBytes(p.id), Word64Field(p.fromMembership), Word64Field(p.fromAssignment),
                      Word64Field(p.fromAuthority);
    var x, y := Word64Field(p.targetMembership), p.targetDigest;
    var end := PlanEndFields(p);
    var t := PlanTupleOf(p);
    assert StoredPlans(limits, known).encode(p) == PlanLayout(limits, known).encode(t) ==
           a + (b + (c + (d + (x + (y + PlanEnd(limits, known).encode(t.1.1.1.1.1.1))))));
    TwoThen(x, y, Joined(end));
    FourThen(a, b, c, d, Joined([x, y]) + Joined(end));
    JoinedParts3([a, b, c, d], [x, y], end);
  }

  function HistoryFields(h: StoredHistory): seq<Field> {
    [Word64Field(h.membershipGen), Word64Field(h.assignmentGen), Word64Field(h.authorityGen),
     OrdinalField(REASONS, h.reason)] +
    [IdBytes(h.publisher), Word64Field(h.epoch), Word64Field(h.churn), Word64Field(h.movesRecorded)] +
    MaybeFields(id => [IdBytes(id)], h.plan) + [h.membershipDigest, h.assignmentDigest]
  }

  lemma HistoryPlanLaid(plan: Option<Id>)
    ensures Maybe(Identity()).encode(plan) == Joined(MaybeFields(id => [IdBytes(id)], plan))
  {
    hide MaybeFields;
    if plan.Some? { JoinedOne(IdBytes(plan.value)); }
    MaybeLaid(Identity(), id => [IdBytes(id)], plan);
  }

  lemma HistoryLaid(h: StoredHistory)
    ensures Histories().encode(h) == Joined(HistoryFields(h))
  {
    ReasonEncoded(h.reason);
    HistoryPlanLaid(h.plan);
    hide Reasons, OrdinalField, Joined, MaybeFields, Maybe;
    var a, b, c, d := Word64Field(h.membershipGen), Word64Field(h.assignmentGen), Word64Field(h.authorityGen),
                      OrdinalField(REASONS, h.reason);
    var v, w, x, y := IdBytes(h.publisher), Word64Field(h.epoch), Word64Field(h.churn), Word64Field(h.movesRecorded);
    var plan := MaybeFields(id => [IdBytes(id)], h.plan);
    var t := HistoryTupleOf(h);
    assert Histories().encode(h) == HistoryLayout().encode(t) ==
           a + (b + (c + (d + (v + HistoryEnd().encode(t.1.1.1.1.1)))));
    assert HistoryEnd().encode(t.1.1.1.1.1) ==
           w + (x + (y + (Maybe(Identity()).encode(h.plan) + (h.membershipDigest + h.assignmentDigest))));
    JoinedTwo(h.membershipDigest, h.assignmentDigest);
    var end := Joined(plan) + Joined([h.membershipDigest, h.assignmentDigest]);
    FourThen(v, w, x, y, end);
    FourThen(a, b, c, d, Joined([v, w, x, y]) + end);
    JoinedParts4([a, b, c, d], [v, w, x, y], plan, [h.membershipDigest, h.assignmentDigest]);
  }

  function RebalanceFields(r: StoredRebalance): seq<Field> {
    [IdBytes(r.plan), OrdinalField(REASONS, r.reason)] +
    [Word64Field(r.fromMembership), Word64Field(r.toMembership), Word64Field(r.fromAssignment),
     Word64Field(r.toAssignment)] +
    ListFields(MoveFields, r.moves) + [Word64Field(r.churn), r.assignmentDigest]
  }

  lemma RebalanceLaid(r: StoredRebalance, limits: Limits)
    ensures Rebalances(limits).encode(r) == Joined(RebalanceFields(r))
  {
    ReasonEncoded(r.reason);
    MovesLaid(r.moves, limits.maxBuckets);
    hide Reasons, OrdinalField, Joined, MoveCodec, MoveFields, Many, ListFields;
    var a, b := IdBytes(r.plan), OrdinalField(REASONS, r.reason);
    var v, w, x, y := Word64Field(r.fromMembership), Word64Field(r.toMembership), Word64Field(r.fromAssignment),
                      Word64Field(r.toAssignment);
    var m, c, d := ListFields(MoveFields, r.moves), Word64Field(r.churn), r.assignmentDigest;
    var t := RebalanceTupleOf(r);
    assert Rebalances(limits).encode(r) == RebalanceLayout(limits).encode(t) ==
           a + (b + (v + (w + (x + (y + RebalanceEnd(limits).encode(t.1.1.1.1.1.1))))));
    assert RebalanceEnd(limits).encode(t.1.1.1.1.1.1) == Many(MoveCodec(), limits.maxBuckets).encode(r.moves) + (c + d);
    JoinedTwo(c, d);
    FourThen(v, w, x, y, Joined(m) + Joined([c, d]));
    TwoThen(a, b, Joined([v, w, x, y]) + (Joined(m) + Joined([c, d])));
    JoinedParts4([a, b], [v, w, x, y], m, [c, d]);
  }

  function BodyFields(b: GroupBody): seq<Field> {
    MapFields(b.owners) + MaybeFields(PlanFields, b.plan) + ListFields(HistoryFields, b.history) +
    MaybeFields(RebalanceFields, b.lastRebalance)
  }

  lemma PlanOptionLaid(plan: Option<StoredPlan>, limits: Limits, known: set<Id>)
    ensures Maybe(StoredPlans(limits, known)).encode(plan) == Joined(MaybeFields(PlanFields, plan))
  {
    hide Maybe, MaybeFields;
    if plan.Some? { PlanLaid(plan.value, limits, known); }
    MaybeLaid(StoredPlans(limits, known), PlanFields, plan);
  }

  lemma HistoryListLaid(hs: seq<StoredHistory>, max: nat)
    ensures Many(Histories(), max).encode(hs) == Joined(ListFields(HistoryFields, hs))
  {
    hide Many, ListFields;
    forall h | h in hs ensures Histories().encode(h) == Joined(HistoryFields(h)) { HistoryLaid(h); }
    ListLaid(Histories(), HistoryFields, hs, max);
  }

  lemma RebalanceOptionLaid(r: Option<StoredRebalance>, limits: Limits)
    ensures Maybe(Rebalances(limits)).encode(r) == Joined(MaybeFields(RebalanceFields, r))
  {
    hide Maybe, MaybeFields;
    if r.Some? { RebalanceLaid(r.value, limits); }
    MaybeLaid(Rebalances(limits), RebalanceFields, r);
  }

  lemma BodyLaid(b: GroupBody, limits: Limits, known: set<Id>)
    ensures Bodies(limits, known).encode(b) == Joined(BodyFields(b))
  {
    MapLaid(b.owners, limits, known);
    PlanOptionLaid(b.plan, limits, known);
    HistoryListLaid(b.history, limits.maxHistory);
    RebalanceOptionLaid(b.lastRebalance, limits);
    hide MapFields, MaybeFields, ListFields, PlanFields, HistoryFields, RebalanceFields, Maps, StoredPlans,
         Histories, Rebalances, Many, Maybe, Joined;
    var t := BodyTupleOf(b);
    assert Bodies(limits, known).encode(b) == BodyLayout(limits, known).encode(t) ==
           Maps(limits, known).encode(t.0) + (Maybe(StoredPlans(limits, known)).encode(t.1.0) +
           (Many(Histories(), limits.maxHistory).encode(t.1.1.0) + Maybe(Rebalances(limits)).encode(t.1.1.1)));
    JoinedParts4(MapFields(b.owners), MaybeFields(PlanFields, b.plan), ListFields(HistoryFields, b.history),
                 MaybeFields(RebalanceFields, b.lastRebalance));
  }

  /** One group, field by field. */
  function GroupFields(g: StoredGroup): seq<Field> {
    HeadFields(g.head) + TermsFields(g.terms) + BoundFields(g.binding) +
    (ListFields(EntryFields, g.members) + BodyFields(g.body))
  }

  lemma MembersLaid(ms: seq<MemberEntry>, limits: Limits)
    ensures Members(limits).encode(ms) == Joined(ListFields(EntryFields, ms))
  {
    hide Many, ListFields;
    forall e | e in ms ensures Entries().encode(e) == Joined(EntryFields(e)) { EntryLaid(e); }
    ListLaid(Entries(), EntryFields, ms, limits.maxMembersPerGroup);
  }

  lemma GroupLaid(g: StoredGroup, limits: Limits)
    ensures StoredGroups(limits).encode(g) == Joined(GroupFields(g))
  {
    HeadLaid(g.head);
    TermsLaid(g.terms, limits);
    BoundLaid(g.binding);
    MembersLaid(g.members, limits);
    BodyLaid(g.body, limits, Known(g.members));
    hide HeadFields, TermsFields, BoundFields, ListFields, BodyFields, EntryFields, Heads, Terms, Bound, Members, Bodies,
         Joined, Known;
    var t := GroupTupleOf(g);
    assert StoredGroups(limits).encode(g) == GroupLayout(limits).encode(t) ==
           Heads().encode(t.0) + (Terms(limits).encode(t.1.0) + (Bound().encode(t.1.1.0) +
           MembersAndBody(limits).encode(t.1.1.1)));
    assert MembersAndBody(limits).encode(t.1.1.1) ==
           Members(limits).encode(g.members) + Bodies(limits, Known(g.members)).encode(g.body);
    JoinedAppend(ListFields(EntryFields, g.members), BodyFields(g.body));
    JoinedParts4(HeadFields(g.head), TermsFields(g.terms), BoundFields(g.binding),
                 ListFields(EntryFields, g.members) + BodyFields(g.body));
  }

  // ----- The payload -----

  function AttemptFields(a: StoredAttempt): seq<Field> {
    [IdBytes(a.attempt), a.payload, Word32Field(a.outcome), IdBytes(a.group)] + [Word32Field(a.primary)] +
    ListFields(b => [[b]], a.text)
  }

  lemma TextLaid(text: seq<Byte>)
    ensures Text().encode(text) == Joined(ListFields(b => [[b]], text))
  {
    hide Many, ListFields;
    var one: Byte -> seq<Field> := b => [[b]];
    forall b | b in text ensures Octet().encode(b) == Joined(one(b)) { JoinedOne([b]); }
    ListLaid(Octet(), one, text, MAX_TEXT);
  }

  lemma AttemptLaid(a: StoredAttempt)
    ensures StoredAttempts().encode(a) == Joined(AttemptFields(a))
  {
    TextLaid(a.text);
    hide Joined, ListFields, Text;
    var text := ListFields(b => [[b]], a.text);
    var t := AttemptTupleOf(a);
    assert StoredAttempts().encode(a) == AttemptLayout().encode(t) ==
           IdBytes(a.attempt) + (a.payload + (Word32Field(a.outcome) + (IdBytes(a.group) +
           (Word32Field(a.primary) + Text().encode(a.text)))));
    OneThen(Word32Field(a.primary), Joined(text));
    FourThen(IdBytes(a.attempt), a.payload, Word32Field(a.outcome), IdBytes(a.group),
             Joined([Word32Field(a.primary)]) + Joined(text));
    JoinedParts3([IdBytes(a.attempt), a.payload, Word32Field(a.outcome), IdBytes(a.group)], [Word32Field(a.primary)],
                 text);
  }

  /** The whole payload, field by field: version 1, the groups, the number of rebalances, the attempts, and a zero. */
  function PayloadFields(p: StoredPayload): seq<Field> {
    [Word32Field(1)] + ListFields(GroupFields, p.groups) + [Word64Field(p.committed)] +
    (ListFields(AttemptFields, p.attempts) + [Word32Field(0)])
  }

  /** The bytes of a payload are the bytes of its fields, one after the other, in this order and in these widths. */
  lemma PayloadLaid(p: StoredPayload, limits: Limits)
    ensures EncodePayload(p, limits) == Joined(PayloadFields(p))
  {
    GroupsLaid(p.groups, limits);
    AttemptsLaid(p.attempts, limits.maxAttemptsRemembered);
    hide StoredGroups, GroupFields, StoredAttempts, AttemptFields, ListFields, Many, Joined;
    var t := PayloadTupleOf(p);
    assert EncodePayload(p, limits) == PayloadLayout(limits).encode(t) ==
           Word32().encode(t.0) + (Many(StoredGroups(limits), limits.maxGroups).encode(t.1.0) + (Counter().encode(t.1.1.0) +
           (Many(StoredAttempts(), limits.maxAttemptsRemembered).encode(t.1.1.1.0) + Word32().encode(t.1.1.1.1))));
    JoinedOne(Word32Field(1));
    JoinedOne(Word64Field(p.committed));
    JoinedOne(Word32Field(0));
    JoinedAppend(ListFields(AttemptFields, p.attempts), [Word32Field(0)]);
    JoinedParts4([Word32Field(1)], ListFields(GroupFields, p.groups), [Word64Field(p.committed)],
                 ListFields(AttemptFields, p.attempts) + [Word32Field(0)]);
  }

  lemma GroupsLaid(gs: seq<StoredGroup>, limits: Limits)
    ensures Many(StoredGroups(limits), limits.maxGroups).encode(gs) == Joined(ListFields(GroupFields, gs))
  {
    hide Many, ListFields, StoredGroups, GroupFields, Joined;
    forall g | g in gs ensures StoredGroups(limits).encode(g) == Joined(GroupFields(g)) { GroupLaid(g, limits); }
    ListLaid(StoredGroups(limits), GroupFields, gs, limits.maxGroups);
  }

  lemma AttemptsLaid(attempts: seq<StoredAttempt>, max: nat)
    ensures Many(StoredAttempts(), max).encode(attempts) == Joined(ListFields(AttemptFields, attempts))
  {
    hide Many, ListFields, StoredAttempts, AttemptFields, Joined;
    forall a | a in attempts ensures StoredAttempts().encode(a) == Joined(AttemptFields(a)) { AttemptLaid(a); }
    ListLaid(StoredAttempts(), AttemptFields, attempts, max);
  }
}
