/** How the shared records are written: cost claims, members, moves. Each codec is exact: it reads what was written, and
    nothing else. */
module RecordCodecs {
  import opened Prelude
  import opened Assignment
  import opened Lifecycle
  import opened Records
  import opened Bytes
  import opened Codecs

  // ----- Numbers and enumerations -----

  function U32Of(s: seq<Byte>): U32
    requires |s| == 4
  {
    Limit64();
    BytesOfValue(s);
    Value(s)
  }

  function U64Of(s: seq<Byte>): U64
    requires |s| == 8
  {
    Limit64();
    BytesOfValue(s);
    Value(s)
  }

  function Small(): Codec<U32> {
    Codec((n: U32) => LittleEndian(n, 4),
          (s: seq<Byte>) => if |s| < 4 then None else Some(Read(U32Of(s[..4]), s[4..])), (n: U32) => true, (n: U32) => true)
  }

  function Big(): Codec<U64> {
    Codec((n: U64) => LittleEndian(n, 8),
          (s: seq<Byte>) => if |s| < 8 then None else Some(Read(U64Of(s[..8]), s[8..])), (n: U64) => true, (n: U64) => true)
  }

  function Wide(): Codec<I64> {
    Via(Big(), (u: U64) => Signed(u), (v: I64) => Unsigned(v), (u: U64) => true)
  }

  lemma SmallLawful()
    ensures Lawful(Small())
  {
    var c := Small();
    forall n: U32, tail ensures c.decode(c.encode(n) + tail) == Some(Read(n, tail)) {
      Limit64();
      ValueOfBytes(n, 4);
      var s := LittleEndian(n, 4) + tail;
      assert s[..4] == LittleEndian(n, 4) && s[4..] == tail;
    }
    forall s | c.decode(s).Some? ensures var r := c.decode(s).value; s == c.encode(r.value) + r.rest {
      BytesOfValue(s[..4]);
      assert s == s[..4] + s[4..];
    }
  }

  lemma BigLawful()
    ensures Lawful(Big())
  {
    var c := Big();
    forall n: U64, tail ensures c.decode(c.encode(n) + tail) == Some(Read(n, tail)) {
      Limit64();
      ValueOfBytes(n, 8);
      var s := LittleEndian(n, 8) + tail;
      assert s[..8] == LittleEndian(n, 8) && s[8..] == tail;
    }
    forall s | c.decode(s).Some? ensures var r := c.decode(s).value; s == c.encode(r.value) + r.rest {
      BytesOfValue(s[..8]);
      assert s == s[..8] + s[8..];
    }
  }

  function StateNumber(s: MemberState): nat {
    match s
    case MemberActive => 1
    case MemberStale => 2
    case MemberIneligible => 3
    case MemberWithdrawn => 4
    case MemberRetired => 5
  }

  function StateOf(n: nat): MemberState {
    match n
    case 1 => MemberActive
    case 2 => MemberStale
    case 3 => MemberIneligible
    case 4 => MemberWithdrawn
    case _ => MemberRetired
  }

  function MoveReasonNumber(r: MoveReason): nat {
    match r
    case INITIAL_ASSIGNMENT => 1
    case OWNER_REMOVED => 2
    case OWNER_OVER_QUOTA => 3
  }

  function MoveReasonOf(n: nat): MoveReason {
    if n == 1 then INITIAL_ASSIGNMENT else if n == 2 then OWNER_REMOVED else OWNER_OVER_QUOTA
  }

  /** One byte from 1 to n that names the members of an enumeration. */
  function Enumeration<T>(n: nat, make: nat -> T, take: T -> nat): Codec<T> {
    Via(Word(1), make, take, (k: nat) => 1 <= k <= n)
  }

  lemma EnumerationLawful<T(!new)>(n: nat, make: nat -> T, take: T -> nat)
    requires n < 256 && forall v :: 1 <= take(v) <= n && make(take(v)) == v
    requires forall k :: 1 <= k <= n ==> take(make(k)) == k
    ensures Lawful(Enumeration(n, make, take))
    ensures forall v :: Enumeration(n, make, take).carries(v) && Enumeration(n, make, take).fits(v)
  {
    WordLawful(1);
    assert Power256(1) == 256;
    ViaLawful(Word(1), make, take, (k: nat) => 1 <= k <= n);
  }

  function MemberStates(): Codec<MemberState> { Enumeration(5, StateOf, StateNumber) }

  function MoveReasons(): Codec<MoveReason> { Enumeration(3, MoveReasonOf, MoveReasonNumber) }

  // ----- Cost claims -----

  function Bindings(): Codec<CostBinding> {
    Via(Both(Identity(), Both(Small(), Both(Identity(), Big()))),
        (p: (Id, (U32, (Id, U64)))) => CostBinding(p.0, p.1.0, p.1.1.0, p.1.1.1),
        (b: CostBinding) => (b.model, (b.modelVersion, (b.routeClass, b.policyGeneration))),
        (p: (Id, (U32, (Id, U64)))) => true)
  }

  function Costs(): Codec<PathCost> {
    Via(Both(Wide(), Small()), (p: (I64, U32)) => PathCost(p.0, p.1), (c: PathCost) => (c.units, c.scale),
        (p: (I64, U32)) => true)
  }

  function Claims(): Codec<CostClaim> {
    Via(Both(Identity(), Both(Bindings(), Both(Costs(), Identity()))),
        (p: (Id, (CostBinding, (PathCost, Id)))) => CostClaim(p.0, p.1.0, p.1.1.0, p.1.1.1),
        (c: CostClaim) => (c.costClass, (c.binding, (c.cost, c.source))),
        (p: (Id, (CostBinding, (PathCost, Id)))) => true)
  }

  ghost predicate TakesAll<T(!new)>(c: Codec<T>) {
    Lawful(c) && forall v :: c.carries(v) && c.fits(v)
  }

  lemma BothTakesAll<A(!new), B(!new)>(a: Codec<A>, b: Codec<B>)
    requires TakesAll(a) && TakesAll(b)
    ensures TakesAll(Both(a, b))
  {
    BothLawful(a, b);
    forall v: (A, B) ensures Both(a, b).carries(v) && Both(a, b).fits(v) {
      assert a.carries(v.0) && a.fits(v.0) && b.carries(v.1) && b.fits(v.1);
    }
  }

  lemma ViaTakesAll<A(!new), B(!new)>(c: Codec<A>, make: A -> B, take: B -> A, ok: A -> bool)
    requires TakesAll(c) && (forall v :: make(take(v)) == v) && (forall a :: take(make(a)) == a) && forall a :: ok(a)
    ensures TakesAll(Via(c, make, take, ok))
  {
    ViaLawful(c, make, take, ok);
  }

  lemma PrimitivesTakeAll()
    ensures TakesAll(Identity()) && TakesAll(Small()) && TakesAll(Big()) && TakesAll(Wide()) && TakesAll(Flag())
  {
    IdentityLawful();
    SmallLawful();
    BigLawful();
    FlagLawful();
    ViaTakesAll(Big(), (u: U64) => Signed(u), (v: I64) => Unsigned(v), (u: U64) => true);
  }

  lemma BindingsTakeAll()
    ensures TakesAll(Bindings())
  {
    hide TakesAll;
    PrimitivesTakeAll();
    BothTakesAll(Identity(), Big());
    BothTakesAll(Small(), Both(Identity(), Big()));
    BothTakesAll(Identity(), Both(Small(), Both(Identity(), Big())));
    ViaTakesAll(Both(Identity(), Both(Small(), Both(Identity(), Big()))),
                (p: (Id, (U32, (Id, U64)))) => CostBinding(p.0, p.1.0, p.1.1.0, p.1.1.1),
                (b: CostBinding) => (b.model, (b.modelVersion, (b.routeClass, b.policyGeneration))),
                (p: (Id, (U32, (Id, U64)))) => true);
  }

  /** A cost claim is read back exactly as it was written, and nothing but written claims is read. */
  lemma ClaimsTakeAll()
    ensures TakesAll(Claims()) && TakesAll(Costs())
  {
    hide TakesAll;
    PrimitivesTakeAll();
    BindingsTakeAll();
    BothTakesAll(Wide(), Small());
    ViaTakesAll(Both(Wide(), Small()), (p: (I64, U32)) => PathCost(p.0, p.1), (c: PathCost) => (c.units, c.scale),
                (p: (I64, U32)) => true);
    BothTakesAll(Costs(), Identity());
    BothTakesAll(Bindings(), Both(Costs(), Identity()));
    BothTakesAll(Identity(), Both(Bindings(), Both(Costs(), Identity())));
    ViaTakesAll(Both(Identity(), Both(Bindings(), Both(Costs(), Identity()))),
                (p: (Id, (CostBinding, (PathCost, Id)))) => CostClaim(p.0, p.1.0, p.1.1.0, p.1.1.1),
                (c: CostClaim) => (c.costClass, (c.binding, (c.cost, c.source))),
                (p: (Id, (CostBinding, (PathCost, Id)))) => true);
  }

  // ----- Members -----

  function Keys(): Codec<GroupKey> {
    Via(Both(Identity(), Both(Identity(), Both(Identity(), Identity()))),
        (p: (Id, (Id, (Id, Id)))) => GroupKey(p.0, p.1.0, p.1.1.0, p.1.1.1),
        (k: GroupKey) => (k.fabric, (k.routingNamespace, (k.destination, k.costClass))),
        (p: (Id, (Id, (Id, Id)))) => true)
  }

  function Specs(): Codec<MemberSpec> {
    Via(Both(Identity(), Both(Identity(), Both(Big(), Both(Big(), Both(Claims(), Both(Identity(), Flag())))))),
        (p: (Id, (Id, (U64, (U64, (CostClaim, (Id, bool))))))) =>
          MemberSpec(p.0, p.1.0, p.1.1.0, p.1.1.1.0, p.1.1.1.1.0, p.1.1.1.1.1.0, p.1.1.1.1.1.1),
        (m: MemberSpec) =>
          (m.member, (m.path, (m.pathAuthority, (m.memberGeneration, (m.cost, (m.provenance, m.enabled)))))),
        (p: (Id, (Id, (U64, (U64, (CostClaim, (Id, bool))))))) => true)
  }

  function MemberRecords(): Codec<MemberRecord> {
    Via(Both(Specs(), Both(Flag(), MemberStates())),
        (p: (MemberSpec, (bool, MemberState))) =>
          MemberRecord(p.0.member, p.0.path, p.0.pathAuthority, p.0.memberGeneration, p.0.cost, p.0.provenance,
                       p.0.enabled, p.1.0, p.1.1),
        (r: MemberRecord) =>
          (MemberSpec(r.member, r.path, r.pathAuthority, r.memberGeneration, r.cost, r.provenance, r.enabled),
           (r.declared, r.state)),
        (p: (MemberSpec, (bool, MemberState))) => true)
  }

  function Entries(): Codec<MemberEntry> {
    Via(Both(MemberRecords(), Both(Flag(), Both(Flag(), Both(Flag(), Flag())))),
        (p: (MemberRecord, (bool, (bool, (bool, bool))))) =>
          MemberEntry(p.0, p.1.0, p.1.1.0, p.1.1.1.0, p.1.1.1.1),
        (e: MemberEntry) => (e.record, (e.pathCurrent, (e.pathAuthorized, (e.multipathCurrent, e.costCurrent)))),
        (p: (MemberRecord, (bool, (bool, (bool, bool))))) => true)
  }

  function Semantics(): Codec<CostSemantics> {
    Via(Both(Identity(), Bindings()), (p: (Id, CostBinding)) => CostSemantics(p.0, p.1),
        (s: CostSemantics) => (s.costClass, s.binding), (p: (Id, CostBinding)) => true)
  }

  lemma KeysTakeAll()
    ensures TakesAll(Keys())
  {
    hide TakesAll;
    PrimitivesTakeAll();
    BothTakesAll(Identity(), Identity());
    BothTakesAll(Identity(), Both(Identity(), Identity()));
    BothTakesAll(Identity(), Both(Identity(), Both(Identity(), Identity())));
    ViaTakesAll(Both(Identity(), Both(Identity(), Both(Identity(), Identity()))),
                (p: (Id, (Id, (Id, Id)))) => GroupKey(p.0, p.1.0, p.1.1.0, p.1.1.1),
                (k: GroupKey) => (k.fabric, (k.routingNamespace, (k.destination, k.costClass))),
                (p: (Id, (Id, (Id, Id)))) => true);
  }

  /** A member spec is read back exactly as it was written, and nothing but written specs is read. */
  lemma SpecsTakeAll()
    ensures TakesAll(Specs())
  {
    hide TakesAll;
    PrimitivesTakeAll();
    ClaimsTakeAll();
    BothTakesAll(Identity(), Flag());
    BothTakesAll(Claims(), Both(Identity(), Flag()));
    BothTakesAll(Big(), Both(Claims(), Both(Identity(), Flag())));
    BothTakesAll(Big(), Both(Big(), Both(Claims(), Both(Identity(), Flag()))));
    BothTakesAll(Identity(), Both(Big(), Both(Big(), Both(Claims(), Both(Identity(), Flag())))));
    BothTakesAll(Identity(), Both(Identity(), Both(Big(), Both(Big(), Both(Claims(), Both(Identity(), Flag()))))));
    ViaTakesAll(Both(Identity(), Both(Identity(), Both(Big(), Both(Big(), Both(Claims(), Both(Identity(), Flag())))))),
                (p: (Id, (Id, (U64, (U64, (CostClaim, (Id, bool))))))) =>
                  MemberSpec(p.0, p.1.0, p.1.1.0, p.1.1.1.0, p.1.1.1.1.0, p.1.1.1.1.1.0, p.1.1.1.1.1.1),
                (m: MemberSpec) =>
                  (m.member, (m.path, (m.pathAuthority, (m.memberGeneration, (m.cost, (m.provenance, m.enabled)))))),
                (p: (Id, (Id, (U64, (U64, (CostClaim, (Id, bool))))))) => true);
  }

  lemma StatesTakeAll()
    ensures TakesAll(MemberStates()) && TakesAll(MoveReasons())
  {
    EnumerationLawful(5, StateOf, StateNumber);
    EnumerationLawful(3, MoveReasonOf, MoveReasonNumber);
  }

  /** A member entry is read back exactly as it was written, and nothing but written entries is read. */
  lemma EntriesTakeAll()
    ensures TakesAll(MemberRecords()) && TakesAll(Entries())
  {
    hide TakesAll;
    PrimitivesTakeAll();
    SpecsTakeAll();
    StatesTakeAll();
    BothTakesAll(Flag(), MemberStates());
    BothTakesAll(Specs(), Both(Flag(), MemberStates()));
    ViaTakesAll(Both(Specs(), Both(Flag(), MemberStates())),
                (p: (MemberSpec, (bool, MemberState))) =>
                  MemberRecord(p.0.member, p.0.path, p.0.pathAuthority, p.0.memberGeneration, p.0.cost, p.0.provenance,
                               p.0.enabled, p.1.0, p.1.1),
                (r: MemberRecord) =>
                  (MemberSpec(r.member, r.path, r.pathAuthority, r.memberGeneration, r.cost, r.provenance, r.enabled),
                   (r.declared, r.state)),
                (p: (MemberSpec, (bool, MemberState))) => true);
    BothTakesAll(Flag(), Flag());
    BothTakesAll(Flag(), Both(Flag(), Flag()));
    BothTakesAll(Flag(), Both(Flag(), Both(Flag(), Flag())));
    BothTakesAll(MemberRecords(), Both(Flag(), Both(Flag(), Both(Flag(), Flag()))));
    ViaTakesAll(Both(MemberRecords(), Both(Flag(), Both(Flag(), Both(Flag(), Flag())))),
                (p: (MemberRecord, (bool, (bool, (bool, bool))))) =>
                  MemberEntry(p.0, p.1.0, p.1.1.0, p.1.1.1.0, p.1.1.1.1),
                (e: MemberEntry) => (e.record, (e.pathCurrent, (e.pathAuthorized, (e.multipathCurrent, e.costCurrent)))),
                (p: (MemberRecord, (bool, (bool, (bool, bool))))) => true);
  }

  lemma SemanticsTakeAll()
    ensures TakesAll(Semantics())
  {
    hide TakesAll;
    PrimitivesTakeAll();
    BindingsTakeAll();
    BothTakesAll(Identity(), Bindings());
    ViaTakesAll(Both(Identity(), Bindings()), (p: (Id, CostBinding)) => CostSemantics(p.0, p.1),
                (s: CostSemantics) => (s.costClass, s.binding), (p: (Id, CostBinding)) => true);
  }

  // ----- Moves -----

  function MoveCodec(): Codec<BucketMove> {
    Via(Both(Word(4), Both(Identity(), Both(Identity(), MoveReasons()))),
        (p: (nat, (Id, (Id, MoveReason)))) => BucketMove(p.0, p.1.0, p.1.1.0, p.1.1.1),
        (m: BucketMove) => (m.bucket, (m.from, (m.to, m.reason))),
        (p: (nat, (Id, (Id, MoveReason)))) => true)
  }

  /** A move is read back exactly as it was written, provided its bucket is a 32-bit number. */
  lemma MoveLawful()
    ensures Lawful(MoveCodec()) && forall m :: (MoveCodec().carries(m) <==> m.bucket < 0x1_00000000) && MoveCodec().fits(m)
  {
    Limit64();
    WordLawful(4);
    IdentityLawful();
    EnumerationLawful(3, MoveReasonOf, MoveReasonNumber);
    hide Lawful;
    BothLawful(Identity(), MoveReasons());
    BothLawful(Identity(), Both(Identity(), MoveReasons()));
    BothLawful(Word(4), Both(Identity(), Both(Identity(), MoveReasons())));
    ViaLawful(Both(Word(4), Both(Identity(), Both(Identity(), MoveReasons()))),
              (p: (nat, (Id, (Id, MoveReason)))) => BucketMove(p.0, p.1.0, p.1.1.0, p.1.1.1),
              (m: BucketMove) => (m.bucket, (m.from, (m.to, m.reason))),
              (p: (nat, (Id, (Id, MoveReason)))) => true);
  }
}
