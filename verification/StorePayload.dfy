/** The payload of a store file: groups, counters and remembered attempts, decoded strictly to its last byte. */
module StorePayload {
  import opened Prelude
  import opened Assignment
  import opened Lifecycle
  import opened Records
  import opened Bytes
  import opened Codecs
  import opened RecordCodecs
  import opened AssignmentPairs
  import opened StoreCodec

  datatype StoredAttempt = StoredAttempt(attempt: Id, payload: Digest, outcome: nat, group: Id, primary: nat,
                                         text: seq<Byte>)

  datatype StoredPayload = StoredPayload(groups: seq<StoredGroup>, committed: nat, attempts: seq<StoredAttempt>)

  const PAYLOAD_VERSION: nat := 1
  const MAX_TEXT: nat := 256

  // ----- Attempts -----

  /** One byte as it is. */
  function Octet(): Codec<Byte> {
    Codec((b: Byte) => [b], (s: seq<Byte>) => if s == [] then None else Some(Read(s[0], s[1..])), (b: Byte) => true,
          (b: Byte) => true)
  }

  lemma OctetFaithful()
    ensures Faithful(Octet())
  {
    var c := Octet();
    forall b: Byte, tail ensures c.decode(c.encode(b) + tail) == Some(Read(b, tail)) {
      assert ([b] + tail)[1..] == tail;
    }
  }

  /** Text of at most 256 bytes behind its length. */
  function Text(): Codec<seq<Byte>> { Many(Octet(), MAX_TEXT) }

  function Word32(): Codec<nat> { Word(4) }

  type AttemptTuple = (Id, (Digest, (nat, (Id, (nat, seq<Byte>)))))

  function AttemptOf(p: AttemptTuple): StoredAttempt {
    StoredAttempt(p.0, p.1.0, p.1.1.0, p.1.1.1.0, p.1.1.1.1.0, p.1.1.1.1.1)
  }

  function AttemptTupleOf(a: StoredAttempt): AttemptTuple {
    (a.attempt, (a.payload, (a.outcome, (a.group, (a.primary, a.text)))))
  }

  function AttemptLayout(): Codec<AttemptTuple> {
    Both(Identity(), Both(Digests(), Both(Word32(), Both(Identity(), Both(Word32(), Text())))))
  }

  function StoredAttempts(): Codec<StoredAttempt> {
    Via(AttemptLayout(), AttemptOf, AttemptTupleOf, (p: AttemptTuple) => true)
  }

  predicate AttemptCarries(a: StoredAttempt) {
    IsDigest(a.payload) && a.outcome < 0x1_00000000 && a.primary < 0x1_00000000 && |a.text| < 0x1_00000000
  }

  lemma StoredAttemptsFaithful()
    ensures Faithful(StoredAttempts())
  {
    AtomsFaithful();
    OctetFaithful();
    WordLawful(4);
    hide Faithful, Octet;
    LawfulIsFaithful(Word32());
    ManyFaithful(Octet(), MAX_TEXT);
    BothFaithful(Word32(), Text());
    BothFaithful(Identity(), Both(Word32(), Text()));
    BothFaithful(Word32(), Both(Identity(), Both(Word32(), Text())));
    BothFaithful(Digests(), Both(Word32(), Both(Identity(), Both(Word32(), Text()))));
    BothFaithful(Identity(), Both(Digests(), Both(Word32(), Both(Identity(), Both(Word32(), Text())))));
    ViaFaithful(AttemptLayout(), AttemptOf, AttemptTupleOf, (p: AttemptTuple) => true);
  }

  lemma TextTakes(t: seq<Byte>)
    ensures (Text().carries(t) <==> |t| < 0x1_00000000) && (Text().fits(t) <==> |t| <= MAX_TEXT)
  {
    assert forall i :: 0 <= i < |t| ==> Octet().carries(t[i]) && Octet().fits(t[i]);
  }

  lemma StoredAttemptsTake(a: StoredAttempt)
    ensures StoredAttempts().carries(a) <==> AttemptCarries(a)
    ensures StoredAttempts().fits(a) <==> |a.text| <= MAX_TEXT
  {
    Limit64();
    AtomsTake();
    TextTakes(a.text);
    hide Identity, Digests, Text, IsDigest;
    var p := AttemptTupleOf(a);
    assert AttemptLayout().carries(p) ==
           (Identity().carries(p.0) && Digests().carries(p.1.0) && Word32().carries(p.1.1.0) &&
            Identity().carries(p.1.1.1.0) && Word32().carries(p.1.1.1.1.0) && Text().carries(p.1.1.1.1.1));
  }

  // ----- The payload -----

  predicate RepeatsGroup(gs: seq<StoredGroup>) {
    exists i, j :: 0 <= i < j < |gs| && gs[i].head.id == gs[j].head.id
  }

  type PayloadTuple = (nat, (seq<StoredGroup>, (nat, (seq<StoredAttempt>, nat))))

  function StoredPayloadOf(p: PayloadTuple): StoredPayload { StoredPayload(p.1.0, p.1.1.0, p.1.1.1.0) }

  function PayloadTupleOf(p: StoredPayload): PayloadTuple { (PAYLOAD_VERSION, (p.groups, (p.committed, (p.attempts, 0)))) }

  function PayloadLayout(limits: Limits): Codec<PayloadTuple> {
    Both(Word32(), Both(Many(StoredGroups(limits), limits.maxGroups), Both(Counter(),
      Both(Many(StoredAttempts(), limits.maxAttemptsRemembered), Word32()))))
  }

  /** The version and the reserved trailer are checked, and no group may come twice. */
  function Payloads(limits: Limits): Codec<StoredPayload> {
    Via(PayloadLayout(limits), StoredPayloadOf, PayloadTupleOf,
        (p: PayloadTuple) => p.0 == PAYLOAD_VERSION && p.1.1.1.1 == 0 && !RepeatsGroup(p.1.0))
  }

  function EncodePayload(p: StoredPayload, limits: Limits): seq<Byte> { Payloads(limits).encode(p) }

  function DecodePayload(s: seq<Byte>, limits: Limits): Option<StoredPayload> {
    hide Payloads;
    var r := Payloads(limits).decode(s);
    if r.None? || r.value.rest != [] then None else Some(r.value.value)
  }

  lemma PayloadsFaithful(limits: Limits)
    ensures Faithful(Payloads(limits))
  {
    hide Faithful, StoredGroups, StoredAttempts;
    AtomsFaithful();
    StoredAttemptsFaithful();
    StoredGroupsFaithful(limits);
    WordLawful(4);
    var groups, attempts := Many(StoredGroups(limits), limits.maxGroups),
                            Many(StoredAttempts(), limits.maxAttemptsRemembered);
    LawfulIsFaithful(Word32());
    ManyFaithful(StoredGroups(limits), limits.maxGroups);
    ManyFaithful(StoredAttempts(), limits.maxAttemptsRemembered);
    BothFaithful(attempts, Word32());
    BothFaithful(Counter(), Both(attempts, Word32()));
    BothFaithful(groups, Both(Counter(), Both(attempts, Word32())));
    BothFaithful(Word32(), Both(groups, Both(Counter(), Both(attempts, Word32()))));
    ViaFaithful(PayloadLayout(limits), StoredPayloadOf, PayloadTupleOf,
                (p: PayloadTuple) => p.0 == PAYLOAD_VERSION && p.1.1.1.1 == 0 && !RepeatsGroup(p.1.0));
  }

  predicate PayloadCarries(p: StoredPayload) {
    && |p.groups| < 0x1_00000000 && (forall i :: 0 <= i < |p.groups| ==> GroupCarries(p.groups[i]))
    && Counts(p.committed)
    && |p.attempts| < 0x1_00000000 && (forall i :: 0 <= i < |p.attempts| ==> AttemptCarries(p.attempts[i]))
  }

  /** Every check of the payload reader. */
  predicate PayloadFits(p: StoredPayload, limits: Limits) {
    && |p.groups| <= limits.maxGroups && (forall i :: 0 <= i < |p.groups| ==> GroupFits(p.groups[i], limits))
    && !RepeatsGroup(p.groups)
    && |p.attempts| <= limits.maxAttemptsRemembered
    && (forall i :: 0 <= i < |p.attempts| ==> |p.attempts[i].text| <= MAX_TEXT)
  }

  lemma GroupListTakes(gs: seq<StoredGroup>, limits: Limits)
    ensures var c := Many(StoredGroups(limits), limits.maxGroups);
            && (c.carries(gs) <==> |gs| < 0x1_00000000 && forall i :: 0 <= i < |gs| ==> GroupCarries(gs[i]))
            && (c.fits(gs) <==> |gs| <= limits.maxGroups && forall i :: 0 <= i < |gs| ==> GroupFits(gs[i], limits))
  {
    hide StoredGroups, GroupCarries, GroupFits;
    forall i | 0 <= i < |gs|
      ensures StoredGroups(limits).carries(gs[i]) <==> GroupCarries(gs[i])
      ensures StoredGroups(limits).fits(gs[i]) <==> GroupFits(gs[i], limits)
    {
      StoredGroupsTake(gs[i], limits);
    }
  }

  lemma AttemptListTakes(xs: seq<StoredAttempt>, max: nat)
    ensures var c := Many(StoredAttempts(), max);
            && (c.carries(xs) <==> |xs| < 0x1_00000000 && forall i :: 0 <= i < |xs| ==> AttemptCarries(xs[i]))
            && (c.fits(xs) <==> |xs| <= max && forall i :: 0 <= i < |xs| ==> |xs[i].text| <= MAX_TEXT)
  {
    hide StoredAttempts, AttemptCarries;
    forall i | 0 <= i < |xs|
      ensures StoredAttempts().carries(xs[i]) <==> AttemptCarries(xs[i])
      ensures StoredAttempts().fits(xs[i]) <==> |xs[i].text| <= MAX_TEXT
    {
      StoredAttemptsTake(xs[i]);
    }
  }

  lemma PayloadsTake(p: StoredPayload, limits: Limits)
    ensures Payloads(limits).carries(p) <==> PayloadCarries(p)
    ensures Payloads(limits).fits(p) <==> PayloadFits(p, limits)
  {
    Limit64();
    AtomsTake();
    GroupListTakes(p.groups, limits);
    AttemptListTakes(p.attempts, limits.maxAttemptsRemembered);
    hide Counter, Many, StoredGroups, StoredAttempts, GroupCarries, GroupFits, AttemptCarries, Counts, RepeatsGroup;
    var t := PayloadTupleOf(p);
    assert PayloadLayout(limits).carries(t) ==
           (Word32().carries(t.0) && Many(StoredGroups(limits), limits.maxGroups).carries(t.1.0) &&
            Counter().carries(t.1.1.0) && Many(StoredAttempts(), limits.maxAttemptsRemembered).carries(t.1.1.1.0) &&
            Word32().carries(t.1.1.1.1));
    assert PayloadLayout(limits).fits(t) ==
           (Word32().fits(t.0) && Many(StoredGroups(limits), limits.maxGroups).fits(t.1.0) &&
            Counter().fits(t.1.1.0) && Many(StoredAttempts(), limits.maxAttemptsRemembered).fits(t.1.1.1.0) &&
            Word32().fits(t.1.1.1.1));
  }

  /** A written payload is read back exactly when every check of the reader holds of it. */
  lemma PayloadRoundTrip(p: StoredPayload, limits: Limits)
    requires PayloadCarries(p)
    ensures DecodePayload(EncodePayload(p, limits), limits) == if PayloadFits(p, limits) then Some(p) else None
  {
    hide Payloads, PayloadCarries, PayloadFits;
    PayloadsFaithful(limits);
    PayloadsTake(p, limits);
    WholeRoundTrip(Payloads(limits), p);
  }

  lemma WholeRoundTrip<T(!new)>(c: Codec<T>, v: T)
    requires RoundTrips(c) && c.carries(v)
    ensures c.decode(c.encode(v)) == if c.fits(v) then Some(Read(v, [])) else None
  {
    assert c.encode(v) + [] == c.encode(v);
  }

  /** Nothing is ever accepted that does not pass every check, whatever the bytes. */
  lemma AcceptedPayloadFits(s: seq<Byte>, limits: Limits)
    requires DecodePayload(s, limits).Some?
    ensures var p := DecodePayload(s, limits).value;
            && PayloadFits(p, limits) && DecodePayload(EncodePayload(p, limits), limits) == Some(p)
  {
    hide Payloads, PayloadCarries, PayloadFits;
    var p := DecodePayload(s, limits).value;
    PayloadsFaithful(limits);
    PayloadsTake(p, limits);
    PayloadRoundTrip(p, limits);
  }

  // ----- The program's loops -----

  /** The groups by their identity; a later one would replace an earlier one of the same identity. */
  function ById(gs: seq<StoredGroup>): map<Id, StoredGroup> {
    if gs == [] then map[]
    else ById(gs[..|gs| - 1])[gs[|gs| - 1].head.id := gs[|gs| - 1]]
  }

  lemma {:induction false} ByIdKeys(gs: seq<StoredGroup>, id: Id)
    ensures id in ById(gs) <==> exists i :: 0 <= i < |gs| && gs[i].head.id == id
  {
    if gs != [] {
      var init := gs[..|gs| - 1];
      ByIdKeys(init, id);
      if id in ById(init) {
        var i :| 0 <= i < |init| && init[i].head.id == id;
        assert gs[i].head.id == id;
      }
      if exists i :: 0 <= i < |gs| && gs[i].head.id == id {
        var i :| 0 <= i < |gs| && gs[i].head.id == id;
        if i < |init| { assert init[i].head.id == id; }
      }
    }
  }

  /** Reading n values from s means having read `seen` and reading the others from `rest`. */
  ghost predicate Onward<T>(c: Codec<T>, s: seq<Byte>, n: nat, seen: seq<T>, rest: seq<Byte>)
    requires |seen| <= n
  {
    var more := DecodeMany(c, rest, n - |seen|);
    DecodeMany(c, s, n) == if more.None? then None else Some(Read(seen + more.value.value, more.value.rest))
  }

  lemma OnwardFirst<T>(c: Codec<T>, s: seq<Byte>, n: nat)
    ensures Onward(c, s, n, [], s)
  {
    var more := DecodeMany(c, s, n);
    if more.Some? { assert [] + more.value.value == more.value.value; }
  }

  lemma OnwardNext<T>(c: Codec<T>, s: seq<Byte>, n: nat, seen: seq<T>, rest: seq<Byte>)
    requires |seen| < n && Onward(c, s, n, seen, rest)
    ensures c.decode(rest).None? ==> DecodeMany(c, s, n).None?
    ensures c.decode(rest).Some? ==> Onward(c, s, n, seen + [c.decode(rest).value.value], c.decode(rest).value.rest)
  {
    if c.decode(rest).Some? {
      var first := c.decode(rest).value;
      var more := DecodeMany(c, first.rest, n - |seen| - 1);
      if more.Some? {
        assert seen + ([first.value] + more.value.value) == (seen + [first.value]) + more.value.value;
      }
    }
  }

  lemma OnwardLast<T>(c: Codec<T>, s: seq<Byte>, n: nat, seen: seq<T>, rest: seq<Byte>)
    requires |seen| == n && Onward(c, s, n, seen, rest)
    ensures DecodeMany(c, s, n) == Some(Read(seen, rest))
  {
    assert seen + [] == seen;
  }

  lemma RepeatedStays(seen: seq<StoredGroup>, next: StoredGroup, others: seq<StoredGroup>)
    requires next.head.id in ById(seen)
    ensures RepeatsGroup(seen + [next] + others)
  {
    ByIdKeys(seen, next.head.id);
    var i :| 0 <= i < |seen| && seen[i].head.id == next.head.id;
    var all := seen + [next] + others;
    assert all[i] == seen[i] && all[|seen|] == next;
  }

  lemma StillUnrepeated(seen: seq<StoredGroup>, next: StoredGroup)
    requires !RepeatsGroup(seen) && next.head.id !in ById(seen)
    ensures !RepeatsGroup(seen + [next]) && ById(seen + [next]) == ById(seen)[next.head.id := next]
  {
    var all := seen + [next];
    assert all[..|seen|] == seen;
    ByIdKeys(seen, next.head.id);
    forall i, j | 0 <= i < j < |all| ensures all[i].head.id != all[j].head.id {
      assert all[i] == seen[i];
    }
  }

  lemma NeverUnrepeated(c: Codec<StoredGroup>, s: seq<Byte>, n: nat, seen: seq<StoredGroup>, next: StoredGroup,
                        rest: seq<Byte>)
    requires |seen| < n && Onward(c, s, n, seen + [next], rest) && next.head.id in ById(seen)
    ensures DecodeMany(c, s, n).None? || RepeatsGroup(DecodeMany(c, s, n).value.value)
  {
    var more := DecodeMany(c, rest, n - |seen| - 1);
    if more.Some? { RepeatedStays(seen, next, more.value.value); }
  }

  /** Reads the groups one after the other into a table; a group that comes twice ends the load. */
  method ReadGroups(bytes: seq<Byte>, count: nat, limits: Limits)
    returns (ok: bool, groups: map<Id, StoredGroup>, rest: seq<Byte>)
    ensures var all := DecodeMany(StoredGroups(limits), bytes, count);
            if ok then all.Some? && !RepeatsGroup(all.value.value) && groups == ById(all.value.value) && rest == all.value.rest
            else all.None? || RepeatsGroup(all.value.value)
  {
    hide StoredGroups, RepeatsGroup, Onward, DecodeMany;
    var c := StoredGroups(limits);
    ghost var seen: seq<StoredGroup> := [];
    groups, rest := map[], bytes;
    OnwardFirst(c, bytes, count);
    NothingRepeats();
    for index := 0 to count
      invariant |seen| == index && Onward(c, bytes, count, seen, rest) && !RepeatsGroup(seen) && groups == ById(seen)
    {
      var next := c.decode(rest);
      OnwardNext(c, bytes, count, seen, rest);
      if next.None? { return false, map[], []; }
      var group := next.value.value;
      if group.head.id in groups {
        NeverUnrepeated(c, bytes, count, seen, group, next.value.rest);
        return false, map[], [];
      }
      StillUnrepeated(seen, group);
      groups, rest := groups[group.head.id := group], next.value.rest;
      seen := seen + [group];
    }
    OnwardLast(c, bytes, count, seen, rest);
    ok := true;
  }

  lemma NothingRepeats()
    ensures !RepeatsGroup([]) && ById([]) == map[]
  {
  }

  /** The payload reader, part after part. */
  function PayloadSteps(s: seq<Byte>, limits: Limits): Option<StoredPayload> {
    hide StoredGroups, StoredAttempts, Many, RepeatsGroup;
    var version := Word32().decode(s);
    if version.None? then None
    else
      var groups := Many(StoredGroups(limits), limits.maxGroups).decode(version.value.rest);
      if groups.None? then None
      else
        var total := Counter().decode(groups.value.rest);
        if total.None? then None
        else
          var attempts := Many(StoredAttempts(), limits.maxAttemptsRemembered).decode(total.value.rest);
          if attempts.None? then None
          else
            var trailer := Word32().decode(attempts.value.rest);
            if trailer.None? || version.value.value != PAYLOAD_VERSION || trailer.value.value != 0 ||
               RepeatsGroup(groups.value.value) || trailer.value.rest != [] then None
            else Some(StoredPayload(groups.value.value, total.value.value, attempts.value.value))
  }

  lemma DecodedInSteps(s: seq<Byte>, limits: Limits)
    ensures DecodePayload(s, limits) == PayloadSteps(s, limits)
  {
    hide StoredGroups, StoredAttempts, Many, RepeatsGroup, Word32, Counter, Both;
    var attempts := Both(Many(StoredAttempts(), limits.maxAttemptsRemembered), Word32());
    var counted := Both(Counter(), attempts);
    var grouped := Both(Many(StoredGroups(limits), limits.maxGroups), counted);
    assert PayloadLayout(limits) == Both(Word32(), grouped);
    InTurn(Word32(), grouped, s);
    if Word32().decode(s).Some? {
      var s1 := Word32().decode(s).value.rest;
      InTurn(Many(StoredGroups(limits), limits.maxGroups), counted, s1);
      if Many(StoredGroups(limits), limits.maxGroups).decode(s1).Some? {
        var s2 := Many(StoredGroups(limits), limits.maxGroups).decode(s1).value.rest;
        InTurn(Counter(), attempts, s2);
        if Counter().decode(s2).Some? {
          InTurn(Many(StoredAttempts(), limits.maxAttemptsRemembered), Word32(), Counter().decode(s2).value.rest);
        }
      }
    }
  }

  lemma InTurn<A, B>(a: Codec<A>, b: Codec<B>, s: seq<Byte>)
    ensures Both(a, b).decode(s) ==
            if a.decode(s).None? || b.decode(a.decode(s).value.rest).None? then None
            else
              var first := a.decode(s).value;
              var second := b.decode(first.rest).value;
              Some(Read((first.value, second.value), second.rest))
  {
  }

  /** Reads a whole payload: version, groups, the number of committed rebalances, the attempts (which are checked and
      dropped), the reserved trailer and nothing behind it. */
  method ReadPayload(bytes: seq<Byte>, limits: Limits)
    returns (ok: bool, groups: map<Id, StoredGroup>, committed: nat)
    ensures ok <==> DecodePayload(bytes, limits).Some?
    ensures ok ==> var p := DecodePayload(bytes, limits).value; groups == ById(p.groups) && committed == p.committed
  {
    hide StoredGroups, StoredAttempts, RepeatsGroup, DecodeMany, Word, DecodePayload, ById;
    DecodedInSteps(bytes, limits);
    ok, groups, committed := false, map[], 0;
    var version := Word32().decode(bytes);
    if version.None? { return; }
    var count := Word32().decode(version.value.rest);
    if count.None? { return; }
    if version.value.value != PAYLOAD_VERSION || count.value.value > limits.maxGroups { return; }
    var read, table, rest := ReadGroups(count.value.rest, count.value.value, limits);
    if !read { return; }
    var total := Counter().decode(rest);
    if total.None? { return; }
    var attempts := Many(StoredAttempts(), limits.maxAttemptsRemembered).decode(total.value.rest);
    if attempts.None? { return; }
    var trailer := Word32().decode(attempts.value.rest);
    if trailer.None? || trailer.value.value != 0 || trailer.value.rest != [] { return; }
    ok, groups, committed := true, table, total.value.value;
  }
}
