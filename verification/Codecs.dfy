/** Codecs as values: how records are put together from simpler ones, and why composed codecs still round trip. */
module Codecs {
  import opened Prelude
  import opened Bytes

  /** A way to write values of a type and to read them back. `carries` says which values it writes without loss, `fits`
      which of those it also reads back. */
  datatype Codec<!T> = Codec(encode: T -> seq<Byte>, decode: seq<Byte> -> Option<Read<T>>, carries: T -> bool,
                             fits: T -> bool)

  /** Every written value is read back exactly when it fits, whatever follows it, and refused otherwise. */
  ghost predicate RoundTrips<T(!new)>(c: Codec<T>) {
    forall v, tail {:trigger c.encode(v) + tail} :: c.carries(v) ==>
      c.decode(c.encode(v) + tail) == if c.fits(v) then Some(Read(v, tail)) else None
  }

  /** Whatever is read fits, and the bytes read are exactly how it is written. */
  ghost predicate Strict<T(!new)>(c: Codec<T>) {
    forall s {:trigger c.decode(s)} :: c.decode(s).Some? ==>
      var r := c.decode(s).value; c.carries(r.value) && c.fits(r.value) && s == c.encode(r.value) + r.rest
  }

  ghost predicate Lawful<T(!new)>(c: Codec<T>) {
    RoundTrips(c) && Strict(c)
  }

  // ----- Primitive codecs -----

  function Word(k: nat): Codec<nat> {
    Codec((n: nat) => LittleEndian(n, k),
          (s: seq<Byte>) => if |s| < k then None else Some(Read(Value(s[..k]), s[k..])),
          (n: nat) => n < Power256(k), (n: nat) => true)
  }

  lemma WordLawful(k: nat)
    ensures Lawful(Word(k))
  {
    var c := Word(k);
    forall n: nat, tail | c.carries(n) ensures c.decode(c.encode(n) + tail) == Some(Read(n, tail)) {
      ValueOfBytes(n, k);
      var s := LittleEndian(n, k) + tail;
      assert s[..k] == LittleEndian(n, k) && s[k..] == tail;
    }
    forall s | c.decode(s).Some?
      ensures var r := c.decode(s).value; c.carries(r.value) && c.fits(r.value) && s == c.encode(r.value) + r.rest
    {
      BytesOfValue(s[..k]);
      assert s == s[..k] + s[k..];
    }
  }

  function Identity(): Codec<Id> {
    Codec((id: Id) => IdBytes(id),
          (s: seq<Byte>) => if |s| < 16 then None else Some(Read(IdOf(s[..16]), s[16..])),
          (id: Id) => true, (id: Id) => true)
  }

  lemma IdentityLawful()
    ensures Lawful(Identity())
  {
    var c := Identity();
    forall id: Id, tail ensures c.decode(c.encode(id) + tail) == Some(Read(id, tail)) {
      IdRoundTrip(id);
      var s := IdBytes(id) + tail;
      assert s[..16] == IdBytes(id) && s[16..] == tail;
    }
    forall s | c.decode(s).Some? ensures var r := c.decode(s).value; s == c.encode(r.value) + r.rest {
      IdStrict(s[..16]);
      assert s == s[..16] + s[16..];
    }
  }

  /** A fixed number of bytes, as they are. */
  function Fixed(n: nat): Codec<seq<Byte>> {
    Codec((b: seq<Byte>) => b, (s: seq<Byte>) => if |s| < n then None else Some(Read(s[..n], s[n..])),
          (b: seq<Byte>) => |b| == n, (b: seq<Byte>) => true)
  }

  lemma FixedLawful(n: nat)
    ensures Lawful(Fixed(n))
  {
    var c := Fixed(n);
    forall b: seq<Byte>, tail: seq<Byte> | |b| == n ensures c.decode(c.encode(b) + tail) == Some(Read(b, tail)) {
      assert (b + tail)[..n] == b && (b + tail)[n..] == tail;
    }
    forall s | c.decode(s).Some? ensures var r := c.decode(s).value; s == c.encode(r.value) + r.rest {
      assert s == s[..n] + s[n..];
    }
  }

  // ----- Composition -----

  function Both<A, B>(a: Codec<A>, b: Codec<B>): Codec<(A, B)> {
    Codec((v: (A, B)) => a.encode(v.0) + b.encode(v.1),
          (s: seq<Byte>) =>
            var first := a.decode(s);
            if first.None? then None
            else
              var second := b.decode(first.value.rest);
              if second.None? then None
              else Some(Read((first.value.value, second.value.value), second.value.rest)),
          (v: (A, B)) => a.carries(v.0) && b.carries(v.1), (v: (A, B)) => a.fits(v.0) && b.fits(v.1))
  }

  lemma BothRoundTrips<A(!new), B(!new)>(a: Codec<A>, b: Codec<B>)
    requires RoundTrips(a) && RoundTrips(b)
    ensures RoundTrips(Both(a, b))
  {
    var c := Both(a, b);
    forall v: (A, B), tail | c.carries(v)
      ensures c.decode(c.encode(v) + tail) == if c.fits(v) then Some(Read(v, tail)) else None
    {
      assert (a.encode(v.0) + b.encode(v.1)) + tail == a.encode(v.0) + (b.encode(v.1) + tail);
    }
  }

  lemma BothLawful<A(!new), B(!new)>(a: Codec<A>, b: Codec<B>)
    requires Lawful(a) && Lawful(b)
    ensures Lawful(Both(a, b))
  {
    BothRoundTrips(a, b);
    var c := Both(a, b);
    forall s | c.decode(s).Some?
      ensures var r := c.decode(s).value; c.carries(r.value) && c.fits(r.value) && s == c.encode(r.value) + r.rest
    {
      var first := a.decode(s).value;
      var second := b.decode(first.rest).value;
      assert s == a.encode(first.value) + (b.encode(second.value) + second.rest);
      assert a.encode(first.value) + (b.encode(second.value) + second.rest) ==
             (a.encode(first.value) + b.encode(second.value)) + second.rest;
    }
  }

  /** The same bytes seen as another type; only values that `ok` admits are read. */
  function Via<A, B>(c: Codec<A>, make: A -> B, take: B -> A, ok: A -> bool): Codec<B> {
    Codec((v: B) => c.encode(take(v)),
          (s: seq<Byte>) =>
            var r := c.decode(s);
            if r.None? || !ok(r.value.value) then None else Some(Read(make(r.value.value), r.value.rest)),
          (v: B) => c.carries(take(v)), (v: B) => c.fits(take(v)) && ok(take(v)))
  }

  lemma ViaRoundTrips<A(!new), B(!new)>(c: Codec<A>, make: A -> B, take: B -> A, ok: A -> bool)
    requires RoundTrips(c) && forall v :: make(take(v)) == v
    ensures RoundTrips(Via(c, make, take, ok))
  {
  }

  lemma ViaLawful<A(!new), B(!new)>(c: Codec<A>, make: A -> B, take: B -> A, ok: A -> bool)
    requires Lawful(c) && (forall v :: make(take(v)) == v) && forall a :: ok(a) ==> take(make(a)) == a
    ensures Lawful(Via(c, make, take, ok))
  {
    ViaRoundTrips(c, make, take, ok);
  }

  /** A second part whose format depends on the first. */
  function Then<A, B>(a: Codec<A>, b: A -> Codec<B>): Codec<(A, B)> {
    Codec((v: (A, B)) => a.encode(v.0) + b(v.0).encode(v.1),
          (s: seq<Byte>) =>
            var first := a.decode(s);
            if first.None? then None
            else
              var second := b(first.value.value).decode(first.value.rest);
              if second.None? then None
              else Some(Read((first.value.value, second.value.value), second.value.rest)),
          (v: (A, B)) => a.carries(v.0) && b(v.0).carries(v.1), (v: (A, B)) => a.fits(v.0) && b(v.0).fits(v.1))
  }

  lemma ThenRoundTrips<A(!new), B(!new)>(a: Codec<A>, b: A -> Codec<B>)
    requires RoundTrips(a) && forall v :: RoundTrips(b(v))
    ensures RoundTrips(Then(a, b))
  {
    var c := Then(a, b);
    forall v: (A, B), tail | c.carries(v)
      ensures c.decode(c.encode(v) + tail) == if c.fits(v) then Some(Read(v, tail)) else None
    {
      assert (a.encode(v.0) + b(v.0).encode(v.1)) + tail == a.encode(v.0) + (b(v.0).encode(v.1) + tail);
      assert RoundTrips(b(v.0));
    }
  }

  // ----- Repetition -----

  predicate AllFit<T>(c: Codec<T>, vs: seq<T>) {
    forall i :: 0 <= i < |vs| ==> c.fits(vs[i])
  }

  function EncodeAll<T>(c: Codec<T>, vs: seq<T>): seq<Byte> {
    if vs == [] then [] else c.encode(vs[0]) + EncodeAll(c, vs[1..])
  }

  function DecodeMany<T>(c: Codec<T>, s: seq<Byte>, n: nat): Option<Read<seq<T>>>
    decreases n
  {
    if n == 0 then Some(Read([], s))
    else
      var first := c.decode(s);
      if first.None? then None
      else
        var others := DecodeMany(c, first.value.rest, n - 1);
        if others.None? then None else Some(Read([first.value.value] + others.value.value, others.value.rest))
  }

  lemma {:induction false} ManyRoundTrip<T(!new)>(c: Codec<T>, vs: seq<T>, tail: seq<Byte>)
    requires RoundTrips(c) && forall i :: 0 <= i < |vs| ==> c.carries(vs[i])
    ensures DecodeMany(c, EncodeAll(c, vs) + tail, |vs|) == if AllFit(c, vs) then Some(Read(vs, tail)) else None
  {
    if vs == [] {
      assert EncodeAll(c, vs) + tail == tail;
    } else {
      var others := EncodeAll(c, vs[1..]) + tail;
      assert EncodeAll(c, vs) + tail == c.encode(vs[0]) + others;
      assert c.decode(c.encode(vs[0]) + others) == if c.fits(vs[0]) then Some(Read(vs[0], others)) else None;
      ManyRoundTrip(c, vs[1..], tail);
      assert vs == [vs[0]] + vs[1..];
    }
  }

  /** A 32-bit count of at most `max`, then that many values. */
  function Many<T>(c: Codec<T>, max: nat): Codec<seq<T>> {
    Codec((vs: seq<T>) => LittleEndian(|vs|, 4) + EncodeAll(c, vs),
          (s: seq<Byte>) =>
            var count := Word(4).decode(s);
            if count.None? || count.value.value > max then None else DecodeMany(c, count.value.rest, count.value.value),
          (vs: seq<T>) => |vs| < 0x1_00000000 && forall i :: 0 <= i < |vs| ==> c.carries(vs[i]),
          (vs: seq<T>) => |vs| <= max && AllFit(c, vs))
  }

  lemma CountRead(n: nat, tail: seq<Byte>)
    requires n < 0x1_00000000
    ensures Word(4).decode(LittleEndian(n, 4) + tail) == Some(Read(n, tail))
  {
    Limit64();
    WordLawful(4);
    assert Word(4).encode(n) + tail == LittleEndian(n, 4) + tail;
  }

  lemma ManyRoundTrips<T(!new)>(c: Codec<T>, max: nat)
    requires RoundTrips(c)
    ensures RoundTrips(Many(c, max))
  {
    var m := Many(c, max);
    forall vs: seq<T>, tail | m.carries(vs)
      ensures m.decode(m.encode(vs) + tail) == if m.fits(vs) then Some(Read(vs, tail)) else None
    {
      assert (LittleEndian(|vs|, 4) + EncodeAll(c, vs)) + tail == LittleEndian(|vs|, 4) + (EncodeAll(c, vs) + tail);
      CountRead(|vs|, EncodeAll(c, vs) + tail);
      ManyRoundTrip(c, vs, tail);
    }
  }

  lemma CountStrict(s: seq<Byte>)
    requires Word(4).decode(s).Some?
    ensures var r := Word(4).decode(s).value; r.value < 0x1_00000000 && s == LittleEndian(r.value, 4) + r.rest
  {
    Limit64();
    BytesOfValue(s[..4]);
    assert s == s[..4] + s[4..];
  }

  // ----- Options -----

  function Maybe<T>(c: Codec<T>): Codec<Option<T>> {
    Codec((v: Option<T>) => if v.None? then [0] else [1] + c.encode(v.value),
          (s: seq<Byte>) =>
            if s == [] || s[0] > 1 then None
            else if s[0] == 0 then Some(Read(None, s[1..]))
            else
              var r := c.decode(s[1..]);
              if r.None? then None else Some(Read(Some(r.value.value), r.value.rest)),
          (v: Option<T>) => v.Some? ==> c.carries(v.value), (v: Option<T>) => v.Some? ==> c.fits(v.value))
  }

  lemma MaybeRoundTrips<T(!new)>(c: Codec<T>)
    requires RoundTrips(c)
    ensures RoundTrips(Maybe(c))
  {
    var m := Maybe(c);
    forall v: Option<T>, tail | m.carries(v)
      ensures m.decode(m.encode(v) + tail) == if m.fits(v) then Some(Read(v, tail)) else None
    {
      if v.Some? { SomeRead(c, v.value, tail); } else { assert ([0] + tail)[1..] == tail; }
    }
  }

  lemma SomeRead<T(!new)>(c: Codec<T>, x: T, tail: seq<Byte>)
    requires RoundTrips(c) && c.carries(x)
    ensures Maybe(c).decode(Maybe(c).encode(Some(x)) + tail) ==
            if c.fits(x) then Some(Read(Some(x), tail)) else None
  {
    var s := Maybe(c).encode(Some(x)) + tail;
    assert s[0] == 1 && s[1..] == c.encode(x) + tail;
  }

  /** One byte, 0 or 1. */
  function Flag(): Codec<bool> {
    Via(Word(1), (n: nat) => n == 1, (b: bool) => if b then 1 else 0, (n: nat) => n <= 1)
  }

  lemma FlagLawful()
    ensures Lawful(Flag()) && forall b :: Flag().carries(b) && Flag().fits(b)
  {
    WordLawful(1);
    ViaLawful(Word(1), (n: nat) => n == 1, (b: bool) => if b then 1 else 0, (n: nat) => n <= 1);
  }
}
