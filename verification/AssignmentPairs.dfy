/** Bucket maps on disk: explicit (bucket, owner) pairs, so that duplicates, gaps and strays are all detectable. */
module AssignmentPairs {
  import opened Prelude
  import opened Bytes

  const ABSOLUTE_MAX_BUCKETS: nat := 0x100000

  datatype Pair = Pair(bucket: U32, owner: Id)

  function PairBytes(p: Pair): (s: seq<Byte>)
    ensures |s| == 20
  {
    LittleEndian(p.bucket, 4) + IdBytes(p.owner)
  }

  function AllBytes(pairs: seq<Pair>): seq<Byte> {
    if pairs == [] then [] else PairBytes(pairs[0]) + AllBytes(pairs[1..])
  }

  /** The pairs of a map in ascending bucket order, as they are written. */
  function PairsOf(owners: seq<Id>): (pairs: seq<Pair>)
    requires |owners| < 0x1_00000000
    ensures |pairs| == |owners|
  {
    seq(|owners|, b requires 0 <= b < |owners| => Pair(b, owners[b]))
  }

  function EncodePairs(owners: seq<Id>): seq<Byte>
    requires |owners| < 0x1_00000000
  {
    LittleEndian(|owners|, 4) + (LittleEndian(|owners|, 4) + AllBytes(PairsOf(owners)))
  }

  // ----- Reading -----

  function TakeWord(s: seq<Byte>): Option<Read<U32>> {
    if |s| < 4 then None
    else
      Limit64();
      BytesOfValue(s[..4]);
      Some(Read(Value(s[..4]), s[4..]))
  }

  function TakePair(s: seq<Byte>): Option<Read<Pair>> {
    if |s| < 20 then None
    else
      Limit64();
      BytesOfValue(s[..4]);
      Some(Read(Pair(Value(s[..4]), IdOf(s[4..20])), s[20..]))
  }

  function TakePairs(s: seq<Byte>, n: nat): Option<Read<seq<Pair>>> {
    if n == 0 then Some(Read([], s))
    else
      var first := TakePair(s);
      if first.None? then None
      else
        var others := TakePairs(first.value.rest, n - 1);
        if others.None? then None
        else Some(Read([first.value.value] + others.value.value, others.value.rest))
  }

  predicate Repeats(pairs: seq<Pair>, i: nat)
    requires i < |pairs|
  {
    exists j :: 0 <= j < i && pairs[j].bucket == pairs[i].bucket
  }

  /** Every pair names a bucket of the map, each bucket once, and an owner that is nil or known. */
  predicate Sound(pairs: seq<Pair>, count: nat, known: set<Id>) {
    forall i :: 0 <= i < |pairs| ==>
      pairs[i].bucket < count && !Repeats(pairs, i) && (pairs[i].owner == NIL || pairs[i].owner in known)
  }

  /** The map the first pairs describe; buckets not named yet are nil. */
  function Assembled(pairs: seq<Pair>, count: nat): (owners: seq<Id>)
    ensures |owners| == count
  {
    if pairs == [] then seq(count, _ => NIL)
    else
      var last := pairs[|pairs| - 1];
      var before := Assembled(pairs[..|pairs| - 1], count);
      if last.bucket < count then before[last.bucket := last.owner] else before
  }

  function DecodePairs(s: seq<Byte>, maxBuckets: nat, known: set<Id>): Option<Read<seq<Id>>> {
    var count := TakeWord(s);
    if count.None? then None
    else
      var entries := TakeWord(count.value.rest);
      if entries.None? then None
      else
        var n := count.value.value;
        if n == 0 || n > ABSOLUTE_MAX_BUCKETS || n > maxBuckets || entries.value.value != n then None
        else
          var pairs := TakePairs(entries.value.rest, n);
          if pairs.None? || !Sound(pairs.value.value, n, known) then None
          else Some(Read(Assembled(pairs.value.value, n), pairs.value.rest))
  }

  lemma TakeWordOf(n: U32, rest: seq<Byte>)
    ensures TakeWord(LittleEndian(n, 4) + rest) == Some(Read(n, rest))
  {
    Limit64();
    ValueOfBytes(n, 4);
    var s := LittleEndian(n, 4) + rest;
    assert s[..4] == LittleEndian(n, 4) && s[4..] == rest;
  }

  lemma TakePairOf(p: Pair, rest: seq<Byte>)
    ensures TakePair(PairBytes(p) + rest) == Some(Read(p, rest))
  {
    Limit64();
    ValueOfBytes(p.bucket, 4);
    IdRoundTrip(p.owner);
    var s := PairBytes(p) + rest;
    assert s[..4] == LittleEndian(p.bucket, 4) && s[4..20] == IdBytes(p.owner) && s[20..] == rest;
  }

  lemma {:induction false} TakePairsOf(pairs: seq<Pair>, rest: seq<Byte>)
    ensures TakePairs(AllBytes(pairs) + rest, |pairs|) == Some(Read(pairs, rest))
  {
    if pairs == [] {
      assert AllBytes(pairs) + rest == rest;
    } else {
      assert AllBytes(pairs) + rest == PairBytes(pairs[0]) + (AllBytes(pairs[1..]) + rest);
      TakePairOf(pairs[0], AllBytes(pairs[1..]) + rest);
      TakePairsOf(pairs[1..], rest);
      assert pairs == [pairs[0]] + pairs[1..];
    }
  }

  // ----- What is accepted -----

  /** The pairs name every bucket of the map exactly once, in whatever order. */
  ghost predicate Describes(pairs: seq<Pair>, owners: seq<Id>) {
    && |pairs| == |owners| < 0x1_00000000
    && (forall i :: 0 <= i < |pairs| ==> pairs[i].bucket < |owners| && owners[pairs[i].bucket] == pairs[i].owner)
    && (forall i, j :: 0 <= i < j < |pairs| ==> pairs[i].bucket != pairs[j].bucket)
  }

  lemma PairsDescribe(owners: seq<Id>)
    requires |owners| < 0x1_00000000
    ensures Describes(PairsOf(owners), owners)
  {
  }

  /** After the first n pairs, the named buckets have their owners and the others are still nil. */
  lemma {:induction false} AssembledAt(pairs: seq<Pair>, owners: seq<Id>, n: nat, b: nat)
    requires Describes(pairs, owners) && n <= |pairs| && b < |owners|
    ensures Assembled(pairs[..n], |owners|)[b] ==
            if exists i :: 0 <= i < n && pairs[i].bucket == b then owners[b] else NIL
  {
    if n > 0 {
      assert pairs[..n][..n - 1] == pairs[..n - 1];
      AssembledAt(pairs, owners, n - 1, b);
      assert pairs[..n][n - 1] == pairs[n - 1];
    }
  }

  predicate NamesBucket(pairs: seq<Pair>, b: nat) {
    exists i :: 0 <= i < |pairs| && pairs[i].bucket == b
  }

  function BucketSet(pairs: seq<Pair>): set<int> {
    if pairs == [] then {} else BucketSet(pairs[..|pairs| - 1]) + {pairs[|pairs| - 1].bucket}
  }

  function Below(n: nat): set<int> {
    if n == 0 then {} else Below(n - 1) + {n - 1}
  }

  lemma {:induction false} BelowFacts(n: nat, x: int)
    ensures |Below(n)| == n && (x in Below(n) <==> 0 <= x < n)
  {
    if n > 0 {
      BelowFacts(n - 1, x);
      BelowFacts(n - 1, n - 1);
    }
  }

  lemma {:induction false} BucketSetFacts(pairs: seq<Pair>, x: int)
    requires forall i, j :: 0 <= i < j < |pairs| ==> pairs[i].bucket != pairs[j].bucket
    ensures |BucketSet(pairs)| == |pairs|
    ensures x in BucketSet(pairs) <==> x >= 0 && NamesBucket(pairs, x)
  {
    if pairs != [] {
      var n := |pairs| - 1;
      BucketSetFacts(pairs[..n], x);
      BucketSetFacts(pairs[..n], pairs[n].bucket);
      if x >= 0 && NamesBucket(pairs[..n], x) {
        var i :| 0 <= i < n && pairs[..n][i].bucket == x;
        assert pairs[i].bucket == x;
      }
      if x >= 0 && NamesBucket(pairs, x) {
        var i :| 0 <= i < |pairs| && pairs[i].bucket == x;
        if i < n { assert pairs[..n][i].bucket == x; }
      }
    }
  }

  lemma SubsetOfSameSize<T>(a: set<T>, b: set<T>, x: T)
    requires a <= b && |a| == |b| && x in b
    ensures x in a
  {
    if x !in a { SubsetSize(a, b - {x}); }
  }

  lemma {:induction false} SubsetSize<T>(a: set<T>, b: set<T>)
    requires a <= b
    ensures |a| <= |b|
  {
    if a != {} {
      var x :| x in a;
      SubsetSize(a - {x}, b - {x});
    }
  }

  /** As many distinct buckets as there are: none is left out. */
  lemma AllNamed(pairs: seq<Pair>, owners: seq<Id>, b: nat)
    requires Describes(pairs, owners) && b < |owners|
    ensures NamesBucket(pairs, b)
  {
    forall x | x in BucketSet(pairs) ensures x in Below(|owners|) {
      BucketSetFacts(pairs, x);
      BelowFacts(|owners|, x);
    }
    BucketSetFacts(pairs, b);
    BelowFacts(|owners|, b);
    SubsetOfSameSize(BucketSet(pairs), Below(|owners|), b);
  }

  lemma AssembledIs(pairs: seq<Pair>, owners: seq<Id>)
    requires Describes(pairs, owners)
    ensures Assembled(pairs, |owners|) == owners
  {
    assert pairs[..|pairs|] == pairs;
    forall b | 0 <= b < |owners| ensures Assembled(pairs, |owners|)[b] == owners[b] {
      AllNamed(pairs, owners, b);
      AssembledAt(pairs, owners, |pairs|, b);
    }
  }

  predicate OwnersKnownIn(owners: seq<Id>, known: set<Id>) {
    forall b :: 0 <= b < |owners| ==> owners[b] == NIL || owners[b] in known
  }

  lemma DescribedIsSound(pairs: seq<Pair>, owners: seq<Id>, known: set<Id>)
    requires Describes(pairs, owners)
    ensures Sound(pairs, |owners|, known) <==> OwnersKnownIn(owners, known)
  {
    if Sound(pairs, |owners|, known) {
      forall b | 0 <= b < |owners| ensures owners[b] == NIL || owners[b] in known {
        AllNamed(pairs, owners, b);
        var i :| 0 <= i < |pairs| && pairs[i].bucket == b;
      }
    }
  }

  /** The bytes of a map whose pairs come in the given order. */
  function FramedPairs(pairs: seq<Pair>): seq<Byte>
    requires |pairs| < 0x1_00000000
  {
    LittleEndian(|pairs|, 4) + (LittleEndian(|pairs|, 4) + AllBytes(pairs))
  }

  /** A written map is read back exactly, whatever order its pairs come in; it is refused exactly when it is empty or too
      large or names an owner that is not known. */
  lemma PairsRoundTrip(pairs: seq<Pair>, owners: seq<Id>, maxBuckets: nat, known: set<Id>, tail: seq<Byte>)
    requires Describes(pairs, owners)
    ensures DecodePairs(FramedPairs(pairs) + tail, maxBuckets, known) ==
            if 0 < |owners| <= ABSOLUTE_MAX_BUCKETS && |owners| <= maxBuckets && OwnersKnownIn(owners, known)
            then Some(Read(owners, tail)) else None
  {
    var n := |pairs|;
    var body := AllBytes(pairs) + tail;
    assert FramedPairs(pairs) + tail == LittleEndian(n, 4) + (LittleEndian(n, 4) + body);
    hide LittleEndian, AllBytes, TakePairs, TakeWord, Sound, Assembled;
    TakeWordOf(n, LittleEndian(n, 4) + body);
    TakeWordOf(n, body);
    TakePairsOf(pairs, tail);
    DescribedIsSound(pairs, owners, known);
    AssembledIs(pairs, owners);
  }

  // ----- Nothing else is accepted -----

  lemma TakeWordStrict(s: seq<Byte>)
    requires TakeWord(s).Some?
    ensures var r := TakeWord(s).value; s == LittleEndian(r.value, 4) + r.rest
  {
    BytesOfValue(s[..4]);
    assert s == s[..4] + s[4..];
  }

  lemma TakePairStrict(s: seq<Byte>)
    requires TakePair(s).Some?
    ensures var r := TakePair(s).value; s == PairBytes(r.value) + r.rest
  {
    BytesOfValue(s[..4]);
    IdStrict(s[4..20]);
    assert s == s[..4] + s[4..20] + s[20..];
  }

  lemma {:induction false} TakePairsStrict(s: seq<Byte>, n: nat)
    requires TakePairs(s, n).Some?
    ensures var r := TakePairs(s, n).value; |r.value| == n && s == AllBytes(r.value) + r.rest
  {
    if n > 0 {
      var first := TakePair(s).value;
      TakePairStrict(s);
      TakePairsStrict(first.rest, n - 1);
      var others := TakePairs(first.rest, n - 1).value;
      PrependPair(first.value, others.value, others.rest);
    } else {
      assert s == [] + s;
    }
  }

  lemma PrependPair(p: Pair, others: seq<Pair>, rest: seq<Byte>)
    ensures AllBytes([p] + others) + rest == PairBytes(p) + (AllBytes(others) + rest)
  {
    AllBytesFirst(p, others);
    hide AllBytes, PairBytes;
  }

  lemma AllBytesFirst(p: Pair, others: seq<Pair>)
    ensures AllBytes([p] + others) == PairBytes(p) + AllBytes(others)
  {
    assert ([p] + others)[1..] == others;
  }

  /** Sound pairs, as many as there are buckets, describe the map they assemble. */
  lemma SoundDescribes(pairs: seq<Pair>, count: nat, known: set<Id>)
    requires Sound(pairs, count, known) && |pairs| == count < 0x1_00000000
    ensures Describes(pairs, Assembled(pairs, count)) && OwnersKnownIn(Assembled(pairs, count), known)
  {
    forall i, j | 0 <= i < j < |pairs| ensures pairs[i].bucket != pairs[j].bucket {
      assert !Repeats(pairs, j);
    }
    forall i | 0 <= i < |pairs| ensures Assembled(pairs, count)[pairs[i].bucket] == pairs[i].owner {
      assert pairs[..|pairs|] == pairs;
      AssembledOwner(pairs, count, |pairs|, i);
    }
    DescribedIsSound(pairs, Assembled(pairs, count), known);
  }

  lemma {:induction false} AssembledOwner(pairs: seq<Pair>, count: nat, n: nat, i: nat)
    requires forall j, k :: 0 <= j < k < |pairs| ==> pairs[j].bucket != pairs[k].bucket
    requires i < n <= |pairs| && forall k :: 0 <= k < |pairs| ==> pairs[k].bucket < count
    ensures Assembled(pairs[..n], count)[pairs[i].bucket] == pairs[i].owner
  {
    assert pairs[..n][..n - 1] == pairs[..n - 1] && pairs[..n][n - 1] == pairs[n - 1];
    if i < n - 1 { AssembledOwner(pairs, count, n - 1, i); }
  }

  /** Whatever is accepted is the written form of the decoded map, up to the order of its pairs. */
  lemma AcceptedIsDescribed(s: seq<Byte>, maxBuckets: nat, known: set<Id>) returns (pairs: seq<Pair>)
    requires DecodePairs(s, maxBuckets, known).Some?
    ensures var r := DecodePairs(s, maxBuckets, known).value;
            && Describes(pairs, r.value) && OwnersKnownIn(r.value, known)
            && 0 < |r.value| <= ABSOLUTE_MAX_BUCKETS && |r.value| <= maxBuckets && s == FramedPairs(pairs) + r.rest
  {
    var count := TakeWord(s).value;
    var entries := TakeWord(count.rest).value;
    var r := TakePairs(entries.rest, count.value).value;
    pairs := r.value;
    TakeWordStrict(s);
    TakeWordStrict(count.rest);
    TakePairsStrict(entries.rest, count.value);
    hide LittleEndian, AllBytes, TakePairs, TakeWord, Sound, Assembled;
    SoundDescribes(pairs, count.value, known);
    FramedAppend(pairs, r.rest);
  }

  lemma FramedAppend(pairs: seq<Pair>, tail: seq<Byte>)
    requires |pairs| < 0x1_00000000
    ensures FramedPairs(pairs) + tail == LittleEndian(|pairs|, 4) + (LittleEndian(|pairs|, 4) + (AllBytes(pairs) + tail))
  {
    hide LittleEndian, AllBytes;
  }

  // ----- The program's loop -----

  /** Reads one pair. */
  method ReadPair(decoder: Decoder) returns (ok: bool, pair: Pair)
    requires decoder.Valid() && !decoder.failed
    modifies decoder
    ensures decoder.Valid() && (ok ==> !decoder.failed)
    ensures TakePair(old(decoder.Rest())) == if ok then Some(Read(pair, decoder.Rest())) else None
  {
    var bucket, owner, ok';
    ok, bucket := decoder.U32Word();
    ok', owner := decoder.Fixed16();
    ok := ok && ok';
    pair := Pair(bucket, owner);
    if ok {
      assert old(decoder.Rest()) == PairBytes(pair) + decoder.Rest();
      TakePairOf(pair, decoder.Rest());
    }
  }

  method ReadWord(decoder: Decoder) returns (ok: bool, n: U32)
    requires decoder.Valid() && !decoder.failed
    modifies decoder
    ensures decoder.Valid() && (ok ==> !decoder.failed)
    ensures TakeWord(old(decoder.Rest())) == if ok then Some(Read(n, decoder.Rest())) else None
  {
    ok, n := decoder.U32Word();
    if ok { TakeWordOf(n, decoder.Rest()); }
  }

  /** What is known after reading some of the pairs: the rest of the pairs is still to come. */
  lemma TakenSoFar(s: seq<Byte>, n: nat, seen: seq<Pair>, rest: seq<Byte>, next: Pair, after: seq<Byte>)
    requires |seen| < n && TakePair(rest) == Some(Read(next, after))
    requires Continues(s, n, seen, rest)
    ensures Continues(s, n, seen + [next], after)
  {
    var more := TakePairs(after, n - |seen| - 1);
    if more.Some? { assert seen + ([next] + more.value.value) == seen + [next] + more.value.value; }
  }

  /** Reading n pairs from s means having read `seen` and reading the others from `rest`. */
  ghost predicate Continues(s: seq<Byte>, n: nat, seen: seq<Pair>, rest: seq<Byte>)
    requires |seen| <= n
  {
    var more := TakePairs(rest, n - |seen|);
    TakePairs(s, n) == if more.None? then None else Some(Read(seen + more.value.value, more.value.rest))
  }

  lemma UnsoundStays(seen: seq<Pair>, next: Pair, others: seq<Pair>, count: nat, known: set<Id>)
    requires next.bucket >= count || NamesBucket(seen, next.bucket) || (next.owner != NIL && next.owner !in known)
    ensures !Sound(seen + [next] + others, count, known)
  {
    var all := seen + [next] + others;
    assert all[|seen|] == next;
    if NamesBucket(seen, next.bucket) {
      var i :| 0 <= i < |seen| && seen[i].bucket == next.bucket;
      assert all[i].bucket == next.bucket;
      assert Repeats(all, |seen|);
    }
  }

  lemma StillSound(seen: seq<Pair>, next: Pair, count: nat, known: set<Id>)
    requires Sound(seen, count, known) && next.bucket < count && !NamesBucket(seen, next.bucket)
    requires next.owner == NIL || next.owner in known
    ensures Sound(seen + [next], count, known)
  {
    var all := seen + [next];
    forall i | 0 <= i < |all|
      ensures all[i].bucket < count && !Repeats(all, i) && (all[i].owner == NIL || all[i].owner in known)
    {
      if i < |seen| { assert Repeats(all, i) == Repeats(seen, i); }
    }
  }

  /** Reads a bucket map: two equal counts within bounds, then one pair after the other, each for a bucket not seen yet. */
  method ReadAssignmentPairs(decoder: Decoder, maxBuckets: nat, known: set<Id>) returns (ok: bool, owners: seq<Id>)
    requires decoder.Valid() && !decoder.failed
    modifies decoder
    ensures decoder.Valid()
    ensures DecodePairs(old(decoder.Rest()), maxBuckets, known) ==
            if ok then Some(Read(owners, decoder.Rest())) else None
  {
    hide TakeWord, Sound;
    owners := [];
    var count, entries;
    ok, count := ReadWord(decoder);
    if !ok { return; }
    ok, entries := ReadWord(decoder);
    if !ok { return; }
    if count == 0 || count > ABSOLUTE_MAX_BUCKETS || count > maxBuckets || entries != count { return false, []; }
    ok, owners := ReadOwners(decoder, count, known);
  }

  /** The entries themselves, with the buckets seen so far. */
  method ReadOwners(decoder: Decoder, count: U32, known: set<Id>) returns (ok: bool, owners: seq<Id>)
    requires decoder.Valid() && !decoder.failed
    modifies decoder
    ensures decoder.Valid()
    ensures var pairs := TakePairs(old(decoder.Rest()), count);
            if ok then
              pairs.Some? && Sound(pairs.value.value, count, known) &&
              owners == Assembled(pairs.value.value, count) && decoder.Rest() == pairs.value.rest
            else pairs.None? || !Sound(pairs.value.value, count, known)
  {
    hide Sound, Continues, TakePair, NamesBucket;
    ghost var all := decoder.Rest();
    ghost var pairs: seq<Pair> := [];
    var seen: set<U32> := {};
    owners := seq(count, _ => NIL);
    NothingTaken(all, count, known);
    for index := 0 to count
      invariant decoder.Valid() && !decoder.failed && |pairs| == index
      invariant Continues(all, count, pairs, decoder.Rest()) && Sound(pairs, count, known)
      invariant owners == Assembled(pairs, count) && forall b: U32 :: b in seen <==> NamesBucket(pairs, b)
    {
      ghost var rest := decoder.Rest();
      var read, next := ReadPair(decoder);
      if !read {
        NoMorePairs(all, count, pairs, rest);
        return false, [];
      }
      TakenSoFar(all, count, pairs, rest, next, decoder.Rest());
      if next.bucket >= count || next.bucket in seen || (next.owner != NIL && next.owner !in known) {
        NeverSound(all, count, pairs, next, decoder.Rest(), known);
        return false, [];
      }
      StillSound(pairs, next, count, known);
      NamedNext(pairs, next);
      assert (pairs + [next])[..|pairs|] == pairs;
      seen := seen + {next.bucket};
      owners := owners[next.bucket := next.owner];
      pairs := pairs + [next];
    }
    AllTaken(all, count, pairs, decoder.Rest());
    ok := true;
  }

  lemma NothingTaken(s: seq<Byte>, n: nat, known: set<Id>)
    ensures Continues(s, n, [], s) && Sound([], n, known) && forall b: U32 :: !NamesBucket([], b)
  {
    var more := TakePairs(s, n);
    if more.Some? { assert [] + more.value.value == more.value.value; }
  }

  lemma NoMorePairs(s: seq<Byte>, n: nat, seen: seq<Pair>, rest: seq<Byte>)
    requires |seen| < n && Continues(s, n, seen, rest) && TakePair(rest).None?
    ensures TakePairs(s, n).None?
  {
  }

  lemma NeverSound(s: seq<Byte>, n: nat, seen: seq<Pair>, next: Pair, rest: seq<Byte>, known: set<Id>)
    requires |seen| < n && Continues(s, n, seen + [next], rest)
    requires next.bucket >= n || NamesBucket(seen, next.bucket) || (next.owner != NIL && next.owner !in known)
    ensures TakePairs(s, n).None? || !Sound(TakePairs(s, n).value.value, n, known)
  {
    var more := TakePairs(rest, n - |seen| - 1);
    if more.Some? { UnsoundStays(seen, next, more.value.value, n, known); }
  }

  lemma NamedNext(seen: seq<Pair>, next: Pair)
    ensures forall b: U32 :: NamesBucket(seen + [next], b) <==> NamesBucket(seen, b) || b == next.bucket
  {
    forall b: U32 ensures NamesBucket(seen + [next], b) <==> NamesBucket(seen, b) || b == next.bucket {
      if NamesBucket(seen, b) {
        var i :| 0 <= i < |seen| && seen[i].bucket == b;
        assert (seen + [next])[i].bucket == b;
      }
      assert (seen + [next])[|seen|] == next;
    }
  }

  lemma AllTaken(s: seq<Byte>, n: nat, seen: seq<Pair>, rest: seq<Byte>)
    requires |seen| == n && Continues(s, n, seen, rest)
    ensures TakePairs(s, n) == Some(Read(seen, rest))
  {
    assert seen + [] == seen;
  }
}
