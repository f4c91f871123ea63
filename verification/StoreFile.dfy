/** The store envelope: a tagged, versioned frame around one payload, decoded strictly. */
module StoreFile {
  import opened Prelude
  import opened Bytes

  type Tag = s: seq<Byte> | |s| == 32 witness seq(32, _ => 0)

  datatype StoreDefect =
    | NONE | EMPTY | BAD_MAGIC | BAD_VERSION | RESERVED_NOT_ZERO | TRUNCATED | TRAILING_BYTES | INTEGRITY_FAILURE
    | PAYLOAD_TOO_LARGE

  const MAGIC: seq<Byte> := [0x45, 0x43, 0x4D, 0x50, 0x47, 0x4F, 0x56, 0x01]
  const FORMAT_VERSION: U32 := 1
  const HEADER_BYTES: nat := 28
  const TAG_BYTES: nat := 32

  /** The part of the header that is the same in every file: magic, version, reserved word. */
  function Prefix(): (s: seq<Byte>)
    ensures |s| == 16
  {
    MAGIC + (LittleEndian(FORMAT_VERSION, 4) + LittleEndian(0, 4))
  }

  /** The part that varies: epoch and payload length. */
  function Lengths(epoch: U64, length: nat): (s: seq<Byte>)
    ensures |s| == 12
  {
    LittleEndian(epoch, 8) + LittleEndian(length, 4)
  }

  /** What the tag covers. */
  function SignedRegion(epoch: U64, payload: seq<Byte>): (s: seq<Byte>)
    ensures |s| == HEADER_BYTES + |payload|
  {
    Prefix() + (Lengths(epoch, |payload|) + payload)
  }

  /** A complete store file, for whatever tag function. */
  function StoreImage(epoch: U64, payload: seq<Byte>, tag: seq<Byte> -> Tag): (s: seq<Byte>)
    ensures |s| == HEADER_BYTES + |payload| + TAG_BYTES
  {
    SignedRegion(epoch, payload) + tag(SignedRegion(epoch, payload))
  }

  lemma Regroup(m: seq<Byte>, v: seq<Byte>, z: seq<Byte>, e: seq<Byte>, n: seq<Byte>, p: seq<Byte>)
    ensures [] + m + v + z + e + n + p == (m + (v + z)) + ((e + n) + p)
  {
    assert [] + m == m;
    Assoc(m, v, z);
    Assoc(m + (v + z), e, n);
    Assoc(m + (v + z), e + n, p);
  }

  method EncodeStoreFile(epoch: U64, payload: seq<Byte>, tag: seq<Byte> -> Tag) returns (image: seq<Byte>)
    ensures image == StoreImage(epoch, payload, tag)
  {
    var encoder := new Encoder(65536);
    encoder.Raw(MAGIC);
    encoder.U32Word(FORMAT_VERSION);
    encoder.U32Word(0);
    encoder.U64Word(epoch);
    encoder.Word(|payload|, 4);
    encoder.Raw(payload);
    Regroup(MAGIC, LittleEndian(FORMAT_VERSION, 4), LittleEndian(0, 4), LittleEndian(epoch, 8),
            LittleEndian(|payload|, 4), payload);
    encoder.Raw(tag(encoder.data));
    image := encoder.data;
  }

  /** Cutting the same bytes at the same place gives the same parts. */
  lemma SameCut(a: seq<Byte>, x: seq<Byte>, b: seq<Byte>, y: seq<Byte>)
    requires a + x == b + y && |a| == |b|
    ensures a == b && x == y
  {
    assert a == (a + x)[..|a|] && b == (b + y)[..|b|];
    assert x == (a + x)[|a|..] && y == (b + y)[|b|..];
  }

  lemma SameNumber(n: nat, m: nat, k: nat)
    requires LittleEndian(n, k) == LittleEndian(m, k) && n < Power256(k) && m < Power256(k)
    ensures n == m
  {
    ValueOfBytes(n, k);
    ValueOfBytes(m, k);
  }

  /** A header names its epoch and its payload length. */
  lemma HeaderUnique(epoch: U64, epoch': U64, n: nat, n': nat)
    requires n < 0x1_00000000 && n' < 0x1_00000000
    requires Lengths(epoch, n) == Lengths(epoch', n')
    ensures epoch == epoch' && n == n'
  {
    Limit64();
    SameCut(LittleEndian(epoch, 8), LittleEndian(n, 4), LittleEndian(epoch', 8), LittleEndian(n', 4));
    SameNumber(epoch, epoch', 8);
    SameNumber(n, n', 4);
  }

  lemma ImageParts(epoch: U64, payload: seq<Byte>, tag: seq<Byte> -> Tag)
    ensures StoreImage(epoch, payload, tag) ==
            Prefix() + (Lengths(epoch, |payload|) + (payload + tag(SignedRegion(epoch, payload))))
  {
    hide Prefix, Lengths;
    var end: seq<Byte> := tag(SignedRegion(epoch, payload));
    Assoc(Prefix(), Lengths(epoch, |payload|) + payload, end);
    Assoc(Lengths(epoch, |payload|), payload, end);
  }

  /** Different contents never share a file: the epoch and the payload can be read off the image. */
  lemma ImageUnique(epoch: U64, payload: seq<Byte>, epoch': U64, payload': seq<Byte>, tag: seq<Byte> -> Tag)
    requires |payload| < 0x1_00000000 && |payload'| < 0x1_00000000
    requires StoreImage(epoch, payload, tag) == StoreImage(epoch', payload', tag)
    ensures epoch == epoch' && payload == payload'
  {
    ImageParts(epoch, payload, tag);
    ImageParts(epoch', payload', tag);
    var head, head' := Lengths(epoch, |payload|), Lengths(epoch', |payload'|);
    var tail, tail' := payload + tag(SignedRegion(epoch, payload)), payload' + tag(SignedRegion(epoch', payload'));
    hide LittleEndian, StoreImage, SignedRegion, Prefix;
    SameCut(Prefix(), head + tail, Prefix(), head' + tail');
    SameCut(head, tail, head', tail');
    HeaderUnique(epoch, epoch', |payload|, |payload'|);
    SameCut(payload, tag(SignedRegion(epoch, payload)), payload', tag(SignedRegion(epoch', payload')));
  }

  /** Some image within the limit is exactly these bytes. */
  ghost predicate IsImage(bytes: seq<Byte>, limit: U32, tag: seq<Byte> -> Tag) {
    exists epoch: U64, payload :: |payload| <= limit && bytes == StoreImage(epoch, payload, tag)
  }

  lemma ImageStartsWithMagic(bytes: seq<Byte>, limit: U32, tag: seq<Byte> -> Tag)
    requires IsImage(bytes, limit, tag)
    ensures |bytes| >= HEADER_BYTES + TAG_BYTES && bytes[..8] == MAGIC
  {
    hide LittleEndian;
  }

  /** What the header words of an image are. */
  lemma ImageHeader(bytes: seq<Byte>, limit: U32, tag: seq<Byte> -> Tag, version: U32, reserved: U32, epoch: U64, n: U32,
                    rest: seq<Byte>)
    requires IsImage(bytes, limit, tag)
    requires bytes == MAGIC + ((LittleEndian(version, 4) + LittleEndian(reserved, 4)) + (Lengths(epoch, n) + rest))
    ensures version == FORMAT_VERSION && reserved == 0 && n <= limit && |rest| == n + TAG_BYTES
    ensures rest == rest[..n] + tag(SignedRegion(epoch, rest[..n]))
  {
    var e: U64, p :| |p| <= limit && bytes == StoreImage(e, p, tag);
    var end: seq<Byte> := tag(SignedRegion(e, p));
    ImageParts(e, p, tag);
    Limit64();
    var words := LittleEndian(version, 4) + LittleEndian(reserved, 4);
    var right := LittleEndian(FORMAT_VERSION, 4) + LittleEndian(0, 4);
    assert Prefix() == MAGIC + right;
    hide LittleEndian, StoreImage, SignedRegion, Prefix, Lengths;
    Assoc(MAGIC, right, Lengths(e, |p|) + (p + end));
    SameThreeCuts(MAGIC, words, Lengths(epoch, n), rest, MAGIC, right, Lengths(e, |p|), p + end);
    SameCut(LittleEndian(version, 4), LittleEndian(reserved, 4), LittleEndian(FORMAT_VERSION, 4), LittleEndian(0, 4));
    SameNumber(version, FORMAT_VERSION, 4);
    SameNumber(reserved, 0, 4);
    HeaderUnique(epoch, e, n, |p|);
    assert rest[..n] == p;
  }

  lemma SameThreeCuts(a: seq<Byte>, b: seq<Byte>, c: seq<Byte>, d: seq<Byte>,
                      a': seq<Byte>, b': seq<Byte>, c': seq<Byte>, d': seq<Byte>)
    requires a + (b + (c + d)) == a' + (b' + (c' + d')) && |a| == |a'| && |b| == |b'| && |c| == |c'|
    ensures a == a' && b == b' && c == c' && d == d'
  {
    SameCut(a, b + (c + d), a', b' + (c' + d'));
    SameCut(b, c + d, b', c' + d');
    SameCut(c, d, c', d');
  }

  // ----- Which defect a file has -----

  /** The number spelled by the k bytes at position `at`. */
  function Field(bytes: seq<Byte>, at: nat, k: nat): nat
    requires at + k <= |bytes|
  {
    Value(bytes[at..at + k])
  }

  /** The first defect of a file, byte position by byte position, in the order in which they are looked for. */
  function FileDefect(bytes: seq<Byte>, limit: U32, tag: seq<Byte> -> Tag): StoreDefect {
    if bytes == [] then EMPTY
    else if |bytes| < HEADER_BYTES + TAG_BYTES then TRUNCATED
    else if bytes[..8] != MAGIC then BAD_MAGIC
    else if Field(bytes, 8, 4) != FORMAT_VERSION then BAD_VERSION
    else if Field(bytes, 12, 4) != 0 then RESERVED_NOT_ZERO
    else if Field(bytes, 24, 4) > limit then PAYLOAD_TOO_LARGE
    else if |bytes| < HEADER_BYTES + Field(bytes, 24, 4) + TAG_BYTES then TRUNCATED
    else if |bytes| > HEADER_BYTES + Field(bytes, 24, 4) + TAG_BYTES then TRAILING_BYTES
    else if tag(bytes[..|bytes| - TAG_BYTES]) != bytes[|bytes| - TAG_BYTES..] then INTEGRITY_FAILURE
    else NONE
  }

  lemma FieldIs(a: seq<Byte>, n: nat, k: nat, b: seq<Byte>)
    requires n < Power256(k)
    ensures Field(a + (LittleEndian(n, k) + b), |a|, k) == n
  {
    assert (a + (LittleEndian(n, k) + b))[|a|..|a| + k] == LittleEndian(n, k);
    ValueOfBytes(n, k);
  }

  /** The words read off the header are the fields at their positions. */
  lemma HeaderFields(bytes: seq<Byte>, version: U32, reserved: U32, epoch: U64, n: U32, rest: seq<Byte>)
    requires bytes == MAGIC + ((LittleEndian(version, 4) + LittleEndian(reserved, 4)) + (Lengths(epoch, n) + rest))
    ensures |bytes| == HEADER_BYTES + |rest| && bytes[..8] == MAGIC
    ensures Field(bytes, 8, 4) == version && Field(bytes, 12, 4) == reserved && Field(bytes, 24, 4) == n
  {
    Limit64();
    hide LittleEndian, Value, Field;
    var v, z, e, l := LittleEndian(version, 4), LittleEndian(reserved, 4), LittleEndian(epoch, 8), LittleEndian(n, 4);
    assert bytes == MAGIC + (v + (z + (Lengths(epoch, n) + rest)));
    FieldIs(MAGIC, version, 4, z + (Lengths(epoch, n) + rest));
    assert bytes == (MAGIC + v) + (z + (Lengths(epoch, n) + rest));
    FieldIs(MAGIC + v, reserved, 4, Lengths(epoch, n) + rest);
    assert bytes == (MAGIC + v + z + e) + (l + rest);
    FieldIs(MAGIC + v + z + e, n, 4, rest);
  }

  /** The tag covers everything before it. */
  lemma SignedPart(bytes: seq<Byte>, epoch: U64, n: U32, rest: seq<Byte>)
    requires bytes == MAGIC + ((LittleEndian(FORMAT_VERSION, 4) + LittleEndian(0, 4)) + (Lengths(epoch, n) + rest))
    requires |rest| == n + TAG_BYTES
    ensures bytes[..|bytes| - TAG_BYTES] == SignedRegion(epoch, rest[..n]) && bytes[|bytes| - TAG_BYTES..] == rest[n..]
  {
    hide LittleEndian, Lengths;
    assert bytes == Prefix() + (Lengths(epoch, n) + (rest[..n] + rest[n..])) by { assert rest == rest[..n] + rest[n..]; }
    assert bytes == SignedRegion(epoch, rest[..n]) + rest[n..];
  }

  /** Reads the magic byte by byte. */
  method ReadMagic(decoder: Decoder) returns (ok: bool)
    requires decoder.Valid() && !decoder.failed && |decoder.Rest()| >= 8
    modifies decoder
    ensures decoder.Valid() && (ok <==> old(decoder.Rest())[..8] == MAGIC)
    ensures ok ==> !decoder.failed && old(decoder.Rest()) == MAGIC + decoder.Rest()
  {
    ghost var all := decoder.Rest();
    for i := 0 to 8
      invariant decoder.Valid() && !decoder.failed && |all| >= 8
      invariant all[..i] == MAGIC[..i] && decoder.Rest() == all[i..]
    {
      var read, actual := decoder.U8();
      assert actual == all[i] && decoder.Rest() == all[i + 1..];
      if actual != MAGIC[i] { return false; }
      assert all[..i + 1] == all[..i] + [all[i]] && MAGIC[..i + 1] == MAGIC[..i] + [MAGIC[i]];
    }
    assert all == all[..8] + all[8..];
    ok := true;
  }

  /** Reads the four words behind the magic. */
  method ReadWords(decoder: Decoder) returns (ok: bool, version: U32, reserved: U32, epoch: U64, n: U32)
    requires decoder.Valid() && !decoder.failed
    modifies decoder
    ensures decoder.Valid() && (ok <==> |old(decoder.Rest())| >= 20)
    ensures ok ==> old(decoder.Rest()) ==
                   (LittleEndian(version, 4) + LittleEndian(reserved, 4)) + (Lengths(epoch, n) + decoder.Rest())
  {
    hide LittleEndian;
    ghost var all := decoder.Rest();
    var ok1, ok2, ok3, ok4;
    ok1, version := decoder.U32Word();
    ok2, reserved := decoder.U32Word();
    ok3, epoch := decoder.U64Word();
    ok4, n := decoder.U32Word();
    ok := ok1 && ok2 && ok3 && ok4;
    if ok {
      var v, z, e, l := LittleEndian(version, 4), LittleEndian(reserved, 4), LittleEndian(epoch, 8), LittleEndian(n, 4);
      assert all == v + (z + (e + (l + decoder.Rest())));
      Assoc(e, l, decoder.Rest());
      Assoc(v, z, (e + l) + decoder.Rest());
    }
  }

  /** Decodes a file strictly: it is accepted exactly when it is an image within the limit, and then it is the image of
      what was decoded; otherwise the defect is the first one in the file. */
  method DecodeStoreFile(bytes: seq<Byte>, limit: U32, tag: seq<Byte> -> Tag)
    returns (defect: StoreDefect, epoch: U64, payload: seq<Byte>)
    ensures defect == FileDefect(bytes, limit, tag) && (defect == NONE <==> IsImage(bytes, limit, tag))
    ensures defect == NONE ==> |payload| <= limit && bytes == StoreImage(epoch, payload, tag)
  {
    hide LittleEndian, StoreImage, IsImage, Lengths, SignedRegion, Field;
    epoch, payload := 0, [];
    if IsImage(bytes, limit, tag) { ImageStartsWithMagic(bytes, limit, tag); }
    if bytes == [] { return EMPTY, epoch, payload; }
    if |bytes| < HEADER_BYTES + TAG_BYTES { return TRUNCATED, epoch, payload; }
    var decoder := new Decoder(bytes, limit);
    var ok := ReadMagic(decoder);
    if !ok { return BAD_MAGIC, epoch, payload; }
    var version, reserved, n;
    ok, version, reserved, epoch, n := ReadWords(decoder);
    if !ok { return TRUNCATED, epoch, payload; }
    defect, payload := CheckBody(bytes, limit, tag, version, reserved, epoch, n, decoder.Rest());
  }

  /** The checks behind the header: version, reserved word, size, tag. */
  method CheckBody(bytes: seq<Byte>, limit: U32, tag: seq<Byte> -> Tag, version: U32, reserved: U32, epoch: U64, n: U32,
                   rest: seq<Byte>)
    returns (defect: StoreDefect, payload: seq<Byte>)
    requires bytes == MAGIC + ((LittleEndian(version, 4) + LittleEndian(reserved, 4)) + (Lengths(epoch, n) + rest))
    requires |bytes| >= HEADER_BYTES + TAG_BYTES
    ensures defect == FileDefect(bytes, limit, tag) && (defect == NONE <==> IsImage(bytes, limit, tag))
    ensures defect == NONE ==> |payload| <= limit && bytes == StoreImage(epoch, payload, tag)
  {
    hide LittleEndian, StoreImage, IsImage, Lengths, SignedRegion, Field;
    payload := [];
    HeaderFields(bytes, version, reserved, epoch, n, rest);
    if IsImage(bytes, limit, tag) { ImageHeader(bytes, limit, tag, version, reserved, epoch, n, rest); }
    if version != FORMAT_VERSION { return BAD_VERSION, payload; }
    if reserved != 0 { return RESERVED_NOT_ZERO, payload; }
    if n > limit { return PAYLOAD_TOO_LARGE, payload; }
    if |rest| < n + TAG_BYTES { return TRUNCATED, payload; }
    if |rest| > n + TAG_BYTES { return TRAILING_BYTES, payload; }
    SignedPart(bytes, epoch, n, rest);
    if tag(SignedRegion(epoch, rest[..n])) != rest[n..] { return INTEGRITY_FAILURE, payload; }
    payload := rest[..n];
    ImageFrom(bytes, limit, tag, epoch, payload, rest);
    defect := NONE;
  }

  lemma ImageFrom(bytes: seq<Byte>, limit: U32, tag: seq<Byte> -> Tag, epoch: U64, payload: seq<Byte>, rest: seq<Byte>)
    requires bytes ==
             MAGIC + ((LittleEndian(FORMAT_VERSION, 4) + LittleEndian(0, 4)) + (Lengths(epoch, |payload|) + rest))
    requires |payload| <= limit && rest == payload + tag(SignedRegion(epoch, payload))
    ensures bytes == StoreImage(epoch, payload, tag) && IsImage(bytes, limit, tag)
  {
    var right := LittleEndian(FORMAT_VERSION, 4) + LittleEndian(0, 4);
    assert Prefix() == MAGIC + right;
    hide LittleEndian, SignedRegion, Prefix, Lengths, StoreImage;
    Assoc(MAGIC, right, Lengths(epoch, |payload|) + rest);
    ImageParts(epoch, payload, tag);
  }

  /** The image of an epoch and a payload is one that its reader accepts exactly when the payload is within the limit. */
  lemma AcceptedExactly(epoch: U64, payload: seq<Byte>, limit: U32, tag: seq<Byte> -> Tag)
    requires |payload| < 0x1_00000000
    ensures IsImage(StoreImage(epoch, payload, tag), limit, tag) <==> |payload| <= limit
  {
    hide StoreImage;
    var bytes := StoreImage(epoch, payload, tag);
    if IsImage(bytes, limit, tag) {
      var e: U64, p :| |p| <= limit && bytes == StoreImage(e, p, tag);
      ImageUnique(epoch, payload, e, p, tag);
    }
  }
}
