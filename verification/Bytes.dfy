/** Little-endian encoding and strict, latching decoding of bytes. */
module Bytes {
  import opened Prelude

  type Byte = n: nat | n < 256

  /** A value read off the front of some bytes, and the bytes behind it. */
  datatype Read<+T> = Read(value: T, rest: seq<Byte>)

  lemma Assoc(a: seq<Byte>, b: seq<Byte>, c: seq<Byte>)
    ensures (a + b) + c == a + (b + c)
  {
  }

  function Power256(k: nat): (p: nat)
    ensures p > 0
  {
    if k == 0 then 1 else 256 * Power256(k - 1)
  }

  /** The k low bytes of n, least significant first. */
  function LittleEndian(n: nat, k: nat): (s: seq<Byte>)
    ensures |s| == k
  {
    if k == 0 then [] else [n % 256] + LittleEndian(n / 256, k - 1)
  }

  function Value(s: seq<Byte>): nat {
    if s == [] then 0 else s[0] + 256 * Value(s[1..])
  }

  /** A number that fits is recovered from its bytes. */
  lemma {:induction false} ValueOfBytes(n: nat, k: nat)
    requires n < Power256(k)
    ensures Value(LittleEndian(n, k)) == n
  {
    if k > 0 {
      assert n / 256 < Power256(k - 1);
      ValueOfBytes(n / 256, k - 1);
      assert LittleEndian(n, k)[1..] == LittleEndian(n / 256, k - 1);
    }
  }

  /** Bytes are recovered from the number they spell, which fits. */
  lemma {:induction false} BytesOfValue(s: seq<Byte>)
    ensures Value(s) < Power256(|s|) && LittleEndian(Value(s), |s|) == s
  {
    if s != [] {
      BytesOfValue(s[1..]);
      assert Value(s) % 256 == s[0] && Value(s) / 256 == Value(s[1..]);
      assert s == [s[0]] + s[1..];
    }
  }

  /** The bytes of a two's complement 64-bit number. */
  function Unsigned(v: I64): U64 { if v < 0 then v + 0x1_00000000_00000000 else v }

  function Signed(u: U64): I64 { if u < 0x80000000_00000000 then u else u - 0x1_00000000_00000000 }

  function Reversed(s: seq<Byte>): (r: seq<Byte>)
    ensures |r| == |s|
  {
    seq(|s|, i requires 0 <= i < |s| => s[|s| - 1 - i])
  }

  lemma ReversedTwice(s: seq<Byte>)
    ensures Reversed(Reversed(s)) == s
  {
  }

  /** The sixteen bytes of an identity, most significant first. */
  function IdBytes(id: Id): (s: seq<Byte>)
    ensures |s| == 16
  {
    Reversed(LittleEndian(id, 16))
  }

  lemma Limit128()
    ensures Power256(16) == ID_LIMIT
  {
    assert Power256(4) == 0x1_00000000;
    assert Power256(8) == 0x1_00000000_00000000;
    assert Power256(12) == 0x1_00000000_00000000_00000000;
  }

  lemma Limit64()
    ensures Power256(4) == 0x1_00000000 && Power256(8) == 0x1_00000000_00000000
  {
    assert Power256(4) == 0x1_00000000;
  }

  function IdOf(s: seq<Byte>): Id
    requires |s| == 16
  {
    Limit128();
    BytesOfValue(Reversed(s));
    Value(Reversed(s))
  }

  lemma IdRoundTrip(id: Id)
    ensures IdOf(IdBytes(id)) == id
  {
    Limit128();
    ReversedTwice(LittleEndian(id, 16));
    ValueOfBytes(id, 16);
  }

  lemma IdStrict(s: seq<Byte>)
    requires |s| == 16
    ensures IdBytes(IdOf(s)) == s
  {
    BytesOfValue(Reversed(s));
    ReversedTwice(s);
  }

  /** Appends values to a growing buffer; a blob or text over the limit latches the failure. */
  class Encoder {
    var data: seq<Byte>
    const maxBlobBytes: nat
    var failed: bool

    constructor (maxBlobBytes: nat)
      ensures data == [] && !failed && this.maxBlobBytes == maxBlobBytes
    {
      data, failed, this.maxBlobBytes := [], false, maxBlobBytes;
    }

    /** Appends k bytes of n by shifting, least significant first. */
    method Word(n: nat, k: nat)
      modifies `data
      ensures data == old(data) + LittleEndian(n, k)
    {
      var rest: nat, left: nat := n, k;
      ghost var done: seq<Byte> := [];
      while left > 0
        invariant left <= k && data == old(data) + done && done + LittleEndian(rest, left) == LittleEndian(n, k)
      {
        data := data + [rest % 256];
        done := done + [rest % 256];
        rest, left := rest / 256, left - 1;
      }
    }

    method U8(n: Byte)
      modifies `data
      ensures data == old(data) + [n]
    {
      data := data + [n];
    }

    method U32Word(n: U32)
      modifies `data
      ensures data == old(data) + LittleEndian(n, 4)
    {
      Word(n, 4);
    }

    method U64Word(n: U64)
      modifies `data
      ensures data == old(data) + LittleEndian(n, 8)
    {
      Word(n, 8);
    }

    method Boolean(b: bool)
      modifies `data
      ensures data == old(data) + [if b then 1 else 0]
    {
      U8(if b then 1 else 0);
    }

    method Raw(bytes: seq<Byte>)
      modifies `data
      ensures data == old(data) + bytes
    {
      data := data + bytes;
    }

    /** A length-prefixed blob within the limit; beyond it nothing is appended. */
    method Blob(bytes: seq<Byte>)
      modifies `data, `failed
      ensures |bytes| <= maxBlobBytes ==> data == old(data) + LittleEndian(|bytes|, 4) + bytes && failed == old(failed)
      ensures |bytes| > maxBlobBytes ==> data == old(data) && failed
    {
      if |bytes| > maxBlobBytes {
        failed := true;
        return;
      }
      Word(|bytes|, 4);
      Raw(bytes);
    }
  }

  /** Reads values off a fixed input. The first failed read latches, and every later read fails. */
  class Decoder {
    const data: seq<Byte>
    const maxBlobBytes: nat
    var position: nat
    var failed: bool

    ghost predicate Valid()
      reads this
    {
      position <= |data|
    }

    /** What is left to read. */
    function Rest(): seq<Byte>
      requires Valid()
      reads this
    {
      data[position..]
    }

    constructor (data: seq<Byte>, maxBlobBytes: nat)
      ensures Valid() && Rest() == data && !failed && this.data == data && this.maxBlobBytes == maxBlobBytes
    {
      this.data, this.maxBlobBytes, position, failed := data, maxBlobBytes, 0, false;
    }

    method Require(count: nat) returns (ok: bool)
      requires Valid()
      modifies `failed
      ensures ok <==> !old(failed) && count <= |Rest()|
      ensures failed == !ok
    {
      if failed { return false; }
      if count > |data| - position {
        failed := true;
        return false;
      }
      ok := true;
    }

    /** Reads `count` bytes, or latches. */
    method Raw(count: nat) returns (ok: bool, bytes: seq<Byte>)
      requires Valid()
      modifies `position, `failed
      ensures Valid() && failed == !ok && (ok <==> !old(failed) && count <= |old(Rest())|)
      ensures ok ==> |bytes| == count && old(Rest()) == bytes + Rest()
      ensures !ok ==> position == old(position)
    {
      ok := Require(count);
      bytes := [];
      if ok {
        bytes := data[position..position + count];
        position := position + count;
      }
    }

    method U8() returns (ok: bool, n: Byte)
      requires Valid()
      modifies `position, `failed
      ensures Valid() && failed == !ok && (ok <==> !old(failed) && 1 <= |old(Rest())|)
      ensures ok ==> old(Rest()) == [n] + Rest()
    {
      var bytes;
      ok, bytes := Raw(1);
      n := if ok then bytes[0] else 0;
    }

    /** Reads k bytes and adds them up, each shifted by its place. */
    method Word(k: nat) returns (ok: bool, n: nat)
      requires Valid()
      modifies `position, `failed
      ensures Valid() && failed == !ok && (ok <==> !old(failed) && k <= |old(Rest())|)
      ensures ok ==> n < Power256(k) && old(Rest()) == LittleEndian(n, k) + Rest()
    {
      var bytes;
      ok, bytes := Raw(k);
      n := 0;
      if !ok { return; }
      var i: nat := k;
      while i > 0
        invariant i <= k && n == Value(bytes[i..])
      {
        i := i - 1;
        n := bytes[i] + 256 * n;
        assert bytes[i..][1..] == bytes[i + 1..];
      }
      assert bytes[0..] == bytes;
      BytesOfValue(bytes);
    }

    method U32Word() returns (ok: bool, n: U32)
      requires Valid()
      modifies `position, `failed
      ensures Valid() && failed == !ok && (ok <==> !old(failed) && 4 <= |old(Rest())|)
      ensures ok ==> old(Rest()) == LittleEndian(n, 4) + Rest()
    {
      Limit64();
      var word;
      ok, word := Word(4);
      n := if ok then word else 0;
    }

    method U64Word() returns (ok: bool, n: U64)
      requires Valid()
      modifies `position, `failed
      ensures Valid() && failed == !ok && (ok <==> !old(failed) && 8 <= |old(Rest())|)
      ensures ok ==> old(Rest()) == LittleEndian(n, 8) + Rest()
    {
      Limit64();
      var word;
      ok, word := Word(8);
      n := if ok then word else 0;
    }

    /** Only 0 and 1 are booleans; any other byte latches. */
    method Boolean() returns (ok: bool, b: bool)
      requires Valid()
      modifies `position, `failed
      ensures Valid() && failed == !ok
      ensures ok <==> !old(failed) && |old(Rest())| >= 1 && old(Rest())[0] <= 1
      ensures ok ==> old(Rest()) == [if b then 1 else 0] + Rest()
    {
      var n;
      ok, n := U8();
      b := ok && n == 1;
      if ok && n > 1 {
        failed := true;
        ok := false;
      }
    }

    method Fixed16() returns (ok: bool, id: Id)
      requires Valid()
      modifies `position, `failed
      ensures Valid() && failed == !ok && (ok <==> !old(failed) && 16 <= |old(Rest())|)
      ensures ok ==> old(Rest()) == IdBytes(id) + Rest()
    {
      var bytes;
      ok, bytes := Raw(16);
      id := NIL;
      if ok {
        id := IdOf(bytes);
        IdStrict(bytes);
      }
    }

    /** The front is a length-prefixed blob within both limits. */
    predicate BlobAhead(limit: nat)
      requires Valid()
      reads this
    {
      && |Rest()| >= 4
      && var length := Value(Rest()[..4]);
         length <= limit && length <= maxBlobBytes && 4 + length <= |Rest()|
    }

    /** A length-prefixed blob, refused exactly when it is incomplete or longer than one of both limits. */
    method Blob(limit: nat) returns (ok: bool, bytes: seq<Byte>)
      requires Valid()
      modifies `position, `failed
      ensures Valid() && failed == !ok && (ok <==> !old(failed) && old(BlobAhead(limit)))
      ensures ok ==> |bytes| == Value(old(Rest())[..4]) && |bytes| < 0x1_00000000
      ensures ok ==> old(Rest()) == LittleEndian(|bytes|, 4) + bytes + Rest()
    {
      hide LittleEndian, Value;
      ghost var all := Rest();
      bytes := [];
      var length;
      ok, length := U32Word();
      if !ok { return; }
      assert all[..4] == LittleEndian(length, 4);
      Limit64();
      ValueOfBytes(length, 4);
      var effective := if limit < maxBlobBytes then limit else maxBlobBytes;
      if length > effective {
        failed := true;
        return false, [];
      }
      ok, bytes := Raw(length);
    }
  }
}
