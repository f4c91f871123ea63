/** The SHA-256 hash as FIPS 180-4 defines it: padding (section 5.1.1) and hash computation (section 6.2.2). */
module Sha256Spec {
  import Bytes

  type Byte = bv8
  type Word = bv32

  function RotateRight(x: Word, n: Word): Word
    requires 0 < n < 32
  {
    (x >> n) | (x << (32 - n))
  }

  /** Addition modulo 2^32. */
  function Plus(x: Word, y: Word): Word { x + y }

  function Choose(x: Word, y: Word, z: Word): Word { (x & y) ^ (!x & z) }

  function Majority(x: Word, y: Word, z: Word): Word { (x & y) ^ (x & z) ^ (y & z) }

  function BigSigma0(x: Word): Word { RotateRight(x, 2) ^ RotateRight(x, 13) ^ RotateRight(x, 22) }

  function BigSigma1(x: Word): Word { RotateRight(x, 6) ^ RotateRight(x, 11) ^ RotateRight(x, 25) }

  function SmallSigma0(x: Word): Word { RotateRight(x, 7) ^ RotateRight(x, 18) ^ (x >> 3) }

  function SmallSigma1(x: Word): Word { RotateRight(x, 17) ^ RotateRight(x, 19) ^ (x >> 10) }

  const INITIAL_HASH: seq<Word> := [
    0x6a09e667, 0xbb67ae85, 0x3c6ef372, 0xa54ff53a, 0x510e527f, 0x9b05688c, 0x1f83d9ab, 0x5be0cd19]

  const FIRST_CONSTANTS: seq<Word> := [
    0x428a2f98, 0x71374491, 0xb5c0fbcf, 0xe9b5dba5, 0x3956c25b, 0x59f111f1, 0x923f82a4, 0xab1c5ed5,
    0xd807aa98, 0x12835b01, 0x243185be, 0x550c7dc3, 0x72be5d74, 0x80deb1fe, 0x9bdc06a7, 0xc19bf174]

  const SECOND_CONSTANTS: seq<Word> := [
    0xe49b69c1, 0xefbe4786, 0x0fc19dc6, 0x240ca1cc, 0x2de92c6f, 0x4a7484aa, 0x5cb0a9dc, 0x76f988da,
    0x983e5152, 0xa831c66d, 0xb00327c8, 0xbf597fc7, 0xc6e00bf3, 0xd5a79147, 0x06ca6351, 0x14292967]

  const THIRD_CONSTANTS: seq<Word> := [
    0x27b70a85, 0x2e1b2138, 0x4d2c6dfc, 0x53380d13, 0x650a7354, 0x766a0abb, 0x81c2c92e, 0x92722c85,
    0xa2bfe8a1, 0xa81a664b, 0xc24b8b70, 0xc76c51a3, 0xd192e819, 0xd6990624, 0xf40e3585, 0x106aa070]

  const FOURTH_CONSTANTS: seq<Word> := [
    0x19a4c116, 0x1e376c08, 0x2748774c, 0x34b0bcb5, 0x391c0cb3, 0x4ed8aa4a, 0x5b9cca4f, 0x682e6ff3,
    0x748f82ee, 0x78a5636f, 0x84c87814, 0x8cc70208, 0x90befffa, 0xa4506ceb, 0xbef9a3f7, 0xc67178f2]

  const ROUND_CONSTANTS: seq<Word> := FIRST_CONSTANTS + SECOND_CONSTANTS + THIRD_CONSTANTS + FOURTH_CONSTANTS

  type Block = b: seq<Byte> | |b| == 64 witness seq(64, _ => 0)

  /** Four bytes as a word, the first one most significant. */
  function WordAt(block: Block, t: nat): Word
    requires t < 16
  {
    ((block[4 * t] as Word) << 24) | ((block[4 * t + 1] as Word) << 16) | ((block[4 * t + 2] as Word) << 8) |
    (block[4 * t + 3] as Word)
  }

  /** A later schedule word, from the words two, seven, fifteen and sixteen places before it. */
  function LaterWord(w2: Word, w7: Word, w15: Word, w16: Word): Word { SmallSigma1(w2) + w7 + SmallSigma0(w15) + w16 }

  /** Word t of the message schedule. */
  function Schedule(block: Block, t: nat): Word
    requires t < 64
  {
    if t < 16 then WordAt(block, t)
    else LaterWord(Schedule(block, t - 2), Schedule(block, t - 7), Schedule(block, t - 15), Schedule(block, t - 16))
  }

  /** The eight working variables. */
  datatype Working = Working(a: Word, b: Word, c: Word, d: Word, e: Word, f: Word, g: Word, h: Word)

  function T1(e: Word, f: Word, g: Word, h: Word, k: Word, w: Word): Word {
    h + BigSigma1(e) + Choose(e, f, g) + k + w
  }

  function T2(a: Word, b: Word, c: Word): Word { BigSigma0(a) + Majority(a, b, c) }

  function Round(v: Working, k: Word, w: Word): Working {
    var t1, t2 := T1(v.e, v.f, v.g, v.h, k, w), T2(v.a, v.b, v.c);
    Working(Plus(t1, t2), v.a, v.b, v.c, Plus(v.d, t1), v.e, v.f, v.g)
  }

  /** The working variables after the first t rounds. */
  function Rounds(v: Working, block: Block, t: nat): Working
    requires t <= 64
  {
    if t == 0 then v else Round(Rounds(v, block, t - 1), ROUND_CONSTANTS[t - 1], Schedule(block, t - 1))
  }

  function Add(v: Working, w: Working): Working {
    Working(Plus(v.a, w.a), Plus(v.b, w.b), Plus(v.c, w.c), Plus(v.d, w.d),
            Plus(v.e, w.e), Plus(v.f, w.f), Plus(v.g, w.g), Plus(v.h, w.h))
  }

  /** The intermediate hash value after one more block. */
  function Compress(h: Working, block: Block): Working { Add(h, Rounds(h, block, 64)) }

  lemma BlockLess(n: nat)
    requires n % 64 == 0 && n >= 64
    ensures (n - 64) % 64 == 0
  {
  }

  /** The intermediate hash value after all blocks of s, from the first to the last. */
  function HashBlocks(h: Working, s: seq<Byte>): Working
    requires |s| % 64 == 0
    decreases |s|
  {
    hide Compress;
    if |s| < 64 then h
    else
      BlockLess(|s|);
      HashBlocks(Compress(h, s[..64]), s[64..])
  }

  const H0: Working := Working(INITIAL_HASH[0], INITIAL_HASH[1], INITIAL_HASH[2], INITIAL_HASH[3], INITIAL_HASH[4],
                               INITIAL_HASH[5], INITIAL_HASH[6], INITIAL_HASH[7])

  /** The i-th of eight big-endian bytes of a 64-bit number. */
  function LengthByte(bits: nat, i: nat): Byte
    requires i < 8
  {
    (bits / Bytes.Power256(7 - i) % 256) as Byte
  }

  function LengthBytes(bits: nat): (r: seq<Byte>)
    ensures |r| == 8
  {
    seq(8, i requires 0 <= i < 8 => LengthByte(bits, i))
  }

  /** How many zero bytes follow the marker byte: the fewest that leave room for the length in the last block. */
  function ZeroBytes(length: nat): (k: nat)
    ensures (length + 1 + k) % 64 == 56 && k < 64
  {
    (119 - length % 64) % 64
  }

  /** A marker byte, zero bytes up to eight short of a block boundary, and a 64-bit length. */
  function Padded(message: seq<Byte>, bits: nat): (r: seq<Byte>)
    ensures |r| % 64 == 0
  {
    message + ([0x80] + seq(ZeroBytes(|message|), _ => 0)) + LengthBytes(bits)
  }

  lemma PaddedParts(message: seq<Byte>, padding: seq<Byte>, bits: nat)
    requires padding == [0x80] + seq(ZeroBytes(|message|), _ => 0)
    ensures Padded(message, bits) == message + padding + LengthBytes(bits)
  {
  }

  /** The padded message of section 5.1.1, for a message shorter than 2^61 bytes. */
  function PaddedMessage(message: seq<Byte>): seq<Byte> { Padded(message, 8 * |message|) }

  function WordBytes(x: Word): (r: seq<Byte>)
    ensures |r| == 4
  {
    [((x >> 24) & 0xFF) as Byte, ((x >> 16) & 0xFF) as Byte, ((x >> 8) & 0xFF) as Byte, (x & 0xFF) as Byte]
  }

  function Output(h: Working): (r: seq<Byte>)
    ensures |r| == 32
  {
    WordBytes(h.a) + WordBytes(h.b) + WordBytes(h.c) + WordBytes(h.d) + WordBytes(h.e) + WordBytes(h.f) +
    WordBytes(h.g) + WordBytes(h.h)
  }

  function Hash(message: seq<Byte>): seq<Byte> { Output(HashBlocks(H0, PaddedMessage(message))) }

  const TWO_64: nat := 0x1_00000000_00000000
  const TWO_61: nat := 0x20000000_00000000

  lemma ModAdd(a: nat, b: nat)
    ensures (a % TWO_64 + b) % TWO_64 == (a + b) % TWO_64
  {
    var q, r := a / TWO_64, (a % TWO_64 + b) % TWO_64;
    assert a + b == TWO_64 * (q + (a % TWO_64 + b) / TWO_64) + r;
  }

  lemma ModEight(a: nat)
    ensures 8 * (a % TWO_64) % TWO_64 == 8 * a % TWO_64
  {
    var q, x := a / 0x1_00000000_00000000, a % 0x1_00000000_00000000;
    var q', r := 8 * x / 0x1_00000000_00000000, 8 * x % 0x1_00000000_00000000;
    assert 8 * x == 0x1_00000000_00000000 * q' + r;
    assert 8 * a == 0x1_00000000_00000000 * (8 * q + q') + r;
  }

  /** The zero bytes, from how full the last block is. */
  lemma ZeroBytesFrom(length: nat, part: nat)
    requires part < 64 && length >= part && (length - part) % 64 == 0
    ensures ZeroBytes(length) == if part < 56 then 55 - part else 119 - part
  {
  }

  /** Hashing block by block can be cut at any block boundary. */
  lemma {:induction false} HashBlocksAppend(h: Working, a: seq<Byte>, b: seq<Byte>)
    requires |a| % 64 == 0 && |b| % 64 == 0
    ensures HashBlocks(h, a + b) == HashBlocks(HashBlocks(h, a), b)
    decreases |a|
  {
    hide Compress;
    if a == [] {
      assert a + b == b;
    } else {
      assert (a + b)[..64] == a[..64] && (a + b)[64..] == a[64..] + b;
      HashBlocksAppend(Compress(h, a[..64]), a[64..], b);
    }
  }

  lemma HashOneMore(h: Working, a: seq<Byte>, block: Block)
    requires |a| % 64 == 0
    ensures HashBlocks(h, a + block) == Compress(HashBlocks(h, a), block)
  {
    hide Compress;
    HashBlocksAppend(h, a, block);
    assert block[..64] == block && block[64..] == [];
  }
}

/** The buffered hasher: whatever the chunks, it computes the hash of their concatenation. */
module Sha256Hasher {
  import opened Sha256Spec

  lemma FirstWords(block: Block, t: nat)
    requires t < 16
    ensures Schedule(block, t) == WordAt(block, t)
  {
  }

  lemma LaterWords(block: Block, t: nat)
    requires 16 <= t < 64
    ensures Schedule(block, t) == LaterWord(Schedule(block, t - 2), Schedule(block, t - 7), Schedule(block, t - 15),
                                            Schedule(block, t - 16))
  {
    hide LaterWord;
  }

  /** The message schedule of one block. */
  method ExpandSchedule(block: Block) returns (schedule: array<Word>)
    ensures fresh(schedule) && schedule.Length == 64
    ensures forall t :: 0 <= t < 64 ==> schedule[t] == Schedule(block, t)
  {
    hide LaterWord, WordAt, Schedule;
    schedule := new Word[64](_ => 0);
    for t := 0 to 16
      invariant forall i :: 0 <= i < t ==> schedule[i] == Schedule(block, i)
    {
      FirstWords(block, t);
      schedule[t] := WordAt(block, t);
    }
    for t := 16 to 64
      invariant forall i :: 0 <= i < t ==> schedule[i] == Schedule(block, i)
    {
      LaterWords(block, t);
      schedule[t] := LaterWord(schedule[t - 2], schedule[t - 7], schedule[t - 15], schedule[t - 16]);
    }
  }

  class Sha256 {
    var state: Working
    const buffer: array<Byte>
    var bufferLength: nat
    var totalBytes: nat
    var finished: bool
    /** Everything absorbed so far. */
    ghost var absorbed: seq<Byte>

    /** State and buffer account for exactly this input. */
    ghost predicate Holds(input: seq<Byte>)
      reads `state, `bufferLength, buffer
    {
      && buffer.Length == 64 && bufferLength < 64 && bufferLength <= |input|
      && var blocks := |input| - bufferLength;
      && blocks % 64 == 0 && state == HashBlocks(H0, input[..blocks]) && buffer[..bufferLength] == input[blocks..]
    }

    ghost predicate Valid()
      reads this, buffer
    {
      Holds(absorbed) && totalBytes == |absorbed| % TWO_64
    }

    constructor ()
      ensures Valid() && fresh(buffer) && absorbed == [] && !finished
    {
      state := H0;
      buffer := new Byte[64](_ => 0);
      bufferLength, totalBytes, finished, absorbed := 0, 0, false, [];
    }

    /** The block function over the full buffer. */
    method CompressBuffer()
      requires buffer.Length == 64
      modifies `state
      ensures state == Compress(old(state), buffer[..])
    {
      hide T1, T2, Plus, Schedule;
      var block: Block := buffer[..];
      var schedule := ExpandSchedule(block);
      var a, b, c, d, e, f, g, h := state.a, state.b, state.c, state.d, state.e, state.f, state.g, state.h;
      for t := 0 to 64
        invariant Working(a, b, c, d, e, f, g, h) == Rounds(state, block, t)
      {
        var t1, t2 := T1(e, f, g, h, ROUND_CONSTANTS[t], schedule[t]), T2(a, b, c);
        h := g;
        g := f;
        f := e;
        e := Plus(d, t1);
        d := c;
        c := b;
        b := a;
        a := Plus(t1, t2);
      }
      state := Working(Plus(state.a, a), Plus(state.b, b), Plus(state.c, c), Plus(state.d, d),
                       Plus(state.e, e), Plus(state.f, f), Plus(state.g, g), Plus(state.h, h));
    }

    /** Copies `take` bytes of data, from `offset` on, behind what the buffer holds. */
    method CopyIn(data: seq<Byte>, offset: nat, take: nat)
      requires buffer.Length == 64 && bufferLength + take <= 64 && offset + take <= |data|
      modifies buffer
      ensures buffer[..bufferLength + take] == old(buffer[..bufferLength]) + data[offset..offset + take]
    {
      for i := 0 to take
        invariant buffer[..bufferLength + i] == old(buffer[..bufferLength]) + data[offset..offset + i]
      {
        buffer[bufferLength + i] := data[offset + i];
        assert buffer[..bufferLength + i + 1] == buffer[..bufferLength + i] + [data[offset + i]];
      }
    }

    /** Takes `take` more bytes into the buffer and compresses it when it is full. */
    method Absorb(data: seq<Byte>, offset: nat, take: nat, ghost input: seq<Byte>)
      requires Holds(input) && bufferLength + take <= 64 && offset + take <= |data|
      modifies `state, `bufferLength, buffer
      ensures Holds(input + data[offset..offset + take])
    {
      hide Compress, HashBlocks;
      ghost var more := data[offset..offset + take];
      ghost var blocks := |input| - bufferLength;
      CopyIn(data, offset, take);
      assert input[..blocks] + buffer[..bufferLength + take] == input + more;
      bufferLength := bufferLength + take;
      if bufferLength == 64 {
        assert buffer[..64] == buffer[..];
        HashOneMore(H0, input[..blocks], buffer[..]);
        CompressBuffer();
        bufferLength := 0;
        assert (input + more)[..|input + more|] == input[..blocks] + buffer[..];
        assert (input + more)[|input + more|..] == buffer[..0];
      } else {
        assert (input + more)[..blocks] == input[..blocks];
        assert (input + more)[blocks..] == buffer[..bufferLength];
      }
    }

    method Update(data: seq<Byte>)
      requires Valid()
      modifies this, buffer
      ensures Valid() && finished == old(finished)
      ensures absorbed == if finished then old(absorbed) else old(absorbed) + data
      ensures finished ==> state == old(state)
    {
      hide HashBlocks;
      if finished { return; }
      AbsorbAll(data);
      ModAdd(|absorbed|, |data|);
      totalBytes := (totalBytes + |data|) % TWO_64;
      absorbed := absorbed + data;
    }

    /** Feeds data through the buffer, as many bytes at a time as fit. */
    method AbsorbAll(data: seq<Byte>)
      requires Holds(absorbed)
      modifies `state, `bufferLength, buffer
      ensures Holds(absorbed + data)
    {
      hide Holds;
      var offset := 0;
      assert absorbed + data[..0] == absorbed;
      while offset < |data|
        invariant offset <= |data| && Holds(absorbed + data[..offset])
      {
        HoldsPartly(absorbed + data[..offset]);
        var take := if |data| - offset < 64 - bufferLength then |data| - offset else 64 - bufferLength;
        Absorb(data, offset, take, absorbed + data[..offset]);
        assert absorbed + data[..offset] + data[offset..offset + take] == absorbed + data[..offset + take];
        offset := offset + take;
      }
      assert data[..offset] == data;
    }

    lemma HoldsPartly(input: seq<Byte>)
      requires Holds(input)
      ensures bufferLength < 64 && buffer.Length == 64
    {
    }

    /** What finish appends before the length. */
    function PadLength(): (n: nat)
      requires bufferLength < 64
      reads this
      ensures 1 <= n <= 64
    {
      if bufferLength < 56 then 56 - bufferLength else 120 - bufferLength
    }

    lemma PadLengthIsMinimal()
      requires Holds(absorbed)
      ensures PadLength() == 1 + ZeroBytes(|absorbed|)
    {
      hide HashBlocks, ZeroBytes;
      ZeroBytesFrom(|absorbed|, bufferLength);
    }

    /** Input that ends on a block boundary is completely compressed. */
    lemma WholeBlocks()
      requires Holds(absorbed) && |absorbed| % 64 == 0
      ensures state == HashBlocks(H0, absorbed)
    {
      hide HashBlocks;
      assert bufferLength == 0;
      assert absorbed[..|absorbed|] == absorbed;
    }

    /** Appends the padding and the length of everything absorbed so far. */
    method Pad()
      requires Valid() && !finished
      modifies this, buffer
      ensures Valid() && !finished && absorbed == Padded(old(absorbed), 8 * |old(absorbed)| % TWO_64)
      ensures state == HashBlocks(H0, absorbed)
    {
      hide HashBlocks, LengthBytes, Padded, Holds;
      ModEight(|absorbed|);
      var totalBits := totalBytes * 8 % TWO_64;
      PadLengthIsMinimal();
      HoldsPartly(absorbed);
      var padding := [0x80] + seq(PadLength() - 1, _ => 0);
      Update(padding);
      Update(LengthBytes(totalBits));
      PaddedParts(old(absorbed), padding, totalBits);
      WholeBlocks();
    }

    /** The digest of everything absorbed. A second call gives the same digest again. */
    method Finish() returns (out: seq<Byte>)
      requires Valid()
      modifies this, buffer
      ensures Valid() && finished && out == Output(state)
      ensures old(finished) ==> state == old(state) && absorbed == old(absorbed)
      ensures !old(finished) ==>
                out == Output(HashBlocks(H0, Padded(old(absorbed), 8 * |old(absorbed)| % TWO_64)))
      ensures !old(finished) && |old(absorbed)| < TWO_61 ==> out == Hash(old(absorbed))
    {
      hide HashBlocks, Output, Padded, Holds;
      if !finished {
        Pad();
        finished := true;
      }
      out := Output(state);
    }
  }

  function Concat(chunks: seq<seq<Byte>>): seq<Byte> {
    if chunks == [] then [] else Concat(chunks[..|chunks| - 1]) + chunks[|chunks| - 1]
  }

  lemma ConcatNext(chunks: seq<seq<Byte>>, i: nat)
    requires i < |chunks|
    ensures Concat(chunks[..i + 1]) == Concat(chunks[..i]) + chunks[i]
  {
    assert chunks[..i + 1][..i] == chunks[..i];
  }

  /** However a message is cut into chunks, hashing them one after the other gives the hash of the whole message. */
  method HashChunks(chunks: seq<seq<Byte>>) returns (digest: seq<Byte>)
    ensures |Concat(chunks)| < TWO_61 ==> digest == Hash(Concat(chunks))
  {
    hide Hash, Concat, Sha256.Valid;
    NothingYet(chunks);
    var hasher := new Sha256();
    for i := 0 to |chunks|
      invariant fresh(hasher) && fresh(hasher.buffer) && hasher.Valid() && !hasher.finished
      invariant hasher.absorbed == Concat(chunks[..i])
    {
      hasher.Update(chunks[i]);
      ConcatNext(chunks, i);
    }
    assert chunks[..|chunks|] == chunks;
    digest := hasher.Finish();
  }

  lemma NothingYet(chunks: seq<seq<Byte>>)
    ensures Concat(chunks[..0]) == []
  {
  }
}
