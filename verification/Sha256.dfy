/**
  The digest the device computes of its flash image: SHA-256 over a byte array,
  block by block through one 64-byte buffer, and written out as 64 hexadecimal
  digits and a terminating zero.
 */
module Sha256 {
  import opened Sha256Constants
  import opened Sha256Spec

  // ---- the compression function, in place ---------------------------------------------

  function RotateRight(value: Word, count: Word): Word
    requires 0 < count < 32
  {
    (value >> count) | (value << (32 - count))
  }

  /** What the device computes of the words of a block and of the working variables. */
  function S0(x: Word): Word { Xor(RotateRight(x, 7), RotateRight(x, 18), x >> 3) }

  function S1(x: Word): Word { Xor(RotateRight(x, 17), RotateRight(x, 19), x >> 10) }

  function Sum0(a: Word): Word { Xor(RotateRight(a, 2), RotateRight(a, 13), RotateRight(a, 22)) }

  function Sum1(e: Word): Word { Xor(RotateRight(e, 6), RotateRight(e, 11), RotateRight(e, 25)) }

  function Choose(e: Word, f: Word, g: Word): Word { (e & f) ^ (!e & g) }

  function Majority(a: Word, b: Word, c: Word): Word { (a & b) ^ (a & c) ^ (b & c) }

  // These are the standard's functions.

  lemma {:induction false} S0Is(x: Word)
    ensures S0(x) == SmallSigma0(x)
  {
    hide Xor;
  }

  lemma {:induction false} S1Is(x: Word)
    ensures S1(x) == SmallSigma1(x)
  {
    hide Xor;
  }

  lemma {:induction false} Sum0Is(x: Word)
    ensures Sum0(x) == BigSigma0(x)
  {
    hide Xor;
  }

  lemma {:induction false} Sum1Is(x: Word)
    ensures Sum1(x) == BigSigma1(x)
  {
    hide Xor;
  }

  lemma {:induction false} PicksAre(x: Word, y: Word, z: Word)
    ensures Choose(x, y, z) == Ch(x, y, z) && Majority(x, y, z) == Maj(x, y, z)
  {
  }

  /** The next word of the schedule, in the order the device adds it up. */
  function NextWord(w16: Word, w15: Word, w7: Word, w2: Word): Word {
    SumOf(w16, S0(w15), w7, S1(w2))
  }

  lemma {:induction false} NextWordExpands(w16: Word, w15: Word, w7: Word, w2: Word)
    ensures NextWord(w16, w15, w7, w2) == Expand(w2, w7, w15, w16)
  {
    hide SmallSigma0, SmallSigma1, S0, S1, SumOf;
    S0Is(w15);
    S1Is(w2);
    Reordered(w16, SmallSigma0(w15), w7, SmallSigma1(w2));
  }

  lemma {:induction false} Reordered(a: Word, b: Word, c: Word, d: Word)
    ensures SumOf(a, b, c, d) == SumOf(d, c, b, a)
  {
  }

  /** One round, as the device works it out. */
  function DeviceRound(v: Vars, k: Word, w: Word): Vars {
    var temp1 := Add(Add(Add(Add(v.h, Sum1(v.e)), Choose(v.e, v.f, v.g)), k), w);
    var temp2 := Add(Sum0(v.a), Majority(v.a, v.b, v.c));
    Vars(Add(temp1, temp2), v.a, v.b, v.c, Add(v.d, temp1), v.e, v.f, v.g)
  }

  lemma {:induction false} RoundIsTheStandards(v: Vars, k: Word, w: Word)
    ensures DeviceRound(v, k, w) == Round(v, k, w)
  {
    hide Add, Sum0, Sum1, BigSigma0, BigSigma1, Choose, Majority, Ch, Maj;
    Sum1Is(v.e);
    Sum0Is(v.a);
    PicksAre(v.e, v.f, v.g);
    PicksAre(v.a, v.b, v.c);
  }

  method MessageSchedule(block: array<Byte>) returns (words: array<Word>)
    requires block.Length == BLOCK
    ensures fresh(words) && words.Length == 64
    ensures forall t | 0 <= t < 64 :: words[t] == Schedule(block[..], t)
  {
    hide BigEndian, Schedule, NextWord;
    ghost var b := block[..];
    words := new Word[64];
    for i := 0 to 16
      invariant forall t | 0 <= t < i :: words[t] == Schedule(b, t)
    {
      words[i] := BigEndian(block[i * 4], block[i * 4 + 1], block[i * 4 + 2], block[i * 4 + 3]);
      ScheduleLoads(b, i);
    }
    for i := 16 to 64
      invariant forall t | 0 <= t < i :: words[t] == Schedule(b, t)
    {
      words[i] := NextWord(words[i - 16], words[i - 15], words[i - 7], words[i - 2]);
      ScheduleExpands(b, i);
    }
  }

  lemma {:induction false} ScheduleLoads(block: seq<Byte>, t: nat)
    requires |block| == BLOCK && t < 16
    ensures Schedule(block, t) == BigEndian(block[t * 4], block[t * 4 + 1], block[t * 4 + 2], block[t * 4 + 3])
  {
    hide BigEndian;
  }

  lemma {:induction false} ScheduleExpands(block: seq<Byte>, t: nat)
    requires |block| == BLOCK && t >= 16
    ensures Schedule(block, t) == NextWord(Schedule(block, t - 16), Schedule(block, t - 15),
                                           Schedule(block, t - 7), Schedule(block, t - 2))
  {
    hide Expand, NextWord;
    NextWordExpands(Schedule(block, t - 16), Schedule(block, t - 15), Schedule(block, t - 7), Schedule(block, t - 2));
  }

  method Transform(state: array<Word>, block: array<Byte>)
    requires state.Length == 8 && block.Length == BLOCK
    modifies state
    ensures state[..] == Compress(old(state[..]), block[..])
  {
    hide Add, Round, Sum0, Sum1, Choose, Majority, Schedule, RoundConstant;
    var words := MessageSchedule(block);
    var a, b, c, d, e, f, g, h := state[0], state[1], state[2], state[3], state[4], state[5], state[6], state[7];
    ghost var start := Vars(a, b, c, d, e, f, g, h);
    assert start == ToVars(state[..]);
    for i := 0 to 64
      invariant state[..] == old(state[..]) && forall t | 0 <= t < 64 :: words[t] == Schedule(block[..], t)
      invariant Vars(a, b, c, d, e, f, g, h) == Rounds(start, block[..], i)
    {
      RoundIsTheStandards(Vars(a, b, c, d, e, f, g, h), RoundConstant(i), words[i]);
      var temp1 := Add(Add(Add(Add(h, Sum1(e)), Choose(e, f, g)), RoundConstant(i)), words[i]);
      var temp2 := Add(Sum0(a), Majority(a, b, c));
      h := g;
      g := f;
      f := e;
      e := Add(d, temp1);
      d := c;
      c := b;
      b := a;
      a := Add(temp1, temp2);
    }
    AddInto(state, Vars(a, b, c, d, e, f, g, h));
  }

  method AddInto(state: array<Word>, v: Vars)
    requires state.Length == 8
    modifies state
    ensures state[..] == AddTo(old(state[..]), v)
  {
    hide Add, AddTo;
    ghost var s := state[..];
    state[0] := Add(state[0], v.a);
    state[1] := Add(state[1], v.b);
    state[2] := Add(state[2], v.c);
    state[3] := Add(state[3], v.d);
    state[4] := Add(state[4], v.e);
    state[5] := Add(state[5], v.f);
    state[6] := Add(state[6], v.g);
    state[7] := Add(state[7], v.h);
    AddToIs(s, v, state[..]);
  }

  lemma {:induction false} AddToIs(s: seq<Word>, v: Vars, r: seq<Word>)
    requires |s| == 8 && |r| == 8
    requires r[0] == Add(s[0], v.a) && r[1] == Add(s[1], v.b) && r[2] == Add(s[2], v.c) && r[3] == Add(s[3], v.d)
    requires r[4] == Add(s[4], v.e) && r[5] == Add(s[5], v.f) && r[6] == Add(s[6], v.g) && r[7] == Add(s[7], v.h)
    ensures r == AddTo(s, v)
  {
    hide Add;
  }

  // ---- the digest -------------------------------------------------------------------------

  /** What follows the last whole block: the rest of the message, the 1 bit, the
      zeros and the length of the whole message. */
  function Tail(rest: seq<Byte>, length: nat): seq<Byte> {
    rest + [0x80] + Zeros(ZeroBytes(length)) + LengthBytes(BitLength(length))
  }

  lemma {:induction false} HashSplit(message: seq<Byte>, offset: nat)
    requires offset % BLOCK == 0 && offset <= |message|
    ensures |Tail(message[offset..], |message|)| % BLOCK == 0
    ensures Hash(message) == HashBlocks(HashBlocks(H0, message[..offset]), Tail(message[offset..], |message|))
  {
    hide HashBlocks, LengthBytes, BitLength, Zeros, ZeroBytes, ZeroBitsFit;
    PadLength(message);
    PadSplit(message, offset);
    HashBlocksConcat(H0, message[..offset], Tail(message[offset..], |message|));
  }

  lemma {:induction false} PadSplit(message: seq<Byte>, offset: nat)
    requires offset <= |message|
    ensures Pad(message) == message[..offset] + Tail(message[offset..], |message|)
  {
    hide LengthBytes, BitLength, Zeros, ZeroBytes;
  }

  method Clear(block: array<Byte>, from: nat, to: nat)
    requires from <= to <= block.Length
    modifies block
    ensures block[..] == old(block[..from]) + Zeros(to - from) + old(block[to..])
  {
    for i := from to to
      invariant forall k | 0 <= k < block.Length :: block[k] == if from <= k < i then 0 else old(block[k])
    {
      block[i] := 0;
    }
  }

  method CopyBlock(data: array<Byte>, offset: nat, n: nat, block: array<Byte>)
    requires offset + n <= data.Length && n <= block.Length && data != block
    modifies block
    ensures block[..n] == data[offset..offset + n]
  {
    for i := 0 to n
      invariant forall k | 0 <= k < i :: block[k] == data[offset + k]
    {
      block[i] := data[offset + i];
    }
  }

  /** The length's eight bytes, written from the last one back. */
  method PutLength(block: array<Byte>, size: nat)
    requires block.Length == BLOCK
    modifies block
    ensures block[..] == old(block[..56]) + LengthBytes(BitLength(size))
  {
    hide LengthByte, BitLength;
    var bits := BitLength(size);
    for i := 0 to 8
      invariant forall k | 0 <= k < 56 :: block[k] == old(block[k])
      invariant forall k | 0 <= k < i :: block[63 - k] == LengthByte(bits, k)
    {
      block[63 - i] := LengthByte(bits, i);
    }
  }

  /** The whole blocks of the data, folded into the state through the buffer. */
  method FoldBlocks(data: array<Byte>, state: array<Word>, block: array<Byte>) returns (offset: nat)
    requires state.Length == 8 && block.Length == BLOCK && data != block
    requires state[..] == H0
    modifies state, block
    ensures offset % BLOCK == 0 && offset <= data.Length < offset + BLOCK
    ensures state[..] == HashBlocks(H0, data[..offset])
    ensures data[..] == old(data[..])
  {
    hide Compress;
    offset := 0;
    while data.Length - offset >= BLOCK
      invariant offset % BLOCK == 0 && offset <= data.Length
      invariant state[..] == HashBlocks(H0, data[..offset])
      invariant data[..] == old(data[..])
    {
      CopyBlock(data, offset, BLOCK, block);
      assert block[..] == data[offset..offset + BLOCK];
      Transform(state, block);
      assert data[..offset + BLOCK] == data[..offset] + data[offset..offset + BLOCK];
      HashOneBlock(HashBlocks(H0, data[..offset]), data[offset..offset + BLOCK]);
      HashBlocksConcat(H0, data[..offset], data[offset..offset + BLOCK]);
      offset := offset + BLOCK;
    }
  }

  method StartTail(data: array<Byte>, offset: nat, block: array<Byte>) returns (used: nat)
    requires block.Length == BLOCK && data != block
    requires offset <= data.Length < offset + BLOCK
    modifies block
    ensures used == data.Length - offset + 1
    ensures block[..used] == data[offset..] + [0x80]
  {
    var remaining := data.Length - offset;
    CopyBlock(data, offset, remaining, block);
    block[remaining] := 0x80;
    used := remaining + 1;
    assert block[..remaining] == data[offset..offset + remaining];
  }

  /** The rest of the data, padded: one more block, or two when the 0x80 leaves
      no room for the length. */
  method FoldTail(data: array<Byte>, offset: nat, state: array<Word>, block: array<Byte>)
    requires state.Length == 8 && block.Length == BLOCK && data != block
    requires offset % BLOCK == 0 && offset <= data.Length < offset + BLOCK
    modifies state, block
    ensures |Tail(data[offset..], data.Length)| % BLOCK == 0
    ensures state[..] == HashBlocks(old(state[..]), Tail(data[offset..], data.Length))
    ensures data[..] == old(data[..])
  {
    hide HashBlocks, Compress, LengthBytes, BitLength, Tail, ZeroBytes;
    ghost var rest, s := data[offset..], state[..];
    ghost var head := rest + [0x80];
    var used := StartTail(data, offset, block);
    if used > 56 {
      Clear(block, used, 64);
      assert block[..] == head + Zeros(64 - used);
      Transform(state, block);
      used := 0;
    }
    Clear(block, used, 56);
    assert block[..56] == (if |rest| < 56 then head + Zeros(55 - |rest|) else Zeros(56));
    PutLength(block, data.Length);
    Transform(state, block);
    HashTail(s, rest, data.Length);
  }

  /** The tail's blocks, as the buffer holds them. */
  lemma {:induction false} HashTail(s: seq<Word>, rest: seq<Byte>, length: nat)
    requires |s| == 8 && |rest| < BLOCK && |rest| == length % BLOCK
    ensures |Tail(rest, length)| % BLOCK == 0
    ensures var head, size := rest + [0x80], LengthBytes(BitLength(length));
            HashBlocks(s, Tail(rest, length)) ==
            if |rest| < 56 then Compress(s, head + Zeros(55 - |rest|) + size)
            else Compress(Compress(s, head + Zeros(63 - |rest|)), Zeros(56) + size)
  {
    hide HashBlocks, Compress, LengthBytes, BitLength, Zeros;
    var head, size := rest + [0x80], LengthBytes(BitLength(length));
    if |rest| < 56 {
      HashOneBlock(s, Tail(rest, length));
    } else {
      var first, second := head + Zeros(63 - |rest|), Zeros(56) + size;
      ZerosSplit(63 - |rest|, 56);
      assert Tail(rest, length) == first + second;
      HashOneBlock(s, first);
      HashOneBlock(Compress(s, first), second);
      HashBlocksConcat(s, first, second);
    }
  }

  lemma {:induction false} ZerosSplit(a: nat, b: nat)
    ensures Zeros(a + b) == Zeros(a) + Zeros(b)
  {
  }

  /** The eight digits of one word. */
  method WriteWord(w: Word, at: nat, output: array<char>)
    requires at + 8 <= output.Length
    modifies output
    ensures output[..] == old(output[..at]) + WordHex(w) + old(output[at + 8..])
  {
    hide WordHex, WordByte, HighDigit, LowDigit;
    for byte := 0 to 4
      invariant forall k | 0 <= k < output.Length && !(at <= k < at + 8) :: output[k] == old(output[k])
      invariant forall k | 0 <= k < byte * 2 :: output[at + k] == WordHex(w)[k]
    {
      var value := WordByte(w, byte);
      var position := at + byte * 2;
      output[position] := HighDigit(value);
      output[position + 1] := LowDigit(value);
      DigitsOfByte(w, byte);
    }
    assert output[at..at + 8] == WordHex(w);
  }

  lemma {:induction false} DigitsOfByte(w: Word, k: nat)
    requires k < 4
    ensures WordHex(w)[k * 2] == HighDigit(WordByte(w, k)) && WordHex(w)[k * 2 + 1] == LowDigit(WordByte(w, k))
  {
    hide WordByte, HighDigit, LowDigit;
  }

  method WriteHex(state: array<Word>, output: array<char>)
    requires state.Length == 8 && output.Length >= 65
    modifies output
    ensures output[..64] == Hex(state[..])
    ensures output[64] == '\0'
    ensures output[65..] == old(output[65..])
  {
    hide WordHex;
    for word := 0 to 8
      invariant output[..word * 8] == Hex(state[..word])
      invariant output[64..] == old(output[64..])
    {
      HexAppend(state[..word], state[word]);
      assert state[..word + 1] == state[..word] + [state[word]];
      WriteWord(state[word], word * 8, output);
    }
    assert state[..8] == state[..];
    output[64] := '\0';
  }

  lemma {:induction false} HexAppend(words: seq<Word>, w: Word)
    ensures Hex(words + [w]) == Hex(words) + WordHex(w)
  {
    hide WordHex;
    if words != [] {
      assert (words + [w])[1..] == words[1..] + [w];
      HexAppend(words[1..], w);
    }
  }

  /** The digest of any number of bytes is SHA-256's. */
  method Sha256Hex(data: array<Byte>, output: array<char>)
    requires output.Length >= 65
    modifies output
    ensures output[..64] == Hex(Hash(old(data[..])))
    ensures output[64] == '\0'
    ensures output[65..] == old(output[65..])
  {
    hide Hash, HashBlocks, Hex, Tail;
    ghost var message := data[..];
    var state := new Word[8](i requires 0 <= i < 8 => H0[i]);
    var block := new Byte[BLOCK];
    assert state[..] == H0;
    var offset := FoldBlocks(data, state, block);
    FoldTail(data, offset, state, block);
    HashSplit(message, offset);
    assert data[..] == message && message[..offset] == data[..offset] && message[offset..] == data[offset..];
    assert state[..] == Hash(message);
    WriteHex(state, output);
  }
}
