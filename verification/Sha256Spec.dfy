/**
  SHA-256 as FIPS 180-4 defines it, on whole bytes: the functions of section
  4.1.2, the padding of 5.1.1 and the hash computation of 6.2.2.
 */
module Sha256Spec {

  import opened Sha256Constants

  type Byte = bv8

  const BLOCK: nat := 64

  // ---- section 3.2, 4.1.2: operations ------------------------------------------------

  /** Addition modulo 2^32, by a name a proof can hide. */
  function Add(x: Word, y: Word): Word { x + y }

  function SumOf(x: Word, y: Word, z: Word, u: Word): Word { x + y + z + u }

  function Xor(x: Word, y: Word, z: Word): Word { x ^ y ^ z }

  /** The circular right shift; the count is a word too, so that it folds. */
  function Rotr(x: Word, n: Word): Word
    requires 0 < n < 32
  {
    (x >> n) | (x << (32 - n))
  }

  function Ch(x: Word, y: Word, z: Word): Word { (x & y) ^ (!x & z) }

  function Maj(x: Word, y: Word, z: Word): Word { (x & y) ^ (x & z) ^ (y & z) }

  function BigSigma0(x: Word): Word { Xor(Rotr(x, 2), Rotr(x, 13), Rotr(x, 22)) }

  function BigSigma1(x: Word): Word { Xor(Rotr(x, 6), Rotr(x, 11), Rotr(x, 25)) }

  function SmallSigma0(x: Word): Word { Xor(Rotr(x, 7), Rotr(x, 18), x >> 3) }

  function SmallSigma1(x: Word): Word { Xor(Rotr(x, 17), Rotr(x, 19), x >> 10) }

  // ---- section 5.1.1: padding -----------------------------------------------------------

  /** The zero bytes after the 1 bit: seven of the k zero bits come with it. */
  function ZeroBytes(length: nat): nat {
    (55 - length) % BLOCK
  }

  /** The message length in bits, as a 64-bit number. */
  function BitLength(length: nat): bv64 {
    Number64((length * 8) % 0x1_0000_0000_0000_0000)
  }

  function Number64(n: nat): bv64
    requires n < 0x1_0000_0000_0000_0000
  {
    n as bv64
  }

  /** The 64-bit length, most significant byte first. */
  function LengthBytes(bits: bv64): (s: seq<Byte>)
    ensures |s| == 8
  {
    [LengthByte(bits, 7), LengthByte(bits, 6), LengthByte(bits, 5), LengthByte(bits, 4),
     LengthByte(bits, 3), LengthByte(bits, 2), LengthByte(bits, 1), LengthByte(bits, 0)]
  }

  /** Byte i of the length, 0 the least significant: the low byte of the length
      shifted right by 8 i. */
  function LengthByte(bits: bv64, i: nat): Byte
    requires i < 8
  {
    var shifted :=
      match i
      case 0 => bits
      case 1 => bits >> 8
      case 2 => bits >> 16
      case 3 => bits >> 24
      case 4 => bits >> 32
      case 5 => bits >> 40
      case 6 => bits >> 48
      case 7 => bits >> 56;
    (shifted & 0xff) as Byte
  }

  function Zeros(n: nat): (s: seq<Byte>)
    ensures |s| == n
  {
    seq(n, _ => 0)
  }

  function Pad(message: seq<Byte>): seq<Byte> {
    message + [0x80] + Zeros(ZeroBytes(|message|)) + LengthBytes(BitLength(|message|))
  }

  // ---- section 6.2.2: hash computation ---------------------------------------------------

  /** Four bytes as a word, most significant first. */
  function BigEndian(b0: Byte, b1: Byte, b2: Byte, b3: Byte): Word {
    ((b0 as Word) << 24) | ((b1 as Word) << 16) | ((b2 as Word) << 8) | (b3 as Word)
  }

  /** Word t of a block. */
  function BlockWord(block: seq<Byte>, t: nat): Word
    requires |block| == BLOCK && t < 16
  {
    BigEndian(block[t * 4], block[t * 4 + 1], block[t * 4 + 2], block[t * 4 + 3])
  }

  /** Step 1: the message schedule. */
  function Schedule(block: seq<Byte>, t: nat): Word
    requires |block| == BLOCK
  {
    if t < 16 then
      BlockWord(block, t)
    else
      Expand(Schedule(block, t - 2), Schedule(block, t - 7), Schedule(block, t - 15), Schedule(block, t - 16))
  }

  function Expand(w2: Word, w7: Word, w15: Word, w16: Word): Word {
    SumOf(SmallSigma1(w2), w7, SmallSigma0(w15), w16)
  }

  /** Step 2: the working variables. */
  datatype Vars = Vars(a: Word, b: Word, c: Word, d: Word, e: Word, f: Word, g: Word, h: Word)

  /** Step 3: one round. */
  function T1(e: Word, f: Word, g: Word, h: Word, k: Word, w: Word): Word {
    Add(Add(Add(Add(h, BigSigma1(e)), Ch(e, f, g)), k), w)
  }

  function T2(a: Word, b: Word, c: Word): Word {
    Add(BigSigma0(a), Maj(a, b, c))
  }

  function Round(v: Vars, k: Word, w: Word): Vars {
    var t1, t2 := T1(v.e, v.f, v.g, v.h, k, w), T2(v.a, v.b, v.c);
    Vars(Add(t1, t2), v.a, v.b, v.c, Add(v.d, t1), v.e, v.f, v.g)
  }

  function Rounds(v: Vars, block: seq<Byte>, n: nat): Vars
    requires |block| == BLOCK && n <= 64
  {
    if n == 0 then v else Round(Rounds(v, block, n - 1), RoundConstant(n - 1), Schedule(block, n - 1))
  }

  function ToVars(s: seq<Word>): Vars
    requires |s| == 8
  {
    Vars(s[0], s[1], s[2], s[3], s[4], s[5], s[6], s[7])
  }

  /** Step 4: the next intermediate hash value. */
  function AddTo(s: seq<Word>, v: Vars): (r: seq<Word>)
    requires |s| == 8
    ensures |r| == 8
  {
    [Add(s[0], v.a), Add(s[1], v.b), Add(s[2], v.c), Add(s[3], v.d),
     Add(s[4], v.e), Add(s[5], v.f), Add(s[6], v.g), Add(s[7], v.h)]
  }

  function Compress(s: seq<Word>, block: seq<Byte>): (r: seq<Word>)
    requires |s| == 8 && |block| == BLOCK
    ensures |r| == 8
  {
    AddTo(s, Rounds(ToVars(s), block, 64))
  }

  /** The blocks of a padded message, one after the other. */
  function HashBlocks(s: seq<Word>, padded: seq<Byte>): (r: seq<Word>)
    requires |s| == 8 && |padded| % BLOCK == 0
    ensures |r| == 8
    decreases |padded|
  {
    if padded == [] then s else HashBlocks(Compress(s, padded[..BLOCK]), padded[BLOCK..])
  }

  function Hash(message: seq<Byte>): (r: seq<Word>)
    ensures |r| == 8
  {
    PadLength(message);
    HashBlocks(H0, Pad(message))
  }

  // ---- hexadecimal digits -----------------------------------------------------------------

  const HEX: string := "0123456789abcdef"

  /** Byte k of a word, 0 the most significant: the low byte of the word shifted
      right by 24 - 8 k. */
  function WordByte(w: Word, k: nat): Byte
    requires k < 4
  {
    var shifted :=
      match k
      case 0 => w >> 24
      case 1 => w >> 16
      case 2 => w >> 8
      case 3 => w;
    (shifted & 0xff) as Byte
  }

  function Digit(n: Byte): char
    requires n < 16
  {
    HEX[n as nat]
  }

  function HighDigit(b: Byte): char { Digit(b >> 4) }

  function LowDigit(b: Byte): char { Digit(b & 0x0f) }

  function WordHex(w: Word): (s: string)
    ensures |s| == 8
  {
    [HighDigit(WordByte(w, 0)), LowDigit(WordByte(w, 0)), HighDigit(WordByte(w, 1)), LowDigit(WordByte(w, 1)),
     HighDigit(WordByte(w, 2)), LowDigit(WordByte(w, 2)), HighDigit(WordByte(w, 3)), LowDigit(WordByte(w, 3))]
  }

  function Hex(words: seq<Word>): (s: string)
    ensures |s| == 8 * |words|
  {
    if words == [] then "" else WordHex(words[0]) + Hex(words[1..])
  }

  /** What a reader makes of a digit. */
  function DigitValue(c: char): Byte {
    if '0' <= c <= '9' then (c - '0') as Byte
    else if 'a' <= c <= 'f' then (c - 'a') as Byte + 10
    else 0
  }

  function ByteValue(high: char, low: char): Byte {
    (DigitValue(high) << 4) | DigitValue(low)
  }

  function WordValue(s: string): Word
    requires |s| == 8
  {
    BigEndian(ByteValue(s[0], s[1]), ByteValue(s[2], s[3]), ByteValue(s[4], s[5]), ByteValue(s[6], s[7]))
  }

  function Words(s: string): seq<Word>
    requires |s| % 8 == 0
  {
    if s == "" then [] else [WordValue(s[..8])] + Words(s[8..])
  }

  // ---- the definitions are the standard's ----------------------------------------------------

  /** The condition of section 5.1.1 on a number of zero bits. */
  predicate ZeroBitsFit(bits: nat, zeros: nat) {
    (bits + 1 + zeros) % 512 == 448
  }

  /** The padded message is whole blocks, and its zero bits (seven in the byte
      0x80, then ZeroBytes) are the fewest that fit. */
  lemma {:induction false} PadLength(message: seq<Byte>)
    ensures |Pad(message)| % BLOCK == 0
    ensures ZeroBitsFit(8 * |message|, 8 * ZeroBytes(|message|) + 7)
    ensures forall k: nat | k < 8 * ZeroBytes(|message|) + 7 :: !ZeroBitsFit(8 * |message|, k)
  {
    hide LengthBytes, BitLength, Zeros, ZeroBitsFit;
    ZeroBytesFit(|message|);
  }

  lemma {:induction false} ZeroBytesFit(n: nat)
    ensures (n + 1 + ZeroBytes(n) + 8) % BLOCK == 0
    ensures ZeroBitsFit(8 * n, 8 * ZeroBytes(n) + 7)
    ensures forall k: nat | k < 8 * ZeroBytes(n) + 7 :: !ZeroBitsFit(8 * n, k)
  {
    var z := ZeroBytes(n);
    assert (n + 1 + z) % 64 == 56;
    var q := (n + 1 + z) / 64;
    assert 8 * n + 8 + 8 * z == 512 * q + 448;
    forall k: nat | k < 8 * z + 7
      ensures !ZeroBitsFit(8 * n, k)
    {
      JustBelow(8 * n + 1 + k, q, 8 * z + 7 - k);
    }
  }

  lemma {:induction false} JustBelow(x: nat, q: nat, d: nat)
    requires x == 512 * q + 448 - d && 0 < d < 512
    ensures x % 512 != 448
  {
    assert d <= 448 ==> x % 512 == 448 - d;
    assert d > 448 ==> x % 512 == 960 - d;
  }

  /** The length bytes are the number they stand for. */
  lemma {:induction false} LengthBytesRoundTrip(bits: bv64)
    ensures var s := LengthBytes(bits);
            bits == ((s[0] as bv64) << 56) | ((s[1] as bv64) << 48) | ((s[2] as bv64) << 40) | ((s[3] as bv64) << 32)
                  | ((s[4] as bv64) << 24) | ((s[5] as bv64) << 16) | ((s[6] as bv64) << 8) | (s[7] as bv64)
  {
  }

  /** Blocks already folded in need not be looked at again. */
  lemma {:induction false} HashBlocksConcat(s: seq<Word>, a: seq<Byte>, b: seq<Byte>)
    requires |s| == 8 && |a| % BLOCK == 0 && |b| % BLOCK == 0
    ensures |a + b| % BLOCK == 0
    ensures HashBlocks(s, a + b) == HashBlocks(HashBlocks(s, a), b)
    decreases |a|
  {
    hide Compress;
    if a == [] {
      assert a + b == b;
    } else {
      assert (a + b)[..BLOCK] == a[..BLOCK] && (a + b)[BLOCK..] == a[BLOCK..] + b;
      HashBlocksConcat(Compress(s, a[..BLOCK]), a[BLOCK..], b);
    }
  }

  lemma {:induction false} HashOneBlock(s: seq<Word>, block: seq<Byte>)
    requires |s| == 8 && |block| == BLOCK
    ensures HashBlocks(s, block) == Compress(s, block)
  {
    hide Compress;
    assert block[..BLOCK] == block && block[BLOCK..] == [];
  }

  /** The digits are read back as the words they were written from. */
  lemma {:induction false} HexRoundTrip(words: seq<Word>)
    ensures Words(Hex(words)) == words
  {
    hide WordHex, WordValue;
    if words != [] {
      var first, rest := WordHex(words[0]), Hex(words[1..]);
      assert (first + rest)[..8] == first && (first + rest)[8..] == rest;
      WordRoundTrip(words[0]);
      HexRoundTrip(words[1..]);
    }
  }

  lemma {:induction false} WordRoundTrip(w: Word)
    ensures WordValue(WordHex(w)) == w
  {
    hide HighDigit, LowDigit, ByteValue, WordByte, BigEndian;
    ByteRoundTrip(WordByte(w, 0));
    ByteRoundTrip(WordByte(w, 1));
    ByteRoundTrip(WordByte(w, 2));
    ByteRoundTrip(WordByte(w, 3));
    BytesOfWord(w);
  }

  lemma {:induction false} BytesOfWord(w: Word)
    ensures BigEndian(WordByte(w, 0), WordByte(w, 1), WordByte(w, 2), WordByte(w, 3)) == w
  {
  }

  lemma {:induction false} ByteRoundTrip(b: Byte)
    ensures ByteValue(HighDigit(b), LowDigit(b)) == b
  {
    hide DigitValue, Digit;
    DigitRoundTrip(b >> 4);
    DigitRoundTrip(b & 0x0f);
  }

  lemma {:induction false} DigitRoundTrip(n: Byte)
    requires n < 16
    ensures DigitValue(Digit(n)) == n
  {
    var i := n as nat;
    assert i < 10 ==> HEX[i] == '0' + i as char;
    assert i >= 10 ==> HEX[i] == 'a' + (i - 10) as char;
  }
}
