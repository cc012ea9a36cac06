/** Hashing a message block by block, for any state and any function that takes in a block. */
module BlockHash {
  type Byte = bv8
  type Block = b: seq<Byte> | |b| == 64 witness seq(64, i => 0)

  function Absorb<S>(f: (S, Block) -> S, s: S, message: seq<Byte>): S
    requires |message| % 64 == 0
    decreases |message|
  {
    if message == [] then s else Absorb(f, f(s, message[..64]), message[64..])
  }

  /** Blocks can be taken in as they come. */
  lemma {:induction false} AbsorbAppend<S>(f: (S, Block) -> S, s: S, message: seq<Byte>, block: Block)
    requires |message| % 64 == 0
    ensures (|message| + 64) % 64 == 0
    ensures Absorb(f, s, message + block) == f(Absorb(f, s, message), block)
    decreases |message|
  {
    if message == [] {
      assert message + block == block;
      assert block[..64] == block && block[64..] == [];
    } else {
      AbsorbAppend(f, f(s, message[..64]), message[64..], block);
      assert (message + block)[..64] == message[..64];
      assert (message + block)[64..] == message[64..] + block;
    }
  }
}

/** The MD5 message digest of RFC 1321, sections 3.1 to 3.5, in table-driven form. */
module Md5Spec {
  import opened BlockHash

  type Word = bv32

  datatype Regs = Regs(a: Word, b: Word, c: Word, d: Word)

  /** Section 3.3: the initial register values. */
  const INITIAL := Regs(0x67452301, 0xefcdab89, 0x98badcfe, 0x10325476)

  /** Addition of words, modulo 2^32. */
  function Plus(x: Word, y: Word): Word { x + y }

  // Section 3.4: the four auxiliary functions.

  function F(x: Word, y: Word, z: Word): Word { (x & y) | (!x & z) }
  function G(x: Word, y: Word, z: Word): Word { (x & z) | (y & !z) }
  function H(x: Word, y: Word, z: Word): Word { x ^ y ^ z }
  function I(x: Word, y: Word, z: Word): Word { y ^ (x | !z) }

  function RotateLeft(w: Word, s: nat): Word
    requires s <= 32
  {
    w.RotateLeft(s)
  }

  function Auxiliary(i: nat, x: Word, y: Word, z: Word): Word
    requires i < 64
  {
    if i < 16 then F(x, y, z) else if i < 32 then G(x, y, z) else if i < 48 then H(x, y, z) else I(x, y, z)
  }

  /** Which word of the block operation i uses. */
  function WordIndex(i: nat): (k: nat)
    requires i < 64
    ensures k < 16
  {
    if i < 16 then i else if i < 32 then (5 * i + 1) % 16 else if i < 48 then (3 * i + 5) % 16 else 7 * i % 16
  }

  /** The rotation amount of operation i. */
  function Shift(i: nat): (s: nat)
    requires i < 64
    ensures s <= 32
  {
    var j := i % 4;
    if i < 16 then (if j == 0 then 7 else if j == 1 then 12 else if j == 2 then 17 else 22)
    else if i < 32 then (if j == 0 then 5 else if j == 1 then 9 else if j == 2 then 14 else 20)
    else if i < 48 then (if j == 0 then 4 else if j == 1 then 11 else if j == 2 then 16 else 23)
    else (if j == 0 then 6 else if j == 1 then 10 else if j == 2 then 15 else 21)
  }

  // The sine table, as the standard lists it, one function per round of 16 operations; its
  // entry T[i + 1] is SineTable(i).

  function SineTable1(j: nat): Word
    requires j < 16
  {
    match j
    case 0 => 0xd76aa478 case 1 => 0xe8c7b756 case 2 => 0x242070db case 3 => 0xc1bdceee
    case 4 => 0xf57c0faf case 5 => 0x4787c62a case 6 => 0xa8304613 case 7 => 0xfd469501
    case 8 => 0x698098d8 case 9 => 0x8b44f7af case 10 => 0xffff5bb1 case 11 => 0x895cd7be
    case 12 => 0x6b901122 case 13 => 0xfd987193 case 14 => 0xa679438e case 15 => 0x49b40821
  }

  function SineTable2(j: nat): Word
    requires j < 16
  {
    match j
    case 0 => 0xf61e2562 case 1 => 0xc040b340 case 2 => 0x265e5a51 case 3 => 0xe9b6c7aa
    case 4 => 0xd62f105d case 5 => 0x02441453 case 6 => 0xd8a1e681 case 7 => 0xe7d3fbc8
    case 8 => 0x21e1cde6 case 9 => 0xc33707d6 case 10 => 0xf4d50d87 case 11 => 0x455a14ed
    case 12 => 0xa9e3e905 case 13 => 0xfcefa3f8 case 14 => 0x676f02d9 case 15 => 0x8d2a4c8a
  }

  function SineTable3(j: nat): Word
    requires j < 16
  {
    match j
    case 0 => 0xfffa3942 case 1 => 0x8771f681 case 2 => 0x6d9d6122 case 3 => 0xfde5380c
    case 4 => 0xa4beea44 case 5 => 0x4bdecfa9 case 6 => 0xf6bb4b60 case 7 => 0xbebfbc70
    case 8 => 0x289b7ec6 case 9 => 0xeaa127fa case 10 => 0xd4ef3085 case 11 => 0x04881d05
    case 12 => 0xd9d4d039 case 13 => 0xe6db99e5 case 14 => 0x1fa27cf8 case 15 => 0xc4ac5665
  }

  function SineTable4(j: nat): Word
    requires j < 16
  {
    match j
    case 0 => 0xf4292244 case 1 => 0x432aff97 case 2 => 0xab9423a7 case 3 => 0xfc93a039
    case 4 => 0x655b59c3 case 5 => 0x8f0ccc92 case 6 => 0xffeff47d case 7 => 0x85845dd1
    case 8 => 0x6fa87e4f case 9 => 0xfe2ce6e0 case 10 => 0xa3014314 case 11 => 0x4e0811a1
    case 12 => 0xf7537e82 case 13 => 0xbd3af235 case 14 => 0x2ad7d2bb case 15 => 0xeb86d391
  }

  function SineTable(i: nat): Word
    requires i < 64
  {
    if i < 16 then SineTable1(i) else if i < 32 then SineTable2(i - 16)
    else if i < 48 then SineTable3(i - 32) else SineTable4(i - 48)
  }

  /** Operation i: a = b + ((a + f(b,c,d) + X[k] + T[i]) <<< s), then the registers move on. */
  function Operation(r: Regs, x: seq<Word>, i: nat): Regs
    requires |x| == 16 && i < 64
  {
    Regs(r.d,
         Plus(r.b, RotateLeft(Plus(r.a, Plus(Auxiliary(i, r.b, r.c, r.d), Plus(x[WordIndex(i)], SineTable(i)))),
                              Shift(i))),
         r.b, r.c)
  }

  /** Operations i, i + 1, ... 63. */
  function Operations(r: Regs, x: seq<Word>, i: nat): Regs
    requires |x| == 16 && i <= 64
    decreases 64 - i
  {
    if i == 64 then r else Operations(Operation(r, x, i), x, i + 1)
  }

  function Add(r: Regs, q: Regs): Regs {
    Regs(Plus(r.a, q.a), Plus(r.b, q.b), Plus(r.c, q.c), Plus(r.d, q.d))
  }

  /** The four bytes at 4 * k, low-order byte first. */
  function WordAt(block: seq<Byte>, k: nat): Word
    requires 4 * k + 3 < |block|
  {
    (block[4 * k] as Word) | ((block[4 * k + 1] as Word) << 8) |
    ((block[4 * k + 2] as Word) << 16) | ((block[4 * k + 3] as Word) << 24)
  }

  function WordsOf(block: Block): (x: seq<Word>)
    ensures |x| == 16
  {
    seq(16, k requires 0 <= k < 16 => WordAt(block, k))
  }

  /** Section 3.4: one 16-word block. */
  function Compress(r: Regs, block: Block): Regs {
    Add(r, Operations(r, WordsOf(block), 0))
  }

  const TWO_64 := 0x1_0000_0000_0000_0000

  function ByteOf(digit: int): Byte
    requires 0 <= digit < 0x100
  {
    digit as Byte
  }

  /** The n low-order digits of v to the base 256, low-order digit first. */
  function LittleEndian(v: nat, n: nat): (r: seq<Byte>)
    ensures |r| == n
  {
    if n == 0 then [] else [ByteOf(v % 0x100)] + LittleEndian(v / 0x100, n - 1)
  }

  function LittleEndian64(v: nat): (r: seq<Byte>)
    ensures |r| == 8
  {
    LittleEndian(v, 8)
  }

  /** Section 3.1: the number of zero bytes after the 0x80 byte. */
  function ZeroCount(length: nat): (k: nat)
    ensures (length + 1 + k) % 64 == 56 && k < 64
  {
    (55 - length) % 64
  }

  /** Sections 3.1 and 3.2: a one bit, zeros, and the length in bits mod 2^64. */
  function Padded(message: seq<Byte>): (r: seq<Byte>)
    ensures |r| % 64 == 0
  {
    assert (|message| + 1 + ZeroCount(|message|) + 8) % 64 == 0;
    message + [0x80] + seq(ZeroCount(|message|), i => 0) + LittleEndian64(8 * |message| % TWO_64)
  }

  function WordBytes(w: Word): (r: seq<Byte>)
    ensures |r| == 4
  {
    [(w & 0xff) as Byte, ((w >> 8) & 0xff) as Byte, ((w >> 16) & 0xff) as Byte, ((w >> 24) & 0xff) as Byte]
  }

  /** Section 3.5. */
  function Output(r: Regs): (s: seq<Byte>)
    ensures |s| == 16
  {
    WordBytes(r.a) + WordBytes(r.b) + WordBytes(r.c) + WordBytes(r.d)
  }

  function Digest(message: seq<Byte>): (s: seq<Byte>)
    ensures |s| == 16
  {
    Output(Absorb(Compress, INITIAL, Padded(message)))
  }
}
