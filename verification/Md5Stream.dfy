/** MD5Init, MD5Update and MD5Final: hashing a message that arrives in pieces. */
module Md5Stream {
  import opened BlockHash
  import opened Md5Spec
  import Md5Transform

  /** The bytes MD5Final may add before the length. */
  const PADDING: Block := [0x80] + seq(63, i => 0)

  class Context {
    const state: array<Word>
    const buffer: array<Byte>
    var count: nat                 // number of bits, mod 2^64
    ghost var message: seq<Byte>   // everything hashed so far

    ghost predicate Valid()
      reads this, state, buffer
    {
      count == 8 * |message| % TWO_64 && CaughtUp(message, |message| % 64)
    }

    /** The state covers m but for its last `rest` bytes, which the buffer starts with. */
    ghost predicate CaughtUp(m: seq<Byte>, rest: nat)
      reads this, state, buffer
    {
      && state.Length == 4 && buffer.Length == 64 && rest <= |m| && rest < 64
      && Covers(|m| - rest)
      && buffer[..rest] == m[|m| - rest..]
    }

    /** The state is the hash of the first n bytes. */
    ghost predicate Covers(n: nat)
      reads this, state
    {
      && state.Length == 4 && n <= |message| && n % 64 == 0
      && Md5Transform.RegsOf(state) == Absorb(Compress, INITIAL, message[..n])
    }

    constructor Init()
      ensures Valid() && message == [] && fresh(state) && fresh(buffer)
    {
      count := 0;
      message := [];
      var words := new Word[4];
      words[0], words[1], words[2], words[3] := 0x67452301, 0xefcdab89, 0x98badcfe, 0x10325476;
      state := words;
      buffer := new Byte[64];
    }

    /** One more block of the message. */
    method TakeBlock(block: Block, ghost n: nat)
      requires buffer.Length == 64 && Covers(n) && n + 64 <= |message| && message[n..n + 64] == block
      modifies state
      ensures Covers(n + 64)
    {
      hide Compress;
      AbsorbAppend(Compress, INITIAL, message[..n], block);
      assert message[..n] + block == message[..n + 64];
      Md5Transform.Transform(state, block);
    }

    /** The whole blocks of input[pos..]. */
    method TakeBlocks(input: seq<Byte>, ghost m: seq<Byte>, start: nat) returns (pos: nat)
      requires buffer.Length == 64 && message == m + input && start <= |input| && Covers(|m| + start)
      modifies state
      ensures start <= pos <= |input| < pos + 64 && Covers(|m| + pos) && (|m| + pos) % 64 == 0
    {
      hide Compress, Absorb, Md5Transform.RegsOf;
      pos := start;
      while |input| - pos >= 64
        invariant start <= pos <= |input| && Covers(|m| + pos)
      {
        SliceOfSum(m, input, pos, pos + 64);
        TakeBlock(input[pos..pos + 64], |m| + pos);
        pos := pos + 64;
      }
    }

    /** Complete the block that the buffer holds the start of. */
    method TopUp(input: seq<Byte>, ghost m: seq<Byte>, have: nat)
      requires buffer.Length == 64 && message == m + input && 0 < have < 64 <= have + |input|
      requires have <= |m| && Covers(|m| - have) && buffer[..have] == m[|m| - have..]
      modifies state, buffer
      ensures Covers(|m| + 64 - have)
    {
      hide Compress, Absorb, Covers, Md5Transform.RegsOf;
      var need := 64 - have;
      Copy(buffer, have, input[..need]);
      BlockInBuffer(m[|m| - have..], input[..need]);
      BlockOfSum(m, input, have);
      TakeBlock(buffer[..], |m| - have);
    }

    /** The bytes of one call, the counter being up to date already. */
    method TakeBytes(input: seq<Byte>, ghost m: seq<Byte>, buffered: nat)
      requires message == m + input && buffered == |m| % 64 && CaughtUp(m, buffered)
      modifies state, buffer
      ensures CaughtUp(message, |message| % 64)
    {
      hide Compress, Absorb, Md5Transform.RegsOf, Covers;
      var have := buffered;
      var need := 64 - have;
      if |input| >= need {
        var pos := 0;
        if have != 0 {
          TopUp(input, m, have);
          pos := need;
          have := 0;
        }
        pos := TakeBlocks(input, m, pos);
        if pos < |input| {
          Copy(buffer, have, input[pos..]);
        }
        RestOfSum(m, input, pos);
      } else {
        if |input| != 0 {
          Copy(buffer, have, input);
        }
        KeptRest(m, input, have);
      }
    }

    method Update(input: seq<Byte>)
      requires Valid()
      modifies this, state, buffer
      ensures Valid() && message == old(message) + input
    {
      hide Compress, Absorb, Md5Transform.RegsOf;
      BitCount(|message|);
      BitCountAdds(|message|, |input|);
      ghost var m := message;
      var have := (count / 8) % 64;
      count := (count + 8 * |input|) % TWO_64;
      message := m + input;
      SameHash(m);
      hide Covers;
      TakeBytes(input, m, have);
    }

    /** Appending to the message leaves its hashed part alone. */
    lemma SameHash(m: seq<Byte>)
      requires m <= message && state.Length == 4
      requires Md5Transform.RegsOf(state) == Absorb(Compress, INITIAL, m[..|m| - |m| % 64])
      ensures Covers(|m| - |m| % 64)
    {
      hide Compress, Absorb;
      assert message[..|m| - |m| % 64] == m[..|m| - |m| % 64];
    }

    /** The top of the buffer is full. */
    lemma BlockInBuffer(rest: seq<Byte>, first: seq<Byte>)
      requires buffer.Length == 64 == |rest| + |first|
      ensures buffer[..|rest|] == rest && buffer[|rest|..] == first ==> buffer[..] == rest + first
    {
    }

    /** The digest of the whole message; the context is wiped. */
    method Final() returns (digest: seq<Byte>)
      requires Valid()
      modifies this, state, buffer
      ensures digest == Digest(old(message))
      ensures count == 0 && (forall i | 0 <= i < 4 :: state[i] == 0) && (forall i | 0 <= i < 64 :: buffer[i] == 0)
    {
      hide Compress, Absorb, Output, LittleEndian64, Put64;
      ghost var m := message;
      BitCount(|m|);
      var bits := Put64(count);
      BytesOfCount(count);
      var padlen := 64 - (count / 8) % 64;
      if padlen < 1 + 8 {
        padlen := padlen + 64;
      }
      Update(PADDING[..padlen - 8]);
      Update(bits);
      PaddingIsPadded(m, padlen, bits);
      assert message[..|message|] == message;
      digest := Output(Regs(state[0], state[1], state[2], state[3]));
      count := 0;
      forall i | 0 <= i < 4 { state[i] := 0; }
      forall i | 0 <= i < 64 { buffer[i] := 0; }
    }
  }

  lemma JoinedAgain(w: Word)
    ensures var b := WordBytes(w);
            w == (b[0] as Word) | ((b[1] as Word) << 8) | ((b[2] as Word) << 16) | ((b[3] as Word) << 24)
  {
  }

  lemma DigitsOf(n: int, a: int, b: int, c: int, d: int)
    requires 0 <= a < 0x100 && 0 <= b < 0x100 && 0 <= c < 0x100 && 0 <= d < 0x100
    requires n == a + 0x100 * b + 0x1_0000 * c + 0x100_0000 * d
    ensures n % 0x100 == a && n / 0x100 % 0x100 == b && n / 0x1_0000 % 0x100 == c && n / 0x100_0000 == d
  {
    assert n == 0x100 * (b + 0x100 * c + 0x1_0000 * d) + a;
    assert n / 0x100 == b + 0x100 * c + 0x1_0000 * d;
    assert n / 0x1_0000 == c + 0x100 * d;
  }

  /** Section 3.5: the bytes put out for a word are the digits of its number to the base 256, low-order first. */
  lemma BytesAreDigits(w: Word)
    ensures var n, bytes := w as int, WordBytes(w);
            && bytes[0] as int == n % 0x100 && bytes[1] as int == n / 0x100 % 0x100
            && bytes[2] as int == n / 0x1_0000 % 0x100 && bytes[3] as int == n / 0x100_0000
  {
    var bytes := WordBytes(w);
    JoinedAgain(w);
    Md5Transform.JoinedBytes(bytes[0], bytes[1], bytes[2], bytes[3]);
    hide WordBytes;
    DigitsOf(w as int, bytes[0] as int, bytes[1] as int, bytes[2] as int, bytes[3] as int);
  }

  /** The code's expressions for the bytes of the count. */
  function Put64(v: nat): (r: seq<Byte>)
    ensures |r| == 8
  {
    [ByteOf(v % 0x100), ByteOf(v / 0x100 % 0x100), ByteOf(v / 0x1_0000 % 0x100), ByteOf(v / 0x100_0000 % 0x100),
     ByteOf(v / 0x1_0000_0000 % 0x100), ByteOf(v / 0x100_0000_0000 % 0x100),
     ByteOf(v / 0x1_0000_0000_0000 % 0x100), ByteOf(v / 0x100_0000_0000_0000 % 0x100)]
  }

  lemma FirstDigit(v: nat, n: nat)
    requires n > 0
    ensures LittleEndian(v, n) == [ByteOf(v % 0x100)] + LittleEndian(v / 0x100, n - 1)
    ensures LittleEndian(v, 0) == []
  {
  }

  lemma FourDigits(v: nat, n: nat)
    requires n >= 4
    ensures LittleEndian(v, n) ==
            [ByteOf(v % 0x100), ByteOf(v / 0x100 % 0x100), ByteOf(v / 0x1_0000 % 0x100),
             ByteOf(v / 0x100_0000 % 0x100)] + LittleEndian(v / 0x1_0000_0000, n - 4)
  {
    hide LittleEndian, ByteOf;
    var a, b, c, d := v / 0x100, v / 0x1_0000, v / 0x100_0000, v / 0x1_0000_0000;
    assert a / 0x100 == b && b / 0x100 == c && c / 0x100 == d;
    FirstDigit(v, n);
    FirstDigit(a, n - 1);
    FirstDigit(b, n - 2);
    FirstDigit(c, n - 3);
  }

  /** Section 3.2: they are the digits of the count to the base 256, low-order first. */
  lemma BytesOfCount(v: nat)
    ensures Put64(v) == LittleEndian64(v)
  {
    hide LittleEndian, ByteOf;
    FourDigits(v, 8);
    FourDigits(v / 0x1_0000_0000, 4);
    FirstDigit(v / 0x1_0000_0000 / 0x1_0000_0000, 1);
    Quotients(v);
  }

  lemma Quotients(v: nat)
    ensures v / 0x1_0000_0000 / 0x100 == v / 0x100_0000_0000
    ensures v / 0x1_0000_0000 / 0x1_0000 == v / 0x1_0000_0000_0000
    ensures v / 0x1_0000_0000 / 0x100_0000 == v / 0x100_0000_0000_0000
  {
  }

  /** Section 3.3: the registers start with the bytes 01 23 45 ..., low-order bytes first. */
  lemma InitialBytes()
    ensures Output(INITIAL) == [0x01, 0x23, 0x45, 0x67, 0x89, 0xab, 0xcd, 0xef,
                                0xfe, 0xdc, 0xba, 0x98, 0x76, 0x54, 0x32, 0x10]
  {
  }

  /** memcpy to the buffer at an offset. */
  method Copy(buffer: array<Byte>, at: nat, bytes: seq<Byte>)
    requires at + |bytes| <= buffer.Length
    modifies buffer
    ensures buffer[at..at + |bytes|] == bytes
    ensures buffer[..at] == old(buffer[..at])
  {
    forall i | 0 <= i < |bytes| { buffer[at + i] := bytes[i]; }
  }

  lemma SliceOfSum(m: seq<Byte>, input: seq<Byte>, i: nat, j: nat)
    requires i <= j <= |input|
    ensures (m + input)[|m| + i..|m| + j] == input[i..j]
  {
  }

  lemma BlockOfSum(m: seq<Byte>, input: seq<Byte>, have: nat)
    requires have <= |m| && have <= 64 && |input| >= 64 - have
    ensures (m + input)[|m| - have..|m| - have + 64] == m[|m| - have..] + input[..64 - have]
  {
  }

  /** What is left after the whole blocks is the remainder of the new message. */
  lemma RestOfSum(m: seq<Byte>, input: seq<Byte>, pos: nat)
    requires pos <= |input| < pos + 64 && (|m| + pos) % 64 == 0
    ensures |m + input| % 64 == |input| - pos
    ensures (m + input)[|m| + pos..] == input[pos..]
  {
  }

  lemma KeptRest(m: seq<Byte>, input: seq<Byte>, have: nat)
    requires have == |m| % 64 && have + |input| < 64
    ensures |m + input| % 64 == have + |input|
    ensures (m + input)[|m| - have..] == m[|m| - have..] + input
  {
  }

  lemma PaddingIsPadded(m: seq<Byte>, padlen: nat, bits: seq<Byte>)
    requires padlen == (if 64 - |m| % 64 < 9 then 128 - |m| % 64 else 64 - |m| % 64)
    requires bits == LittleEndian64(8 * |m| % TWO_64)
    ensures m + PADDING[..padlen - 8] + bits == Padded(m)
  {
    hide LittleEndian64;
    assert padlen - 8 == 1 + ZeroCount(|m|);
    assert PADDING[..padlen - 8] == [0x80] + seq(ZeroCount(|m|), i => 0);
  }

  lemma WrapBits(n: nat, q: nat, r: nat)
    requires n == 0x2000_0000_0000_0000 * q + r && r < 0x2000_0000_0000_0000
    ensures 8 * n % TWO_64 == 8 * r
  {
    assert 8 * n == TWO_64 * q + 8 * r;
  }

  lemma WrapBlock(n: nat, q: nat, r: nat)
    requires n == 0x2000_0000_0000_0000 * q + r
    ensures r % 64 == n % 64
  {
    assert n == 64 * (0x80_0000_0000_0000 * q) + r;
  }

  /** The bit count, although kept mod 2^64, still tells how full the buffer is. */
  lemma BitCount(n: nat)
    ensures (8 * n % TWO_64) / 8 % 64 == n % 64
  {
    var q, r := n / 0x2000_0000_0000_0000, n % 0x2000_0000_0000_0000;
    WrapBits(n, q, r);
    WrapBlock(n, q, r);
  }

  lemma BitCountAdds(n: nat, k: nat)
    ensures (8 * n % TWO_64 + 8 * k) % TWO_64 == 8 * (n + k) % TWO_64
  {
  }

  function Flatten(pieces: seq<seq<Byte>>): seq<Byte> {
    if pieces == [] then [] else pieces[0] + Flatten(pieces[1..])
  }

  lemma FlattenNothing(pieces: seq<seq<Byte>>)
    ensures Flatten(pieces[..0]) == []
  {
  }

  lemma {:induction false} FlattenAppend(pieces: seq<seq<Byte>>, piece: seq<Byte>)
    ensures Flatten(pieces + [piece]) == Flatten(pieces) + piece
  {
    if pieces == [] {
      assert pieces + [piece] == [piece];
    } else {
      FlattenAppend(pieces[1..], piece);
      assert (pieces + [piece])[1..] == pieces[1..] + [piece];
    }
  }

  /** However a message is cut into pieces, the digest is that of the whole message. */
  method HashPieces(pieces: seq<seq<Byte>>) returns (digest: seq<Byte>)
    ensures digest == Digest(Flatten(pieces))
  {
    hide *;
    FlattenNothing(pieces);
    var context := new Context.Init();
    var i := 0;
    while i < |pieces|
      invariant 0 <= i <= |pieces|
      invariant fresh(context) && fresh(context.state) && fresh(context.buffer)
      invariant context.Valid() && context.message == Flatten(pieces[..i])
    {
      context.Update(pieces[i]);
      FlattenAppend(pieces[..i], pieces[i]);
      assert pieces[..i] + [pieces[i]] == pieces[..i + 1];
      i := i + 1;
    }
    assert pieces[..|pieces|] == pieces;
    digest := context.Final();
  }

  /** MD5String. */
  method HashString(data: seq<Byte>) returns (digest: seq<Byte>)
    ensures digest == Digest(data)
  {
    hide Digest;
    var context := new Context.Init();
    context.Update(data);
    assert [] + data == data;
    digest := context.Final();
  }
}
