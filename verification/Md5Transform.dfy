/** The unrolled block transform and its equality with the table-driven form. */
module Md5Transform {
  import opened BlockHash
  import opened Md5Spec

  // The auxiliary functions as the code has them, F1 and F2 rewritten to save an operation.

  function F1(x: Word, y: Word, z: Word): Word { z ^ (x & (y ^ z)) }
  function F2(x: Word, y: Word, z: Word): Word { F1(z, x, y) }
  function F3(x: Word, y: Word, z: Word): Word { x ^ y ^ z }
  function F4(x: Word, y: Word, z: Word): Word { y ^ (x | !z) }

  // The code's sums and rotations, on 32 bits.

  function Sum(x: Word, y: Word): Word { x + y }

  function Rotated(w: Word, s: nat): Word
    requires s <= 32
  {
    (w << s) | (w >> (32 - s))
  }

  /** The value MD5STEP gives to w, for f the value of its auxiliary function. */
  function Step(f: Word, w: Word, x: Word, data: Word, s: nat): Word
    requires s <= 32
  {
    Sum(Rotated(Sum(w, Sum(f, data)), s), x)
  }

  lemma SelectBits(x: Word, y: Word, z: Word)
    ensures z ^ (x & (y ^ z)) == (x & y) | (!x & z)
  {
  }

  lemma SelectBitsOtherOrder(x: Word, y: Word, z: Word)
    ensures y ^ (z & (x ^ y)) == (x & z) | (y & !z)
  {
  }

  lemma SameSum(a: Word, b: Word)
    ensures Sum(a, b) == Plus(a, b) == Plus(b, a)
  {
  }

  lemma Rotations(w: Word)
    ensures Rotated(w, 7) == RotateLeft(w, 7) && Rotated(w, 12) == RotateLeft(w, 12)
    ensures Rotated(w, 17) == RotateLeft(w, 17) && Rotated(w, 22) == RotateLeft(w, 22)
    ensures Rotated(w, 5) == RotateLeft(w, 5) && Rotated(w, 9) == RotateLeft(w, 9)
    ensures Rotated(w, 14) == RotateLeft(w, 14) && Rotated(w, 20) == RotateLeft(w, 20)
    ensures Rotated(w, 4) == RotateLeft(w, 4) && Rotated(w, 11) == RotateLeft(w, 11)
    ensures Rotated(w, 16) == RotateLeft(w, 16) && Rotated(w, 23) == RotateLeft(w, 23)
    ensures Rotated(w, 6) == RotateLeft(w, 6) && Rotated(w, 10) == RotateLeft(w, 10)
    ensures Rotated(w, 15) == RotateLeft(w, 15) && Rotated(w, 21) == RotateLeft(w, 21)
  {
  }

  /** The two shifts of the code make a rotation, for every amount that is used. */
  lemma ShiftsRotate(w: Word, i: nat)
    requires i < 64
    ensures Rotated(w, Shift(i)) == RotateLeft(w, Shift(i))
  {
    Rotations(w);
    hide Rotated, RotateLeft;
  }

  /** The rewritten functions are those of the standard. */
  lemma RewrittenF(x: Word, y: Word, z: Word)
    ensures F1(x, y, z) == F(x, y, z)
  {
    SelectBits(x, y, z);
  }

  lemma RewrittenG(x: Word, y: Word, z: Word)
    ensures F2(x, y, z) == G(x, y, z)
  {
    SelectBitsOtherOrder(x, y, z);
  }

  /** The value of one line of the unrolled code, and what it is in the table. */
  lemma LineIsOperation(x: seq<Word>, i: nat, w: Word, p: Word, q: Word, r: Word)
    requires |x| == 16 && i < 64
    ensures Operations(Regs(w, p, q, r), x, i) ==
            Operations(Regs(r, Step(Auxiliary(i, p, q, r), w, p, Sum(x[WordIndex(i)], SineTable(i)), Shift(i)), p, q),
                       x, i + 1)
  {
    hide Auxiliary, RotateLeft, Rotated, SineTable, WordIndex, Shift, Plus, Sum;
    var f, data := Auxiliary(i, p, q, r), Sum(x[WordIndex(i)], SineTable(i));
    SameSum(x[WordIndex(i)], SineTable(i));
    SameSum(f, data);
    SameSum(w, Sum(f, data));
    ShiftsRotate(Sum(w, Sum(f, data)), i);
    SameSum(Rotated(Sum(w, Sum(f, data)), Shift(i)), p);
    assert Operation(Regs(w, p, q, r), x, i) == Regs(r, Step(f, w, p, data, Shift(i)), p, q);
  }

  // The same for the four rounds, with the code's own auxiliary function and the constants of
  // a line. Registers are named by their place in the line, so the equality also covers the
  // way they rotate.

  lemma LineF1(x: seq<Word>, i: nat, k: nat, t: Word, s: nat, w: Word, p: Word, q: Word, r: Word)
    requires |x| == 16 && i < 16 && k == WordIndex(i) && t == SineTable(i) && s == Shift(i)
    ensures Operations(Regs(w, p, q, r), x, i) ==
            Operations(Regs(r, Step(F1(p, q, r), w, p, Sum(x[k], t), s), p, q), x, i + 1)
  {
    hide Operations, Operation, Step, RotateLeft, SineTable, WordIndex, Shift, Sum, F, F1;
    LineIsOperation(x, i, w, p, q, r);
    RewrittenF(p, q, r);
  }

  lemma LineF2(x: seq<Word>, i: nat, k: nat, t: Word, s: nat, w: Word, p: Word, q: Word, r: Word)
    requires |x| == 16 && 16 <= i < 32 && k == WordIndex(i) && t == SineTable(i) && s == Shift(i)
    ensures Operations(Regs(w, p, q, r), x, i) ==
            Operations(Regs(r, Step(F2(p, q, r), w, p, Sum(x[k], t), s), p, q), x, i + 1)
  {
    hide Operations, Operation, Step, RotateLeft, SineTable, WordIndex, Shift, Sum, G, F2;
    LineIsOperation(x, i, w, p, q, r);
    RewrittenG(p, q, r);
  }

  lemma LineF3(x: seq<Word>, i: nat, k: nat, t: Word, s: nat, w: Word, p: Word, q: Word, r: Word)
    requires |x| == 16 && 32 <= i < 48 && k == WordIndex(i) && t == SineTable(i) && s == Shift(i)
    ensures Operations(Regs(w, p, q, r), x, i) ==
            Operations(Regs(r, Step(F3(p, q, r), w, p, Sum(x[k], t), s), p, q), x, i + 1)
  {
    hide Operations, Operation, Step, RotateLeft, SineTable, WordIndex, Shift, Sum;
    LineIsOperation(x, i, w, p, q, r);
  }

  lemma LineF4(x: seq<Word>, i: nat, k: nat, t: Word, s: nat, w: Word, p: Word, q: Word, r: Word)
    requires |x| == 16 && 48 <= i < 64 && k == WordIndex(i) && t == SineTable(i) && s == Shift(i)
    ensures Operations(Regs(w, p, q, r), x, i) ==
            Operations(Regs(r, Step(F4(p, q, r), w, p, Sum(x[k], t), s), p, q), x, i + 1)
  {
    hide Operations, Operation, Step, RotateLeft, SineTable, WordIndex, Shift, Sum;
    LineIsOperation(x, i, w, p, q, r);
  }

  /** The constants of lines 1 to 16 are those of the table. */
  lemma Constants1()
    ensures WordIndex(0) == 0 && SineTable(0) == 0xd76aa478 && Shift(0) == 7
    ensures WordIndex(1) == 1 && SineTable(1) == 0xe8c7b756 && Shift(1) == 12
    ensures WordIndex(2) == 2 && SineTable(2) == 0x242070db && Shift(2) == 17
    ensures WordIndex(3) == 3 && SineTable(3) == 0xc1bdceee && Shift(3) == 22
    ensures WordIndex(4) == 4 && SineTable(4) == 0xf57c0faf && Shift(4) == 7
    ensures WordIndex(5) == 5 && SineTable(5) == 0x4787c62a && Shift(5) == 12
    ensures WordIndex(6) == 6 && SineTable(6) == 0xa8304613 && Shift(6) == 17
    ensures WordIndex(7) == 7 && SineTable(7) == 0xfd469501 && Shift(7) == 22
    ensures WordIndex(8) == 8 && SineTable(8) == 0x698098d8 && Shift(8) == 7
    ensures WordIndex(9) == 9 && SineTable(9) == 0x8b44f7af && Shift(9) == 12
    ensures WordIndex(10) == 10 && SineTable(10) == 0xffff5bb1 && Shift(10) == 17
    ensures WordIndex(11) == 11 && SineTable(11) == 0x895cd7be && Shift(11) == 22
    ensures WordIndex(12) == 12 && SineTable(12) == 0x6b901122 && Shift(12) == 7
    ensures WordIndex(13) == 13 && SineTable(13) == 0xfd987193 && Shift(13) == 12
    ensures WordIndex(14) == 14 && SineTable(14) == 0xa679438e && Shift(14) == 17
    ensures WordIndex(15) == 15 && SineTable(15) == 0x49b40821 && Shift(15) == 22
  {
  }

  method Round1(input: seq<Word>, r: Regs) returns (s: Regs)
    requires |input| == 16
    ensures Operations(r, input, 0) == Operations(s, input, 16)
  {
    Constants1();
    hide Operations, Operation, Step, RotateLeft, Sum, Auxiliary, F1, WordIndex, SineTable, Shift;
    var Regs(a, b, c, d) := r;
    LineF1(input, 0, 0, 0xd76aa478, 7, a, b, c, d);
    a := Step(F1(b, c, d), a, b, Sum(input[0], 0xd76aa478), 7);
    LineF1(input, 1, 1, 0xe8c7b756, 12, d, a, b, c);
    d := Step(F1(a, b, c), d, a, Sum(input[1], 0xe8c7b756), 12);
    LineF1(input, 2, 2, 0x242070db, 17, c, d, a, b);
    c := Step(F1(d, a, b), c, d, Sum(input[2], 0x242070db), 17);
    LineF1(input, 3, 3, 0xc1bdceee, 22, b, c, d, a);
    b := Step(F1(c, d, a), b, c, Sum(input[3], 0xc1bdceee), 22);
    LineF1(input, 4, 4, 0xf57c0faf, 7, a, b, c, d);
    a := Step(F1(b, c, d), a, b, Sum(input[4], 0xf57c0faf), 7);
    LineF1(input, 5, 5, 0x4787c62a, 12, d, a, b, c);
    d := Step(F1(a, b, c), d, a, Sum(input[5], 0x4787c62a), 12);
    LineF1(input, 6, 6, 0xa8304613, 17, c, d, a, b);
    c := Step(F1(d, a, b), c, d, Sum(input[6], 0xa8304613), 17);
    LineF1(input, 7, 7, 0xfd469501, 22, b, c, d, a);
    b := Step(F1(c, d, a), b, c, Sum(input[7], 0xfd469501), 22);
    LineF1(input, 8, 8, 0x698098d8, 7, a, b, c, d);
    a := Step(F1(b, c, d), a, b, Sum(input[8], 0x698098d8), 7);
    LineF1(input, 9, 9, 0x8b44f7af, 12, d, a, b, c);
    d := Step(F1(a, b, c), d, a, Sum(input[9], 0x8b44f7af), 12);
    LineF1(input, 10, 10, 0xffff5bb1, 17, c, d, a, b);
    c := Step(F1(d, a, b), c, d, Sum(input[10], 0xffff5bb1), 17);
    LineF1(input, 11, 11, 0x895cd7be, 22, b, c, d, a);
    b := Step(F1(c, d, a), b, c, Sum(input[11], 0x895cd7be), 22);
    LineF1(input, 12, 12, 0x6b901122, 7, a, b, c, d);
    a := Step(F1(b, c, d), a, b, Sum(input[12], 0x6b901122), 7);
    LineF1(input, 13, 13, 0xfd987193, 12, d, a, b, c);
    d := Step(F1(a, b, c), d, a, Sum(input[13], 0xfd987193), 12);
    LineF1(input, 14, 14, 0xa679438e, 17, c, d, a, b);
    c := Step(F1(d, a, b), c, d, Sum(input[14], 0xa679438e), 17);
    LineF1(input, 15, 15, 0x49b40821, 22, b, c, d, a);
    b := Step(F1(c, d, a), b, c, Sum(input[15], 0x49b40821), 22);
    s := Regs(a, b, c, d);
  }

  /** The constants of lines 17 to 32 are those of the table. */
  lemma Constants2()
    ensures WordIndex(16) == 1 && SineTable(16) == 0xf61e2562 && Shift(16) == 5
    ensures WordIndex(17) == 6 && SineTable(17) == 0xc040b340 && Shift(17) == 9
    ensures WordIndex(18) == 11 && SineTable(18) == 0x265e5a51 && Shift(18) == 14
    ensures WordIndex(19) == 0 && SineTable(19) == 0xe9b6c7aa && Shift(19) == 20
    ensures WordIndex(20) == 5 && SineTable(20) == 0xd62f105d && Shift(20) == 5
    ensures WordIndex(21) == 10 && SineTable(21) == 0x02441453 && Shift(21) == 9
    ensures WordIndex(22) == 15 && SineTable(22) == 0xd8a1e681 && Shift(22) == 14
    ensures WordIndex(23) == 4 && SineTable(23) == 0xe7d3fbc8 && Shift(23) == 20
    ensures WordIndex(24) == 9 && SineTable(24) == 0x21e1cde6 && Shift(24) == 5
    ensures WordIndex(25) == 14 && SineTable(25) == 0xc33707d6 && Shift(25) == 9
    ensures WordIndex(26) == 3 && SineTable(26) == 0xf4d50d87 && Shift(26) == 14
    ensures WordIndex(27) == 8 && SineTable(27) == 0x455a14ed && Shift(27) == 20
    ensures WordIndex(28) == 13 && SineTable(28) == 0xa9e3e905 && Shift(28) == 5
    ensures WordIndex(29) == 2 && SineTable(29) == 0xfcefa3f8 && Shift(29) == 9
    ensures WordIndex(30) == 7 && SineTable(30) == 0x676f02d9 && Shift(30) == 14
    ensures WordIndex(31) == 12 && SineTable(31) == 0x8d2a4c8a && Shift(31) == 20
  {
  }

  method Round2(input: seq<Word>, r: Regs) returns (s: Regs)
    requires |input| == 16
    ensures Operations(r, input, 16) == Operations(s, input, 32)
  {
    Constants2();
    hide Operations, Operation, Step, RotateLeft, Sum, Auxiliary, F2, WordIndex, SineTable, Shift;
    var Regs(a, b, c, d) := r;
    LineF2(input, 16, 1, 0xf61e2562, 5, a, b, c, d);
    a := Step(F2(b, c, d), a, b, Sum(input[1], 0xf61e2562), 5);
    LineF2(input, 17, 6, 0xc040b340, 9, d, a, b, c);
    d := Step(F2(a, b, c), d, a, Sum(input[6], 0xc040b340), 9);
    LineF2(input, 18, 11, 0x265e5a51, 14, c, d, a, b);
    c := Step(F2(d, a, b), c, d, Sum(input[11], 0x265e5a51), 14);
    LineF2(input, 19, 0, 0xe9b6c7aa, 20, b, c, d, a);
    b := Step(F2(c, d, a), b, c, Sum(input[0], 0xe9b6c7aa), 20);
    LineF2(input, 20, 5, 0xd62f105d, 5, a, b, c, d);
    a := Step(F2(b, c, d), a, b, Sum(input[5], 0xd62f105d), 5);
    LineF2(input, 21, 10, 0x02441453, 9, d, a, b, c);
    d := Step(F2(a, b, c), d, a, Sum(input[10], 0x02441453), 9);
    LineF2(input, 22, 15, 0xd8a1e681, 14, c, d, a, b);
    c := Step(F2(d, a, b), c, d, Sum(input[15], 0xd8a1e681), 14);
    LineF2(input, 23, 4, 0xe7d3fbc8, 20, b, c, d, a);
    b := Step(F2(c, d, a), b, c, Sum(input[4], 0xe7d3fbc8), 20);
    LineF2(input, 24, 9, 0x21e1cde6, 5, a, b, c, d);
    a := Step(F2(b, c, d), a, b, Sum(input[9], 0x21e1cde6), 5);
    LineF2(input, 25, 14, 0xc33707d6, 9, d, a, b, c);
    d := Step(F2(a, b, c), d, a, Sum(input[14], 0xc33707d6), 9);
    LineF2(input, 26, 3, 0xf4d50d87, 14, c, d, a, b);
    c := Step(F2(d, a, b), c, d, Sum(input[3], 0xf4d50d87), 14);
    LineF2(input, 27, 8, 0x455a14ed, 20, b, c, d, a);
    b := Step(F2(c, d, a), b, c, Sum(input[8], 0x455a14ed), 20);
    LineF2(input, 28, 13, 0xa9e3e905, 5, a, b, c, d);
    a := Step(F2(b, c, d), a, b, Sum(input[13], 0xa9e3e905), 5);
    LineF2(input, 29, 2, 0xfcefa3f8, 9, d, a, b, c);
    d := Step(F2(a, b, c), d, a, Sum(input[2], 0xfcefa3f8), 9);
    LineF2(input, 30, 7, 0x676f02d9, 14, c, d, a, b);
    c := Step(F2(d, a, b), c, d, Sum(input[7], 0x676f02d9), 14);
    LineF2(input, 31, 12, 0x8d2a4c8a, 20, b, c, d, a);
    b := Step(F2(c, d, a), b, c, Sum(input[12], 0x8d2a4c8a), 20);
    s := Regs(a, b, c, d);
  }

  /** The constants of lines 33 to 48 are those of the table. */
  lemma Constants3()
    ensures WordIndex(32) == 5 && SineTable(32) == 0xfffa3942 && Shift(32) == 4
    ensures WordIndex(33) == 8 && SineTable(33) == 0x8771f681 && Shift(33) == 11
    ensures WordIndex(34) == 11 && SineTable(34) == 0x6d9d6122 && Shift(34) == 16
    ensures WordIndex(35) == 14 && SineTable(35) == 0xfde5380c && Shift(35) == 23
    ensures WordIndex(36) == 1 && SineTable(36) == 0xa4beea44 && Shift(36) == 4
    ensures WordIndex(37) == 4 && SineTable(37) == 0x4bdecfa9 && Shift(37) == 11
    ensures WordIndex(38) == 7 && SineTable(38) == 0xf6bb4b60 && Shift(38) == 16
    ensures WordIndex(39) == 10 && SineTable(39) == 0xbebfbc70 && Shift(39) == 23
    ensures WordIndex(40) == 13 && SineTable(40) == 0x289b7ec6 && Shift(40) == 4
    ensures WordIndex(41) == 0 && SineTable(41) == 0xeaa127fa && Shift(41) == 11
    ensures WordIndex(42) == 3 && SineTable(42) == 0xd4ef3085 && Shift(42) == 16
    ensures WordIndex(43) == 6 && SineTable(43) == 0x04881d05 && Shift(43) == 23
    ensures WordIndex(44) == 9 && SineTable(44) == 0xd9d4d039 && Shift(44) == 4
    ensures WordIndex(45) == 12 && SineTable(45) == 0xe6db99e5 && Shift(45) == 11
    ensures WordIndex(46) == 15 && SineTable(46) == 0x1fa27cf8 && Shift(46) == 16
    ensures WordIndex(47) == 2 && SineTable(47) == 0xc4ac5665 && Shift(47) == 23
  {
  }

  method Round3(input: seq<Word>, r: Regs) returns (s: Regs)
    requires |input| == 16
    ensures Operations(r, input, 32) == Operations(s, input, 48)
  {
    Constants3();
    hide Operations, Operation, Step, RotateLeft, Sum, Auxiliary, F3, WordIndex, SineTable, Shift;
    var Regs(a, b, c, d) := r;
    LineF3(input, 32, 5, 0xfffa3942, 4, a, b, c, d);
    a := Step(F3(b, c, d), a, b, Sum(input[5], 0xfffa3942), 4);
    LineF3(input, 33, 8, 0x8771f681, 11, d, a, b, c);
    d := Step(F3(a, b, c), d, a, Sum(input[8], 0x8771f681), 11);
    LineF3(input, 34, 11, 0x6d9d6122, 16, c, d, a, b);
    c := Step(F3(d, a, b), c, d, Sum(input[11], 0x6d9d6122), 16);
    LineF3(input, 35, 14, 0xfde5380c, 23, b, c, d, a);
    b := Step(F3(c, d, a), b, c, Sum(input[14], 0xfde5380c), 23);
    LineF3(input, 36, 1, 0xa4beea44, 4, a, b, c, d);
    a := Step(F3(b, c, d), a, b, Sum(input[1], 0xa4beea44), 4);
    LineF3(input, 37, 4, 0x4bdecfa9, 11, d, a, b, c);
    d := Step(F3(a, b, c), d, a, Sum(input[4], 0x4bdecfa9), 11);
    LineF3(input, 38, 7, 0xf6bb4b60, 16, c, d, a, b);
    c := Step(F3(d, a, b), c, d, Sum(input[7], 0xf6bb4b60), 16);
    LineF3(input, 39, 10, 0xbebfbc70, 23, b, c, d, a);
    b := Step(F3(c, d, a), b, c, Sum(input[10], 0xbebfbc70), 23);
    LineF3(input, 40, 13, 0x289b7ec6, 4, a, b, c, d);
    a := Step(F3(b, c, d), a, b, Sum(input[13], 0x289b7ec6), 4);
    LineF3(input, 41, 0, 0xeaa127fa, 11, d, a, b, c);
    d := Step(F3(a, b, c), d, a, Sum(input[0], 0xeaa127fa), 11);
    LineF3(input, 42, 3, 0xd4ef3085, 16, c, d, a, b);
    c := Step(F3(d, a, b), c, d, Sum(input[3], 0xd4ef3085), 16);
    LineF3(input, 43, 6, 0x04881d05, 23, b, c, d, a);
    b := Step(F3(c, d, a), b, c, Sum(input[6], 0x04881d05), 23);
    LineF3(input, 44, 9, 0xd9d4d039, 4, a, b, c, d);
    a := Step(F3(b, c, d), a, b, Sum(input[9], 0xd9d4d039), 4);
    LineF3(input, 45, 12, 0xe6db99e5, 11, d, a, b, c);
    d := Step(F3(a, b, c), d, a, Sum(input[12], 0xe6db99e5), 11);
    LineF3(input, 46, 15, 0x1fa27cf8, 16, c, d, a, b);
    c := Step(F3(d, a, b), c, d, Sum(input[15], 0x1fa27cf8), 16);
    LineF3(input, 47, 2, 0xc4ac5665, 23, b, c, d, a);
    b := Step(F3(c, d, a), b, c, Sum(input[2], 0xc4ac5665), 23);
    s := Regs(a, b, c, d);
  }

  /** The constants of lines 49 to 64 are those of the table. */
  lemma Constants4()
    ensures WordIndex(48) == 0 && SineTable(48) == 0xf4292244 && Shift(48) == 6
    ensures WordIndex(49) == 7 && SineTable(49) == 0x432aff97 && Shift(49) == 10
    ensures WordIndex(50) == 14 && SineTable(50) == 0xab9423a7 && Shift(50) == 15
    ensures WordIndex(51) == 5 && SineTable(51) == 0xfc93a039 && Shift(51) == 21
    ensures WordIndex(52) == 12 && SineTable(52) == 0x655b59c3 && Shift(52) == 6
    ensures WordIndex(53) == 3 && SineTable(53) == 0x8f0ccc92 && Shift(53) == 10
    ensures WordIndex(54) == 10 && SineTable(54) == 0xffeff47d && Shift(54) == 15
    ensures WordIndex(55) == 1 && SineTable(55) == 0x85845dd1 && Shift(55) == 21
    ensures WordIndex(56) == 8 && SineTable(56) == 0x6fa87e4f && Shift(56) == 6
    ensures WordIndex(57) == 15 && SineTable(57) == 0xfe2ce6e0 && Shift(57) == 10
    ensures WordIndex(58) == 6 && SineTable(58) == 0xa3014314 && Shift(58) == 15
    ensures WordIndex(59) == 13 && SineTable(59) == 0x4e0811a1 && Shift(59) == 21
    ensures WordIndex(60) == 4 && SineTable(60) == 0xf7537e82 && Shift(60) == 6
    ensures WordIndex(61) == 11 && SineTable(61) == 0xbd3af235 && Shift(61) == 10
    ensures WordIndex(62) == 2 && SineTable(62) == 0x2ad7d2bb && Shift(62) == 15
    ensures WordIndex(63) == 9 && SineTable(63) == 0xeb86d391 && Shift(63) == 21
  {
  }

  method Round4(input: seq<Word>, r: Regs) returns (s: Regs)
    requires |input| == 16
    ensures Operations(r, input, 48) == Operations(s, input, 64)
  {
    Constants4();
    hide Operations, Operation, Step, RotateLeft, Sum, Auxiliary, F4, WordIndex, SineTable, Shift;
    var Regs(a, b, c, d) := r;
    LineF4(input, 48, 0, 0xf4292244, 6, a, b, c, d);
    a := Step(F4(b, c, d), a, b, Sum(input[0], 0xf4292244), 6);
    LineF4(input, 49, 7, 0x432aff97, 10, d, a, b, c);
    d := Step(F4(a, b, c), d, a, Sum(input[7], 0x432aff97), 10);
    LineF4(input, 50, 14, 0xab9423a7, 15, c, d, a, b);
    c := Step(F4(d, a, b), c, d, Sum(input[14], 0xab9423a7), 15);
    LineF4(input, 51, 5, 0xfc93a039, 21, b, c, d, a);
    b := Step(F4(c, d, a), b, c, Sum(input[5], 0xfc93a039), 21);
    LineF4(input, 52, 12, 0x655b59c3, 6, a, b, c, d);
    a := Step(F4(b, c, d), a, b, Sum(input[12], 0x655b59c3), 6);
    LineF4(input, 53, 3, 0x8f0ccc92, 10, d, a, b, c);
    d := Step(F4(a, b, c), d, a, Sum(input[3], 0x8f0ccc92), 10);
    LineF4(input, 54, 10, 0xffeff47d, 15, c, d, a, b);
    c := Step(F4(d, a, b), c, d, Sum(input[10], 0xffeff47d), 15);
    LineF4(input, 55, 1, 0x85845dd1, 21, b, c, d, a);
    b := Step(F4(c, d, a), b, c, Sum(input[1], 0x85845dd1), 21);
    LineF4(input, 56, 8, 0x6fa87e4f, 6, a, b, c, d);
    a := Step(F4(b, c, d), a, b, Sum(input[8], 0x6fa87e4f), 6);
    LineF4(input, 57, 15, 0xfe2ce6e0, 10, d, a, b, c);
    d := Step(F4(a, b, c), d, a, Sum(input[15], 0xfe2ce6e0), 10);
    LineF4(input, 58, 6, 0xa3014314, 15, c, d, a, b);
    c := Step(F4(d, a, b), c, d, Sum(input[6], 0xa3014314), 15);
    LineF4(input, 59, 13, 0x4e0811a1, 21, b, c, d, a);
    b := Step(F4(c, d, a), b, c, Sum(input[13], 0x4e0811a1), 21);
    LineF4(input, 60, 4, 0xf7537e82, 6, a, b, c, d);
    a := Step(F4(b, c, d), a, b, Sum(input[4], 0xf7537e82), 6);
    LineF4(input, 61, 11, 0xbd3af235, 10, d, a, b, c);
    d := Step(F4(a, b, c), d, a, Sum(input[11], 0xbd3af235), 10);
    LineF4(input, 62, 2, 0x2ad7d2bb, 15, c, d, a, b);
    c := Step(F4(d, a, b), c, d, Sum(input[2], 0x2ad7d2bb), 15);
    LineF4(input, 63, 9, 0xeb86d391, 21, b, c, d, a);
    b := Step(F4(c, d, a), b, c, Sum(input[9], 0xeb86d391), 21);
    s := Regs(a, b, c, d);
  }

  lemma JoinedBytes(a: Byte, b: Byte, c: Byte, d: Byte)
    ensures ((a as Word) | ((b as Word) << 8) | ((c as Word) << 16) | ((d as Word) << 24)) as int ==
            a as int + 0x100 * (b as int) + 0x1_0000 * (c as int) + 0x100_0000 * (d as int)
  {
  }

  /** Section 2: a word is four bytes, as digits to the base 256, the low-order one first. */
  lemma WordIsNumber(block: seq<Byte>, k: nat)
    requires 4 * k + 3 < |block|
    ensures WordAt(block, k) as int ==
            block[4 * k] as int + 0x100 * (block[4 * k + 1] as int) +
            0x1_0000 * (block[4 * k + 2] as int) + 0x100_0000 * (block[4 * k + 3] as int)
  {
    JoinedBytes(block[4 * k], block[4 * k + 1], block[4 * k + 2], block[4 * k + 3]);
  }

  /** The block as 16 words, low-order byte first. */
  method LoadWords(block: Block) returns (input: seq<Word>)
    ensures input == WordsOf(block)
  {
    hide WordAt;
    var words := new Word[16];
    var a := 0;
    while a < 16
      invariant 0 <= a <= 16
      invariant forall k | 0 <= k < a :: words[k] == WordAt(block, k)
    {
      words[a] := WordAt(block, a);
      a := a + 1;
    }
    input := words[..];
  }

  ghost function RegsOf(state: array<Word>): Regs
    requires state.Length == 4
    reads state
  {
    Regs(state[0], state[1], state[2], state[3])
  }

  /** MD5Transform: the 64 unrolled lines have the effect of section 3.4 on one block. */
  method Transform(state: array<Word>, block: Block)
    requires state.Length == 4
    modifies state
    ensures RegsOf(state) == Compress(old(RegsOf(state)), block)
  {
    hide Operations, Sum, Plus, WordsOf;
    var input := LoadWords(block);
    var r := Regs(state[0], state[1], state[2], state[3]);
    var s := Round1(input, r);
    s := Round2(input, s);
    s := Round3(input, s);
    s := Round4(input, s);
    assert Operations(s, input, 64) == s by { NoOperationsLeft(s, input); }
    SameSum(r.a, s.a);
    SameSum(r.b, s.b);
    SameSum(r.c, s.c);
    SameSum(r.d, s.d);
    state[0] := Sum(r.a, s.a);
    state[1] := Sum(r.b, s.b);
    state[2] := Sum(r.c, s.c);
    state[3] := Sum(r.d, s.d);
  }

  lemma NoOperationsLeft(r: Regs, x: seq<Word>)
    requires |x| == 16
    ensures Operations(r, x, 64) == r
  {
  }
}
