/** base64_encode and base64_decode, against section 4 of RFC 4648. */
module Base64 {
  import opened Options

  type Byte = bv8

  /** What the decoding table says of a character. */
  datatype Symbol = Value(v: Byte) | Space | Pad | Invalid

  const PAD: Byte := 61

  /** The 64-character alphabet. */
  function Char(v: Byte): Byte
    requires v < 64
  {
    if v < 26 then v + 65 else if v < 52 then v + 71 else if v < 62 then v - 4 else if v == 62 then 43 else 47
  }

  /** The decoding table; byte 255, which the table omits, is invalid like its neighbours. */
  function SymbolOf(c: Byte): Symbol {
    if 65 <= c <= 90 then Value(c - 65)
    else if 97 <= c <= 122 then Value(c - 71)
    else if 48 <= c <= 57 then Value(c + 4)
    else if c == 43 then Value(62)
    else if c == 47 then Value(63)
    else if c == PAD then Pad
    else if c == 32 || 9 <= c <= 13 then Space
    else Invalid
  }

  lemma SymbolOfChar(v: Byte)
    requires v < 64
    ensures SymbolOf(Char(v)) == Value(v)
  {
  }

  /** ... and no other character has a value; the white space of the C library is skipped. */
  lemma CharOfSymbol(c: Byte)
    ensures SymbolOf(c).Value? ==> SymbolOf(c).v < 64 && Char(SymbolOf(c).v) == c
    ensures SymbolOf(c) == Pad <==> c as char == '='
    ensures SymbolOf(c) == Space <==> c in {0x20, 0x09, 0x0a, 0x0b, 0x0c, 0x0d}
  {
  }

  /** Table 1 of RFC 4648, and its pad. */
  lemma Alphabet()
    ensures Char(0) as char == 'A' && Char(1) as char == 'B' && Char(2) as char == 'C' && Char(3) as char == 'D'
    ensures Char(4) as char == 'E' && Char(5) as char == 'F' && Char(6) as char == 'G' && Char(7) as char == 'H'
    ensures Char(8) as char == 'I' && Char(9) as char == 'J' && Char(10) as char == 'K' && Char(11) as char == 'L'
    ensures Char(12) as char == 'M' && Char(13) as char == 'N' && Char(14) as char == 'O' && Char(15) as char == 'P'
    ensures Char(16) as char == 'Q' && Char(17) as char == 'R' && Char(18) as char == 'S' && Char(19) as char == 'T'
    ensures Char(20) as char == 'U' && Char(21) as char == 'V' && Char(22) as char == 'W' && Char(23) as char == 'X'
    ensures Char(24) as char == 'Y' && Char(25) as char == 'Z' && Char(26) as char == 'a' && Char(27) as char == 'b'
    ensures Char(28) as char == 'c' && Char(29) as char == 'd' && Char(30) as char == 'e' && Char(31) as char == 'f'
    ensures Char(32) as char == 'g' && Char(33) as char == 'h' && Char(34) as char == 'i' && Char(35) as char == 'j'
    ensures Char(36) as char == 'k' && Char(37) as char == 'l' && Char(38) as char == 'm' && Char(39) as char == 'n'
    ensures Char(40) as char == 'o' && Char(41) as char == 'p' && Char(42) as char == 'q' && Char(43) as char == 'r'
    ensures Char(44) as char == 's' && Char(45) as char == 't' && Char(46) as char == 'u' && Char(47) as char == 'v'
    ensures Char(48) as char == 'w' && Char(49) as char == 'x' && Char(50) as char == 'y' && Char(51) as char == 'z'
    ensures Char(52) as char == '0' && Char(53) as char == '1' && Char(54) as char == '2' && Char(55) as char == '3'
    ensures Char(56) as char == '4' && Char(57) as char == '5' && Char(58) as char == '6' && Char(59) as char == '7'
    ensures Char(60) as char == '8' && Char(61) as char == '9' && Char(62) as char == '+' && Char(63) as char == '/'
    ensures PAD as char == '='
  {
  }

  // ---------------------------------------------------------------- encoding

  /** Section 4 of RFC 4648: three bytes make a 24-bit group... */
  function Group24(a: Byte, b: Byte, c: Byte): bv24 {
    (a as bv24 << 16) | (b as bv24 << 8) | (c as bv24)
  }

  /** ...which is read as four 6-bit groups, k = 0 being the first. */
  function Sextet(g: bv24, k: nat): (v: Byte)
    requires k < 4
    ensures v < 64
  {
    if k == 0 then ((g >> 18) & 0x3f) as Byte else if k == 1 then ((g >> 12) & 0x3f) as Byte
    else if k == 2 then ((g >> 6) & 0x3f) as Byte else (g & 0x3f) as Byte
  }

  /** A final group of one or two bytes is completed with zero bits, and its missing
      characters are pads. */
  function Rfc4648(x: seq<Byte>): seq<Byte>
    decreases |x|
  {
    if |x| == 0 then []
    else if |x| == 1 then
      var g := Group24(x[0], 0, 0);
      [Char(Sextet(g, 0)), Char(Sextet(g, 1)), PAD, PAD]
    else if |x| == 2 then
      var g := Group24(x[0], x[1], 0);
      [Char(Sextet(g, 0)), Char(Sextet(g, 1)), Char(Sextet(g, 2)), PAD]
    else
      var g := Group24(x[0], x[1], x[2]);
      [Char(Sextet(g, 0)), Char(Sextet(g, 1)), Char(Sextet(g, 2)), Char(Sextet(g, 3))] + Rfc4648(x[3..])
  }

  // The code's expressions for the four output values.

  function Out0(a: Byte): (v: Byte)
    ensures v < 64
  {
    a >> 2
  }

  function Out1(a: Byte, b: Byte): (v: Byte)
    ensures v < 64
  {
    ((a & 0x03) << 4) + (b >> 4)
  }

  function Out2(b: Byte, c: Byte): (v: Byte)
    ensures v < 64
  {
    ((b & 0x0f) << 2) + (c >> 6)
  }

  function Out3(c: Byte): (v: Byte)
    ensures v < 64
  {
    c & 0x3f
  }

  lemma OutsAreSextets(a: Byte, b: Byte, c: Byte)
    ensures var g := Group24(a, b, c);
            && Out0(a) == Sextet(g, 0) && Out1(a, b) == Sextet(g, 1)
            && Out2(b, c) == Sextet(g, 2) && Out3(c) == Sextet(g, 3)
  {
  }

  /** One turn of the encoding loop. */
  lemma EncodeTurn(input: seq<Byte>, sidx: nat)
    requires sidx + 3 <= |input|
    ensures var a, b, c := input[sidx], input[sidx + 1], input[sidx + 2];
            Rfc4648(input[sidx..]) ==
            [Char(Out0(a)), Char(Out1(a, b)), Char(Out2(b, c)), Char(Out3(c))] + Rfc4648(input[sidx + 3..])
  {
    OutsAreSextets(input[sidx], input[sidx + 1], input[sidx + 2]);
    hide Out0, Out1, Out2, Out3, Sextet, Group24, Char;
    assert input[sidx..][3..] == input[sidx + 3..];
  }

  /** The last one or two bytes. */
  lemma EncodeLast(input: seq<Byte>, sidx: nat)
    requires sidx < |input| <= sidx + 2
    ensures var a, b: Byte := input[sidx], if sidx + 2 == |input| then input[sidx + 1] else 0;
            Rfc4648(input[sidx..]) ==
            [Char(Out0(a)), Char(Out1(a, b)), if sidx + 1 == |input| then PAD else Char(Out2(b, 0)), PAD]
  {
    OutsAreSextets(input[sidx], if sidx + 2 == |input| then input[sidx + 1] else 0, 0);
    hide Out0, Out1, Out2, Out3, Sextet, Group24, Char;
  }

  lemma EncodeNothing(input: seq<Byte>)
    ensures Rfc4648(input[|input|..]) == []
  {
  }

  method Encode(input: seq<Byte>) returns (out: seq<Byte>)
    ensures out == Rfc4648(input)
  {
    hide Rfc4648, Char, Out0, Out1, Out2, Out3;
    out := [];
    var srclength := |input|;
    var sidx := 0;
    assert input[0..] == input;
    while 2 < srclength
      invariant 0 <= srclength && sidx + srclength == |input|
      invariant out + Rfc4648(input[sidx..]) == Rfc4648(input)
    {
      var in0, in1, in2 := input[sidx], input[sidx + 1], input[sidx + 2];
      EncodeTurn(input, sidx);
      sidx := sidx + 3;
      srclength := srclength - 3;
      out := out + [Char(Out0(in0)), Char(Out1(in0, in1)), Char(Out2(in1, in2)), Char(Out3(in2))];
    }
    if srclength != 0 {
      EncodeLast(input, sidx);
      var in0 := input[sidx];
      var in1: Byte := if srclength == 2 then input[sidx + 1] else 0;
      out := out + [Char(Out0(in0)), Char(Out1(in0, in1))];
      out := out + [if srclength == 1 then PAD else Char(Out2(in1, 0))];
      out := out + [PAD];
    } else {
      EncodeNothing(input);
    }
  }

  // ---------------------------------------------------------------- decoding

  /** Where the reading of values stops. */
  datatype Stop = AtEnd | AtPad | AtInvalid

  datatype Reading = Reading(values: seq<Byte>, stop: Stop)

  /** The values of the characters before the first pad or invalid one, blanks skipped. */
  function Read(input: seq<Byte>): Reading
    decreases |input|
  {
    if input == [] then Reading([], AtEnd)
    else match SymbolOf(input[0])
      case Pad => Reading([], AtPad)
      case Invalid => Reading([], AtInvalid)
      case Space => Read(input[1..])
      case Value(v) => var r := Read(input[1..]); r.(values := [v] + r.values)
  }

  // The bits that a value in place 0, 1 or 2 of a group gives to the byte it begins, and those
  // that a value in place 1, 2 or 3 adds to the byte already begun.

  function Begin0(v: Byte): Byte { v << 2 }
  function Begin1(v: Byte): Byte { (v & 0x0f) << 4 }
  function Begin2(v: Byte): Byte { (v & 0x03) << 6 }
  function Merge1(b: Byte, v: Byte): Byte { b | (v >> 4) }
  function Merge2(b: Byte, v: Byte): Byte { b | (v >> 2) }
  function Merge3(b: Byte, v: Byte): Byte { b | v }

  /** The output bytes of up to four values; the last byte is unfinished unless there are 4. */
  function Quantum(vs: seq<Byte>): seq<Byte>
    requires |vs| <= 4
  {
    if |vs| == 0 then []
    else if |vs| == 1 then [Begin0(vs[0])]
    else if |vs| == 2 then [Merge1(Begin0(vs[0]), vs[1]), Begin1(vs[1])]
    else if |vs| == 3 then [Merge1(Begin0(vs[0]), vs[1]), Merge2(Begin1(vs[1]), vs[2]), Begin2(vs[2])]
    else [Merge1(Begin0(vs[0]), vs[1]), Merge2(Begin1(vs[1]), vs[2]), Merge3(Begin2(vs[2]), vs[3])]
  }

  function Unpacked(vs: seq<Byte>): seq<Byte>
    decreases |vs|
  {
    if |vs| < 4 then Quantum(vs) else Quantum(vs[..4]) + Unpacked(vs[4..])
  }

  lemma {:induction false} UnpackedLength(vs: seq<Byte>)
    ensures |Unpacked(vs)| == |vs| * 3 / 4 + (if |vs| % 4 == 0 then 0 else 1)
    decreases |vs|
  {
    if |vs| >= 4 {
      UnpackedLength(vs[4..]);
    }
  }

  lemma UnpackedQuantum(vs: seq<Byte>)
    requires |vs| <= 4
    ensures Unpacked(vs) == Quantum(vs)
  {
    if |vs| == 4 {
      assert vs[..4] == vs && vs[4..] == [];
      assert Quantum(vs) + [] == Quantum(vs);
    }
  }

  /** What decoding means: it fails on an invalid character before the first pad and on a
      count of values that makes no whole number of bytes; a pad must come after two or three
      values of a group. Whatever follows the first pad is ignored, and so are the bits left
      over in the last value. */
  function Decoded(input: seq<Byte>): Option<seq<Byte>> {
    var r := Read(input);
    var n := |r.values|;
    UnpackedLength(r.values);
    if r.stop == AtInvalid then None
    else if r.stop == AtEnd then if n % 4 == 0 then Some(Unpacked(r.values)) else None
    else if n % 4 < 2 then None
    else Some(Unpacked(r.values)[..n * 3 / 4])
  }

  /** One more value: the last byte is completed in place, and the next one begun. */
  function Patched(out: seq<Byte>, state: nat, v: Byte): seq<Byte>
    requires state < 4 && (state != 0 ==> out != [])
  {
    if state == 0 then out + [Begin0(v)]
    else
      var io := |out| - 1;
      if state == 1 then out[io := Merge1(out[io], v)] + [Begin1(v)]
      else if state == 2 then out[io := Merge2(out[io], v)] + [Begin2(v)]
      else out[io := Merge3(out[io], v)]
  }

  lemma QuantumAppend(vs: seq<Byte>, v: Byte)
    requires |vs| < 4
    ensures Quantum(vs + [v]) == Patched(Quantum(vs), |vs|, v)
  {
    hide Begin0, Begin1, Begin2, Merge1, Merge2, Merge3;
  }

  lemma PatchedAfter(before: seq<Byte>, out: seq<Byte>, state: nat, v: Byte)
    requires state < 4 && (state != 0 ==> out != [])
    ensures Patched(before + out, state, v) == before + Patched(out, state, v)
  {
    hide Begin0, Begin1, Begin2, Merge1, Merge2, Merge3;
    assert (before + out) + [Begin0(v)] == before + (out + [Begin0(v)]);
  }

  lemma {:induction false} UnpackedAppend(vs: seq<Byte>, v: Byte)
    ensures |vs| % 4 != 0 ==> Unpacked(vs) != []
    ensures Unpacked(vs + [v]) == Patched(Unpacked(vs), |vs| % 4, v)
    decreases |vs|
  {
    hide Quantum, Begin0, Begin1, Begin2, Merge1, Merge2, Merge3, Patched;
    UnpackedLength(vs);
    if |vs| < 4 {
      UnpackedQuantum(vs);
      UnpackedQuantum(vs + [v]);
      QuantumAppend(vs, v);
    } else {
      UnpackedLength(vs[4..]);
      assert (vs + [v])[..4] == vs[..4] && (vs + [v])[4..] == vs[4..] + [v];
      UnpackedAppend(vs[4..], v);
      PatchedAfter(Quantum(vs[..4]), Unpacked(vs[4..]), |vs| % 4, v);
    }
  }

  lemma ReadStep(input: seq<Byte>, ii: nat, values: seq<Byte>)
    requires ii < |input|
    ensures var rest := Read(input[ii + 1..]);
            var r := Read(input[ii..]);
            match SymbolOf(input[ii])
            case Pad => r == Reading([], AtPad)
            case Invalid => r == Reading([], AtInvalid)
            case Space => r == rest
            case Value(v) => r.stop == rest.stop && values + r.values == values + [v] + rest.values
  {
    assert input[ii..][1..] == input[ii + 1..];
  }

  /** std::string indexing: the position after the last character reads as zero. */
  function At(input: seq<Byte>, i: nat): Byte
    requires i <= |input|
  {
    if i < |input| then input[i] else 0
  }

  predicate IsSpace(c: Byte) {
    c == 32 || 9 <= c <= 13
  }

  /** The four-state machine, patching the last output byte in place. */
  method TakeValue(bytes: seq<Byte>, index: nat, st: nat, v: Byte) returns (out: seq<Byte>, io: nat, state: nat)
    requires st < 4 && |bytes| == index + (if st == 0 then 0 else 1)
    ensures out == Patched(bytes, st, v) && state == (st + 1) % 4
    ensures io == if st == 0 then index else index + 1
  {
    hide Begin0, Begin1, Begin2, Merge1, Merge2, Merge3;
    out, io, state := bytes, index, st;
    if state == 0 {
      out := out + [Begin0(v)];
      state := 1;
    } else if state == 1 {
      out := out[io := Merge1(out[io], v)];
      out := out + [Begin1(v)];
      io := io + 1;
      state := 2;
    } else if state == 2 {
      out := out[io := Merge2(out[io], v)];
      out := out + [Begin2(v)];
      io := io + 1;
      state := 3;
    } else {
      out := out[io := Merge3(out[io], v)];
      io := io + 1;
      state := 0;
    }
  }

  /** What is decoded when the values so far are given and the rest of the input is still to be read. */
  ghost predicate Underway(input: seq<Byte>, ii: nat, values: seq<Byte>, out: seq<Byte>, io: nat, state: nat)
    requires ii <= |input|
  {
    && state == |values| % 4 && out == Unpacked(values) && io == |values| * 3 / 4
    && Read(input) == Reading(values + Read(input[ii..]).values, Read(input[ii..]).stop)
  }

  lemma UnderwayStart(input: seq<Byte>)
    ensures Underway(input, 0, [], [], 0, 0)
  {
    assert input[0..] == input && [] + Read(input).values == Read(input).values;
  }

  /** One more value: its place in its group, and the whole bytes so far. */
  lemma ValueIndex(n: nat)
    ensures (n + 1) % 4 == (n % 4 + 1) % 4
    ensures (n + 1) * 3 / 4 == if n % 4 == 0 then n * 3 / 4 else n * 3 / 4 + 1
  {
  }

  lemma UnderwayValue(input: seq<Byte>, ii: nat, values: seq<Byte>, out: seq<Byte>, io: nat, state: nat, v: Byte)
    requires ii < |input| && Underway(input, ii, values, out, io, state) && SymbolOf(input[ii]) == Value(v)
    ensures |out| == io + (if state == 0 then 0 else 1)
    ensures Underway(input, ii + 1, values + [v], Patched(out, state, v), if state == 0 then io else io + 1,
                     (state + 1) % 4)
  {
    hide Patched, Unpacked, Read, SymbolOf;
    ReadStep(input, ii, values);
    UnpackedAppend(values, v);
    UnpackedLength(values);
    UnpackedLength(values + [v]);
    ValueIndex(|values|);
  }

  /** A blank is skipped; a pad, an invalid character or the end stops the reading. */
  lemma UnderwayOther(input: seq<Byte>, ii: nat, values: seq<Byte>, out: seq<Byte>, io: nat, state: nat)
    requires ii <= |input| && Underway(input, ii, values, out, io, state)
    ensures ii < |input| && SymbolOf(input[ii]) == Space ==> Underway(input, ii + 1, values, out, io, state)
    ensures ii < |input| && SymbolOf(input[ii]) == Pad ==> Read(input) == Reading(values, AtPad)
    ensures ii < |input| && SymbolOf(input[ii]) == Invalid ==> Read(input) == Reading(values, AtInvalid)
    ensures ii == |input| ==> Read(input) == Reading(values, AtEnd)
  {
    hide Unpacked, SymbolOf;
    assert values + [] == values;
    if ii < |input| {
      hide Read;
      ReadStep(input, ii, values);
    }
  }

  /** The loop over the characters: values are unpacked until a pad, an invalid character or
      the end. `ch` is the last character looked at, and `ii` its position when it is a pad. */
  method DecodeValues(input: seq<Byte>)
    returns (invalid: bool, out: seq<Byte>, io: nat, state: nat, ch: Byte, ii: nat)
    ensures invalid <==> Read(input).stop == AtInvalid
    ensures out == Unpacked(Read(input).values)
    ensures !invalid ==> io == |Read(input).values| * 3 / 4 && state == |Read(input).values| % 4
    ensures !invalid ==> (ch == PAD <==> Read(input).stop == AtPad)
    ensures ii <= |input| && (!invalid && ch == PAD ==> ii < |input|)
  {
    hide Patched, Unpacked, Read, SymbolOf, Underway;
    io, state, ch, ii, out := 0, 0, 0, 0, [];
    ghost var values := [];
    UnderwayStart(input);
    OnlyPadIsPad(ch);
    while ii < |input|
      invariant ii <= |input| && state < 4
      invariant Underway(input, ii, values, out, io, state)
      invariant ch != PAD
    {
      ch := input[ii];
      OnlyPadIsPad(ch);
      match SymbolOf(ch) {
        case Space => UnderwayOther(input, ii, values, out, io, state);
        case Pad =>
          UnderwayEnds(input, ii, values, out, io, state);
          return false, out, io, state, ch, ii;
        case Invalid =>
          UnderwayEnds(input, ii, values, out, io, state);
          return true, out, io, state, ch, ii;
        case Value(v) =>
          UnderwayValue(input, ii, values, out, io, state, v);
          out, io, state := TakeValue(out, io, state, v);
          values := values + [v];
      }
      ii := ii + 1;
    }
    UnderwayEnds(input, ii, values, out, io, state);
    invalid := false;
  }

  lemma UnderwayEnds(input: seq<Byte>, ii: nat, values: seq<Byte>, out: seq<Byte>, io: nat, state: nat)
    requires ii <= |input| && Underway(input, ii, values, out, io, state)
    requires ii < |input| ==> SymbolOf(input[ii]) in {Pad, Invalid}
    ensures Read(input) == Reading(values, if ii == |input| then AtEnd
                                           else if SymbolOf(input[ii]) == Pad then AtPad else AtInvalid)
    ensures state == |values| % 4 && out == Unpacked(values) && io == |values| * 3 / 4
  {
    hide Unpacked, SymbolOf, Read;
    UnderwayOther(input, ii, values, out, io, state);
  }

  /** base64_decode. On failure `out` holds what was decoded so far, with an unfinished last byte. */
  method Decode(input: seq<Byte>) returns (ok: bool, out: seq<Byte>)
    ensures ok <==> Decoded(input).Some?
    ensures out == if ok then Decoded(input).value else Unpacked(Read(input).values)
  {
    hide Read, Unpacked;
    var invalid, o, io, state, ch, ii := DecodeValues(input);
    out := o;
    if invalid {
      return false, out;
    }
    if ch == PAD {
      ch := At(input, ii);
      ii := ii + 1;
      if state == 0 || state == 1 {
        return false, out;
      }
      UnpackedLength(Read(input).values);
      if state == 2 {
        while ii < |input| && IsSpace(ch)
          invariant ii <= |input|
          decreases |input| - ii
        {
          ch := At(input, ii);
          ii := ii + 1;
        }
        ch := At(input, ii);
        ii := ii + 1;
      }
      while ii < |input|
        invariant ii <= |input| + 1
      {
        ch := At(input, ii);
        ii := ii + 1;
      }
      if out[io] != 0 {
        out := out[io := 0];
      }
      out := out[..io];
      ok := true;
    } else {
      ok := state == 0;
    }
  }

  lemma OnlyPadIsPad(c: Byte)
    ensures SymbolOf(c) == Pad <==> c == PAD
  {
  }

  // ---------------------------------------------------------------- round trip

  /** The string without its blanks. */
  function Stripped(w: seq<Byte>): seq<Byte>
    decreases |w|
  {
    if w == [] then [] else (if SymbolOf(w[0]) == Space then [] else [w[0]]) + Stripped(w[1..])
  }

  lemma {:induction false} BlanksAreSkipped(w: seq<Byte>)
    ensures Read(Stripped(w)) == Read(w)
    decreases |w|
  {
    hide SymbolOf;
    if w != [] {
      BlanksAreSkipped(w[1..]);
      var s := Stripped(w);
      if SymbolOf(w[0]) != Space {
        assert s == [w[0]] + Stripped(w[1..]);
        assert s[1..] == Stripped(w[1..]);
      } else {
        assert s == Stripped(w[1..]);
      }
    }
  }

  predicate Sextets(values: seq<Byte>) {
    forall i | 0 <= i < |values| :: values[i] < 64
  }

  function Chars(values: seq<Byte>): seq<Byte>
    requires Sextets(values)
  {
    if values == [] then [] else [Char(values[0])] + Chars(values[1..])
  }

  /** Characters of the alphabet, with blanks anywhere, are read as their values, and then what follows is read. */
  lemma {:induction false} ReadsValues(w: seq<Byte>, values: seq<Byte>, rest: seq<Byte>)
    requires Sextets(values) && Stripped(w) == Chars(values)
    ensures Read(w + rest) == Reading(values + Read(rest).values, Read(rest).stop)
    decreases |w|
  {
    if w == [] {
      assert values == [] && w + rest == rest && values + Read(rest).values == Read(rest).values;
    } else {
      FirstRead(w + rest);
      FirstStripped(w);
      hide SymbolOf, Char, Read, Stripped;
      assert (w + rest)[1..] == w[1..] + rest;
      if SymbolOf(w[0]) == Space {
        ReadsValues(w[1..], values, rest);
      } else {
        assert Chars(values)[0] == Char(values[0]) && Chars(values)[1..] == Chars(values[1..]);
        SymbolOfChar(values[0]);
        ReadsValues(w[1..], values[1..], rest);
        assert values + Read(rest).values == [values[0]] + (values[1..] + Read(rest).values);
      }
    }
  }

  lemma FirstRead(s: seq<Byte>)
    requires s != []
    ensures SymbolOf(s[0]) == Space ==> Read(s) == Read(s[1..])
    ensures var r := Read(s[1..]);
            SymbolOf(s[0]).Value? ==> Read(s) == Reading([SymbolOf(s[0]).v] + r.values, r.stop)
  {
    hide SymbolOf;
  }

  lemma FirstStripped(w: seq<Byte>)
    requires w != []
    ensures Stripped(w) == (if SymbolOf(w[0]) == Space then [] else [w[0]]) + Stripped(w[1..])
    ensures SymbolOf(w[0]) == Space ==> Stripped(w) == Stripped(w[1..])
    ensures SymbolOf(w[0]) != Space ==> Stripped(w)[0] == w[0] && Stripped(w)[1..] == Stripped(w[1..])
  {
    hide SymbolOf;
  }

  /** Which texts decode, told by their characters: those of the alphabet, with blanks anywhere, alone when they
      make whole groups, and with a pad and anything after it when two or three are left over; any other
      character before a pad is an error. */
  lemma DecodesIff(w: seq<Byte>, values: seq<Byte>, c: Byte, rest: seq<Byte>)
    requires Sextets(values) && Stripped(w) == Chars(values)
    ensures Decoded(w).Some? <==> |values| % 4 == 0
    ensures Decoded(w + ([PAD] + rest)).Some? <==> |values| % 4 >= 2
    ensures SymbolOf(c) == Invalid ==> Decoded(w + ([c] + rest)).None?
  {
    hide *;
    ReadsValues(w, values, []);
    ReadsValues(w, values, [PAD] + rest);
    ReadsValues(w, values, [c] + rest);
    assert w + [] == w && values + [] == values;
    StopsAt(c, rest);
    StopsAt(PAD, rest);
    WhenDecoded(w);
    WhenDecoded(w + ([PAD] + rest));
    WhenDecoded(w + ([c] + rest));
  }

  lemma StopsAt(c: Byte, rest: seq<Byte>)
    ensures Read([]) == Reading([], AtEnd)
    ensures SymbolOf(c) == Invalid ==> Read([c] + rest) == Reading([], AtInvalid)
    ensures c == PAD ==> Read([c] + rest) == Reading([], AtPad)
  {
    OnlyPadIsPad(c);
    hide SymbolOf;
  }

  lemma WhenDecoded(w: seq<Byte>)
    ensures var r := Read(w);
            Decoded(w).Some? <==>
              if r.stop == AtEnd then |r.values| % 4 == 0 else r.stop == AtPad && |r.values| % 4 >= 2
  {
    hide Read, Unpacked;
  }

  /** The four characters of a group read as its four values. */
  lemma ReadChars(values: seq<Byte>, rest: seq<Byte>)
    requires |values| <= 4 && forall i | 0 <= i < |values| :: values[i] < 64
    ensures Read(seq(|values|, i requires 0 <= i < |values| => Char(values[i])) + rest) ==
            Reading(values + Read(rest).values, Read(rest).stop)
    decreases |values|
  {
    hide SymbolOf, Char;
    var chars := seq(|values|, i requires 0 <= i < |values| => Char(values[i]));
    if values == [] {
      assert chars + rest == rest;
      assert values + Read(rest).values == Read(rest).values;
    } else {
      var tail := values[1..];
      var tailChars := seq(|tail|, i requires 0 <= i < |tail| => Char(tail[i]));
      ReadChars(tail, rest);
      assert (chars + rest)[1..] == tailChars + rest;
      SymbolOfChar(values[0]);
      assert values + Read(rest).values == [values[0]] + (tail + Read(rest).values);
    }
  }

  /** Unpacking the values of a group gives its bytes back. */
  lemma QuantumOfSextets(a: Byte, b: Byte, c: Byte)
    ensures Merge1(Begin0(Out0(a)), Out1(a, b)) == a
    ensures Merge2(Begin1(Out1(a, b)), Out2(b, c)) == b
    ensures Merge3(Begin2(Out2(b, c)), Out3(c)) == c
  {
  }

  /** A whole group: its characters read as four values which unpack to its bytes. */
  lemma ReadGroup(a: Byte, b: Byte, c: Byte, rest: seq<Byte>)
    ensures var g := Group24(a, b, c);
            var chars := [Char(Sextet(g, 0)), Char(Sextet(g, 1)), Char(Sextet(g, 2)), Char(Sextet(g, 3))];
            var r := Read(chars + rest);
            && r.stop == Read(rest).stop && |r.values| == 4 + |Read(rest).values|
            && Unpacked(r.values) == [a, b, c] + Unpacked(Read(rest).values)
  {
    hide SymbolOf, Char, Sextet, Group24, Begin0, Begin1, Begin2, Merge1, Merge2, Merge3, Out0, Out1, Out2, Out3;
    var g := Group24(a, b, c);
    var values := [Sextet(g, 0), Sextet(g, 1), Sextet(g, 2), Sextet(g, 3)];
    ReadChars(values, rest);
    assert seq(4, i requires 0 <= i < 4 => Char(values[i])) ==
           [Char(Sextet(g, 0)), Char(Sextet(g, 1)), Char(Sextet(g, 2)), Char(Sextet(g, 3))];
    OutsAreSextets(a, b, c);
    QuantumOfSextets(a, b, c);
    var all := values + Read(rest).values;
    assert all[..4] == values && all[4..] == Read(rest).values;
  }

  /** The last group, of one or two bytes. */
  lemma ReadLast(x: seq<Byte>)
    requires 1 <= |x| <= 2
    ensures var r := Read(Rfc4648(x));
            && r.stop == AtPad && |r.values| == |x| + 1
            && |Unpacked(r.values)| > |x| && Unpacked(r.values)[..|x|] == x
  {
    hide SymbolOf, Char, Sextet, Group24, Begin0, Begin1, Begin2, Merge1, Merge2, Merge3, Out0, Out1, Out2, Out3;
    var b: Byte := if |x| == 2 then x[1] else 0;
    var g := Group24(x[0], b, 0);
    OutsAreSextets(x[0], b, 0);
    QuantumOfSextets(x[0], b, 0);
    OnlyPadIsPad(PAD);
    var values := if |x| == 1 then [Sextet(g, 0), Sextet(g, 1)] else [Sextet(g, 0), Sextet(g, 1), Sextet(g, 2)];
    var pads: seq<Byte> := if |x| == 1 then [PAD, PAD] else [PAD];
    ReadChars(values, pads);
    assert seq(|values|, i requires 0 <= i < |values| => Char(values[i])) + pads == Rfc4648(x);
    assert Read(pads) == Reading([], AtPad);
    assert values + [] == values;
    UnpackedQuantum(values);
  }

  /** Reading an encoded string back. */
  lemma {:induction false} ReadEncoded(x: seq<Byte>)
    ensures var r := Read(Rfc4648(x));
            && r.stop == (if |x| % 3 == 0 then AtEnd else AtPad)
            && |r.values| == |x| * 4 / 3 + (if |x| % 3 == 0 then 0 else 1)
            && |Unpacked(r.values)| >= |x| && Unpacked(r.values)[..|x|] == x
    decreases |x|
  {
    hide Read, Rfc4648, Unpacked;
    if |x| == 0 {
      ReadNothing();
    } else if |x| <= 2 {
      ReadLast(x);
    } else {
      ReadEncoded(x[3..]);
      ReadFirst(x);
      CountStep(|x|);
      Regrouped(x, Unpacked(Read(Rfc4648(x[3..])).values));
    }
  }

  lemma ReadNothing()
    ensures Read(Rfc4648([])) == Reading([], AtEnd)
  {
  }

  /** The first group of an encoding. */
  lemma ReadFirst(x: seq<Byte>)
    requires |x| >= 3
    ensures var r, rest := Read(Rfc4648(x)), Read(Rfc4648(x[3..]));
            && r.stop == rest.stop && |r.values| == 4 + |rest.values|
            && Unpacked(r.values) == x[..3] + Unpacked(rest.values)
  {
    hide SymbolOf, Char, Sextet, Group24, Read, Unpacked;
    ReadGroup(x[0], x[1], x[2], Rfc4648(x[3..]));
  }

  lemma CountStep(n: nat)
    requires n >= 3
    ensures (n - 3) % 3 == n % 3 && n * 4 / 3 == 4 + (n - 3) * 4 / 3
  {
  }

  lemma Regrouped(x: seq<Byte>, rest: seq<Byte>)
    requires |x| >= 3 && |rest| >= |x| - 3 && rest[..|x| - 3] == x[3..]
    ensures (x[..3] + rest)[..|x|] == x
  {
    assert (x[..3] + rest)[..|x|] == x[..3] + rest[..|x| - 3];
  }

  /** The number of values of an encoding tells how many bytes there were. */
  lemma ValueCount(n: nat, length: nat)
    requires n == length * 4 / 3 + (if length % 3 == 0 then 0 else 1)
    ensures n * 3 / 4 == length && n % 4 == (if length % 3 == 0 then 0 else length % 3 + 1)
  {
  }

  /** Decoding an encoded string gives the bytes back, with blanks inserted anywhere. */
  lemma RoundTrip(x: seq<Byte>, w: seq<Byte>)
    requires Stripped(w) == Rfc4648(x)
    ensures Decoded(w) == Some(x)
  {
    hide Read, Unpacked, Rfc4648, Stripped, Decoded;
    BlanksAreSkipped(w);
    ReadEncoded(x);
    ValueCount(|Read(w).values|, |x|);
    UnpackedLength(Read(w).values);
    DecodedFrom(x, w);
  }

  lemma DecodedFrom(x: seq<Byte>, w: seq<Byte>)
    requires var r := Read(w);
             && r.stop == (if |x| % 3 == 0 then AtEnd else AtPad) && |r.values| * 3 / 4 == |x|
             && |r.values| % 4 == (if |x| % 3 == 0 then 0 else |x| % 3 + 1)
             && |Unpacked(r.values)| == |x| + (if |x| % 3 == 0 then 0 else 1) && Unpacked(r.values)[..|x|] == x
    ensures Decoded(w) == Some(x)
  {
    hide Read, Unpacked;
    var u := Unpacked(Read(w).values);
    if |x| % 3 == 0 {
      assert u[..|x|] == u;
    }
  }
}
