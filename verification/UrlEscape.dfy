/** reSanitizeURL against pc_decode. Strings are sequences of bytes. */
module UrlEscape {
  type Byte = c: int | 0 <= c < 256

  const PERCENT: Byte := 0x25

  /** "0123456789ABCDEF"[v]. */
  function HexDigit(v: int): (c: Byte)
    requires 0 <= v < 16
  {
    if v < 10 then 0x30 + v else 0x41 + v - 10
  }

  function H2d(c: Byte): (d: int)
    ensures -1 <= d < 16
  {
    if 0x30 <= c <= 0x39 then c - 0x30
    else if 0x41 <= c <= 0x46 then 10 + c - 0x41
    else if 0x61 <= c <= 0x66 then 10 + c - 0x61
    else -1
  }

  predicate IsHex(c: Byte) {
    H2d(c) != -1
  }

  /** The digits, of either case, and their values. */
  lemma HexValues(c: Byte)
    ensures IsHex(c) <==> 0x30 <= c <= 0x39 || 0x41 <= c <= 0x46 || 0x61 <= c <= 0x66
    ensures forall v | 0 <= v < 16 ::
              H2d("0123456789ABCDEF"[v] as int) == H2d("0123456789abcdef"[v] as int) == v
  {
  }

  // ---------------------------------------------------------------- pc_decode

  function Decoded(s: seq<Byte>): seq<Byte>
    decreases |s|
  {
    if |s| <= 2 then s
    else if s[0] == PERCENT then
      (if IsHex(s[1]) && IsHex(s[2]) then [H2d(s[1]) * 16 + H2d(s[2])] else s[..3]) + Decoded(s[3..])
    else [s[0]] + Decoded(s[1..])
  }

  /** What one turn of the decoding loop puts out, and how far it moves. */
  lemma DecodedStep(input: seq<Byte>, i: nat)
    requires i + 2 < |input|
    ensures Decoded(input[i..]) ==
            if input[i] != PERCENT then [input[i]] + Decoded(input[i + 1..])
            else if IsHex(input[i + 1]) && IsHex(input[i + 2]) then
              [H2d(input[i + 1]) * 16 + H2d(input[i + 2])] + Decoded(input[i + 3..])
            else [PERCENT, input[i + 1], input[i + 2]] + Decoded(input[i + 3..])
  {
    hide H2d;
    var s := input[i..];
    assert s[1..] == input[i + 1..] && s[3..] == input[i + 3..];
    assert s[..3] == [input[i], input[i + 1], input[i + 2]];
  }

  lemma Regroup(a: seq<Byte>, b: seq<Byte>, c: seq<Byte>)
    ensures a + (b + c) == a + b + c
  {
  }

  /** The index loop of pc_decode, which skips two more characters after a percent sign. */
  method PcDecode(input: seq<Byte>) returns (out: seq<Byte>)
    ensures out == Decoded(input)
  {
    if |input| <= 2 {
      return input;
    }
    out := [];
    var i := 0;
    assert input[0..] == input;
    while i < |input| - 2
      invariant 0 <= i <= |input|
      invariant out + Decoded(input[i..]) == Decoded(input)
    {
      hide Decoded, H2d;
      DecodedStep(input, i);
      if input[i] == PERCENT {
        var d1 := H2d(input[i + 1]);
        var d2 := H2d(input[i + 2]);
        if d1 != -1 && d2 != -1 {
          Regroup(out, [d1 * 16 + d2], Decoded(input[i + 3..]));
          out := out + [d1 * 16 + d2];
        } else {
          Regroup(out, [PERCENT, input[i + 1], input[i + 2]], Decoded(input[i + 3..]));
          out := out + [PERCENT, input[i + 1], input[i + 2]];
        }
        i := i + 2;
      } else {
        Regroup(out, [input[i]], Decoded(input[i + 1..]));
        out := out + [input[i]];
      }
      i := i + 1;
    }
    while i < |input|
      invariant 0 <= i <= |input|
      invariant out + input[i..] == Decoded(input)
    {
      assert input[i..] == [input[i]] + input[i + 1..];
      out := out + [input[i]];
      i := i + 1;
    }
  }

  // ---------------------------------------------------------------- reSanitizeURL

  /** The characters that get escaped: controls, space, non-ASCII, and the configured ones. */
  predicate Escaped(c: Byte, listed: set<Byte>) {
    c <= 0x20 || c >= 0x7f || c in listed
  }

  function EscapedChar(c: Byte, listed: set<Byte>): (r: seq<Byte>) {
    if Escaped(c, listed) then [PERCENT, HexDigit(c / 16 % 16), HexDigit(c % 16)] else [c]
  }

  function Sanitized(u: seq<Byte>, listed: set<Byte>): seq<Byte> {
    if u == [] then [] else EscapedChar(u[0], listed) + Sanitized(u[1..], listed)
  }

  lemma SanitizedStep(input: seq<Byte>, i: nat, listed: set<Byte>)
    requires i < |input|
    ensures Sanitized(input[i..], listed) == EscapedChar(input[i], listed) + Sanitized(input[i + 1..], listed)
  {
    hide EscapedChar;
    assert input[i..][1..] == input[i + 1..];
  }

  method ReSanitizeURL(input: seq<Byte>, listed: set<Byte>) returns (out: seq<Byte>)
    ensures out == Sanitized(input, listed)
  {
    out := [];
    var i := 0;
    assert input[0..] == input;
    while i < |input|
      invariant 0 <= i <= |input|
      invariant out + Sanitized(input[i..], listed) == Sanitized(input, listed)
    {
      hide Sanitized, HexDigit;
      var c := input[i];
      SanitizedStep(input, i, listed);
      Regroup(out, EscapedChar(c, listed), Sanitized(input[i + 1..], listed));
      if c <= 0x20 || c >= 0x7f || c in listed {
        out := out + [PERCENT, HexDigit(c / 16 % 16), HexDigit(c % 16)];
      } else {
        out := out + [c];
      }
      i := i + 1;
    }
  }

  // ---------------------------------------------------------------- the meaning of a URL

  /** Every percent sign starts an escape sequence (section 2.1 of RFC 3986). */
  ghost predicate WellFormed(u: seq<Byte>) {
    forall i | 0 <= i < |u| && u[i] == 0x25 :: i + 2 < |u| && IsHex(u[i + 1]) && IsHex(u[i + 2])
  }

  /** A set of listed characters that cannot break an escape sequence. */
  ghost predicate SparesEscapes(listed: set<Byte>) {
    0x25 !in listed &&
    forall c | c in listed :: !(0x30 <= c <= 0x39) && !(0x41 <= c <= 0x46) && !(0x61 <= c <= 0x66)
  }

  lemma HexDigitDecodes(v: int)
    requires 0 <= v < 16
    ensures H2d(HexDigit(v)) == v && 0x30 <= HexDigit(v) < 0x7f
  {
  }

  lemma DecodedPlain(c: Byte, rest: seq<Byte>)
    requires c != PERCENT
    ensures Decoded([c] + rest) == [c] + Decoded(rest)
  {
    var s := [c] + rest;
    assert s[1..] == rest;
    if |s| <= 2 {
      assert Decoded(rest) == rest;
    }
  }

  lemma DecodedEscape(h1: Byte, h2: Byte, rest: seq<Byte>)
    requires IsHex(h1) && IsHex(h2)
    ensures Decoded([PERCENT, h1, h2] + rest) == [H2d(h1) * 16 + H2d(h2)] + Decoded(rest)
  {
    var s := [PERCENT, h1, h2] + rest;
    assert s[3..] == rest && s[1] == h1 && s[2] == h2;
  }

  /** A percent sign without two digits, and the last two characters, stay as they are. */
  lemma DecodedOther(c1: Byte, c2: Byte, rest: seq<Byte>)
    requires !(IsHex(c1) && IsHex(c2))
    ensures Decoded([0x25, c1, c2] + rest) == [0x25, c1, c2] + Decoded(rest)
    ensures |rest| <= 2 ==> Decoded(rest) == rest
  {
    var s := [0x25, c1, c2] + rest;
    assert s[3..] == rest && s[1] == c1 && s[2] == c2;
    assert s[..3] == [0x25, c1, c2];
  }

  lemma WellFormedSuffix(u: seq<Byte>, k: nat)
    requires WellFormed(u) && k <= |u|
    ensures WellFormed(u[k..])
  {
    hide H2d;
    forall i | 0 <= i < |u[k..]| && u[k..][i] == PERCENT
      ensures i + 2 < |u[k..]| && IsHex(u[k..][i + 1]) && IsHex(u[k..][i + 2])
    {
      assert u[k..][i] == u[k + i];
    }
  }

  lemma SanitizedAppend(a: seq<Byte>, b: seq<Byte>, listed: set<Byte>)
    ensures Sanitized(a + b, listed) == Sanitized(a, listed) + Sanitized(b, listed)
  {
    if a == [] {
      assert a + b == b;
    } else {
      SanitizedAppend(a[1..], b, listed);
      assert (a + b)[1..] == a[1..] + b;
    }
  }

  predicate Clean(u: seq<Byte>, listed: set<Byte>) {
    forall c | c in u :: 0x20 < c < 0x7f && c !in listed
  }

  lemma CleanFirst(u: seq<Byte>, listed: set<Byte>)
    requires u != []
    ensures Clean(u, listed) <==> !Escaped(u[0], listed) && Clean(u[1..], listed)
  {
    assert u[0] in u && (forall c | c in u[1..] :: c in u) && forall c | c in u :: c == u[0] || c in u[1..];
  }

  lemma {:induction false} SanitizedLength(u: seq<Byte>, listed: set<Byte>)
    ensures |Sanitized(u, listed)| >= |u|
    ensures |Sanitized(u, listed)| == |u| <==> Clean(u, listed)
  {
    if u != [] {
      SanitizedLength(u[1..], listed);
      CleanFirst(u, listed);
      hide Clean, Escaped, HexDigit;
    }
  }

  /** What becomes of a character: it is kept, or written as a percent sign and two upper-case digits. */
  lemma SanitizedChar(c: Byte, listed: set<Byte>)
    ensures Sanitized([c], listed) ==
            if 0x20 < c < 0x7f && c !in listed then [c]
            else [0x25, "0123456789ABCDEF"[c / 16] as int, "0123456789ABCDEF"[c % 16] as int]
  {
    UpperCaseDigit(c / 16);
    UpperCaseDigit(c % 16);
    hide HexDigit;
    assert [c][1..] == [];
  }

  lemma UpperCaseDigit(v: int)
    requires 0 <= v < 16
    ensures HexDigit(v) == "0123456789ABCDEF"[v] as int
  {
  }

  lemma {:induction false} SanitizedKept(u: seq<Byte>, listed: set<Byte>)
    requires Clean(u, listed)
    ensures Sanitized(u, listed) == u
  {
    if u != [] {
      CleanFirst(u, listed);
      hide Clean, Escaped, HexDigit;
      SanitizedKept(u[1..], listed);
    }
  }

  /** Re-escaping keeps what a URL decodes to. */
  lemma {:induction false} KeepsMeaning(u: seq<Byte>, listed: set<Byte>)
    requires WellFormed(u) && SparesEscapes(listed)
    ensures Decoded(Sanitized(u, listed)) == Decoded(u)
    decreases |u|
  {
    hide H2d, HexDigit, Decoded;
    if u == [] {
    } else if u[0] == PERCENT {
      var rest := u[3..];
      WellFormedSuffix(u, 3);
      assert u == [PERCENT, u[1], u[2]] + rest;
      KeepsMeaning(rest, listed);
      SanitizedAppend([PERCENT, u[1], u[2]], rest, listed);
      SanitizedKept([PERCENT, u[1], u[2]], listed) by {
        HexValues(u[1]);
        HexValues(u[2]);
      }
      DecodedEscape(u[1], u[2], rest);
      DecodedEscape(u[1], u[2], Sanitized(rest, listed));
    } else {
      var c, rest := u[0], u[1..];
      WellFormedSuffix(u, 1);
      assert u == [c] + rest;
      KeepsMeaning(rest, listed);
      DecodedPlain(c, rest);
      if Escaped(c, listed) {
        HexDigitDecodes(c / 16 % 16);
        HexDigitDecodes(c % 16);
        DecodedEscape(HexDigit(c / 16 % 16), HexDigit(c % 16), Sanitized(rest, listed));
      } else {
        DecodedPlain(c, Sanitized(rest, listed));
      }
    }
  }

  ghost predicate AlwaysKeepsMeaning(listed: set<Byte>) {
    forall u | WellFormed(u) :: Decoded(Sanitized(u, listed)) == Decoded(u)
  }

  /** A listed percent sign or hex digit breaks the escape sequence %d0 for that digit. */
  lemma BreaksMeaning(listed: set<Byte>)
    requires !SparesEscapes(listed)
    ensures !AlwaysKeepsMeaning(listed)
  {
    var d: Byte := 0x34;
    if PERCENT !in listed {
      d :| d in listed && (0x30 <= d <= 0x39 || 0x41 <= d <= 0x46 || 0x61 <= d <= 0x66);
      HexValues(d);
    }
    var u: seq<Byte> := [PERCENT, d, 0x30];
    DecodedEscape(d, 0x30, []);
    assert u + [] == u;
    var s := Sanitized(u, listed);
    assert s == EscapedChar(PERCENT, listed) + (EscapedChar(d, listed) + Sanitized(u[2..], listed)) by {
      assert u[0..] == u;
      SanitizedStep(u, 0, listed);
      SanitizedStep(u, 1, listed);
    }
    SanitizedLength(u[2..], listed);
    StartsWithPercent(s);
    assert WellFormed(u) && Decoded(u)[0] == H2d(d) * 16;
  }

  /** "%25" decodes to a percent sign, and two percent signs stay. */
  lemma StartsWithPercent(s: seq<Byte>)
    requires |s| > 2 && s[0] == PERCENT
    requires s[1] == PERCENT || (s[1] == HexDigit(2) && s[2] == HexDigit(5))
    ensures |Decoded(s)| > 0 && Decoded(s)[0] == PERCENT
  {
    assert s[0..] == s;
    DecodedStep(s, 0);
  }

  /** reSanitizeURL keeps the meaning of every well-formed URL exactly when neither the
      percent sign nor a hex digit, of either case, is listed. */
  lemma KeepsMeaningIff(listed: set<Byte>)
    ensures AlwaysKeepsMeaning(listed) <==> SparesEscapes(listed)
  {
    if SparesEscapes(listed) {
      forall u | WellFormed(u) ensures Decoded(Sanitized(u, listed)) == Decoded(u) {
        KeepsMeaning(u, listed);
      }
    } else {
      BreaksMeaning(listed);
    }
  }

  // ---------------------------------------------------------------- the form of the output

  /** A set of listed characters that the escapes written here do not use. */
  ghost predicate SparesOutput(listed: set<Byte>) {
    0x25 !in listed && forall c | c in listed :: !(0x30 <= c <= 0x39) && !(0x41 <= c <= 0x46)
  }

  lemma {:induction false} OutputIsClean(u: seq<Byte>, listed: set<Byte>)
    requires SparesOutput(listed)
    ensures Clean(Sanitized(u, listed), listed)
  {
    if u != [] {
      OutputIsClean(u[1..], listed);
      var c := u[0];
      if Escaped(c, listed) {
        HexDigitDecodes(c / 16 % 16);
        HexDigitDecodes(c % 16);
      }
    }
  }

  ghost predicate AlwaysClean(listed: set<Byte>) {
    forall u: seq<Byte> :: Clean(Sanitized(u, listed), listed)
  }

  ghost predicate Idempotent(listed: set<Byte>) {
    forall u: seq<Byte> :: Sanitized(Sanitized(u, listed), listed) == Sanitized(u, listed)
  }

  /** The output has no control, space, non-ASCII or listed character, and sanitizing twice is
      sanitizing once, exactly when neither the percent sign nor an upper case hex digit is
      listed. No condition on the URL. */
  lemma CleanIff(listed: set<Byte>)
    ensures AlwaysClean(listed) <==> SparesOutput(listed)
    ensures Idempotent(listed) <==> SparesOutput(listed)
  {
    if SparesOutput(listed) {
      forall u: seq<Byte> ensures Clean(Sanitized(u, listed), listed) &&
                                  Sanitized(Sanitized(u, listed), listed) == Sanitized(u, listed) {
        OutputIsClean(u, listed);
        SanitizedKept(Sanitized(u, listed), listed);
      }
    } else {
      var v := 0;
      if PERCENT !in listed {
        var c :| c in listed && (0x30 <= c <= 0x39 || 0x41 <= c <= 0x46);
        v := if c <= 0x39 then c - 0x30 else c - 0x37;
        assert HexDigit(v) == c;
      }
      var u: seq<Byte> := [v];
      var s := Sanitized(u, listed);
      assert s == [PERCENT, HexDigit(0), HexDigit(v)] + Sanitized(u[1..], listed);
      assert PERCENT in s && HexDigit(v) in s;
      assert !Clean(s, listed);
      SanitizedLength(s, listed);
    }
  }
}
