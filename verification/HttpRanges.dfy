/** parseHTTPRanges against the decimal printer lltodecstr. */
module HttpRanges {
  import opened Options
  import opened StringUtils

  const INT64_LIMIT := 0x8000_0000_0000_0000

  // ---------------------------------------------------------------- printing numbers

  function DigitChar(d: int): (c: char)
    requires 0 <= d < 10
  {
    '0' + d as char
  }

  predicate IsDigit(c: char) {
    '0' <= c <= '9'
  }

  function DigitValue(c: char): nat
    requires IsDigit(c)
  {
    c as int - '0' as int
  }

  /** Decimal notation, most significant digit first. */
  function Digits(n: nat): (s: string)
    ensures s != []
  {
    (if n < 10 then [] else Digits(n / 10)) + [DigitChar(n % 10)]
  }

  function Decimal(val: int): string {
    if val < 0 then ['-'] + Digits(-val) else Digits(val)
  }

  function Power10(k: nat): nat {
    if k == 0 then 1 else 10 * Power10(k - 1)
  }

  lemma {:induction false} DigitsLength(n: nat, k: nat)
    requires k >= 1 && n < Power10(k)
    ensures |Digits(n)| <= k
    decreases k
  {
    if n >= 10 {
      DigitsLength(n / 10, k - 1);
    }
  }

  /** Numbers of 64 bits have at most 19 digits. */
  lemma Int64Digits(n: nat)
    requires n <= INT64_LIMIT
    ensures |Digits(n)| <= 19
  {
    assert Power10(5) == 100_000;
    assert Power10(10) == 100_000 * 100_000;
    assert Power10(15) == 100_000 * 100_000 * 100_000;
    assert Power10(19) == 10_000 * 100_000 * 100_000 * 100_000;
    DigitsLength(n, 19);
  }

  /** lltodecstr: digits are written from the end of a 30-byte buffer. The most negative value
      is left out because negating it overflows. */
  method ToDecimal(value: int) returns (buf: string)
    requires -INT64_LIMIT < value < INT64_LIMIT
    ensures buf == Decimal(value)
  {
    if value == 0 {
      return "0";
    }
    var neg := value < 0;
    var val := if neg then -value else value;
    Int64Digits(val);
    ghost var digits := Digits(val);
    var rbuf := new char[30];
    var idx := 29;
    rbuf[idx] := 0 as char;
    idx := idx - 1;
    while true
      invariant val > 0 && idx <= 28
      invariant Digits(val) + rbuf[idx + 1..29] == digits
      decreases val
    {
      assert |Digits(val)| + (28 - idx) == |digits|;
      rbuf[idx] := DigitChar(val % 10);
      idx := idx - 1;
      val := val / 10;
      if val == 0 {
        break;
      }
    }
    assert rbuf[idx + 1..29] == digits;
    if neg {
      rbuf[idx] := '-';
      idx := idx - 1;
    }
    buf := rbuf[idx + 1..29];
  }

  // ---------------------------------------------------------------- reading numbers

  /** The white space of the C library, and that of trimstring. */
  const C_SPACE := {' ', '\t', '\n', 11 as char, 12 as char, '\r'}
  const BLANKS := {' ', '\t'}

  /** The value of the digits a string starts with, acc being that of the digits before. */
  function Leading(s: string, acc: int): int {
    if s == [] || !IsDigit(s[0]) then acc else Leading(s[1..], 10 * acc + DigitValue(s[0]))
  }

  /** atoll, for numbers that fit: optional white space, sign and digits; anything after them
      is ignored. */
  function Atoll(s: string): int {
    var t := TrimmedLeft(s, C_SPACE);
    if t != [] && t[0] == '-' then -Leading(t[1..], 0)
    else if t != [] && t[0] == '+' then Leading(t[1..], 0)
    else Leading(t, 0)
  }

  predicate AllDigits(s: string) {
    forall c | c in s :: IsDigit(c)
  }

  lemma {:induction false} LeadingAppend(s: string, d: char, acc: int)
    requires AllDigits(s) && IsDigit(d)
    ensures Leading(s + [d], acc) == 10 * Leading(s, acc) + DigitValue(d)
    decreases |s|
  {
    if s == [] {
      assert [] + [d] == [d];
    } else {
      assert (s + [d])[1..] == s[1..] + [d];
      LeadingAppend(s[1..], d, 10 * acc + DigitValue(s[0]));
    }
  }

  lemma {:induction false} DigitsRead(n: nat)
    ensures AllDigits(Digits(n)) && Leading(Digits(n), 0) == n
    decreases n
  {
    if n < 10 {
      assert Digits(n) == [DigitChar(n)];
    } else {
      DigitsRead(n / 10);
      LeadingAppend(Digits(n / 10), DigitChar(n % 10), 0);
    }
  }

  lemma {:induction false} LeadingStops(s: string, rest: string, acc: int)
    requires AllDigits(s) && (rest == [] || !IsDigit(rest[0]))
    ensures Leading(s + rest, acc) == Leading(s, acc)
    decreases |s|
  {
    if s == [] {
      assert s + rest == rest;
    } else {
      assert (s + rest)[1..] == s[1..] + rest;
      LeadingStops(s[1..], rest, 10 * acc + DigitValue(s[0]));
    }
  }

  /** Reading back what was printed, with the white space of the C library before it, a plus sign or none, and
      anything but a digit after it. */
  lemma DecimalRoundTrip(before: string, val: int, rest: string)
    requires Blank(before, {' ', '\t', '\n', 11 as char, 12 as char, '\r'}) && (rest == [] || rest[0] !in "0123456789")
    ensures Atoll(before + Decimal(val) + rest) == val
    ensures val >= 0 ==> Atoll(before + ['+'] + Decimal(val) + rest) == val
  {
    var n := if val < 0 then -val else val;
    DigitsRead(n);
    assert IsDigit(Digits(n)[0]) by {
      assert Digits(n)[0] in Digits(n);
    }
    if rest != [] {
      NoDigit(rest[0]);
    }
    LeadingStops(Digits(n), rest, 0);
    SignedRead(before, [], Digits(n), rest);
    SignedRead(before, ['+'], Digits(n), rest);
    SignedRead(before, ['-'], Digits(n), rest);
    assert [] + Digits(n) == Digits(n);
    assert before + [] == before;
    assert before + ['-'] + Digits(n) == before + (['-'] + Digits(n));
  }

  lemma NoDigit(c: char)
    ensures IsDigit(c) <==> c in "0123456789"
  {
    if IsDigit(c) {
      assert "0123456789"[c as int - '0' as int] == c;
    }
  }

  lemma SignedRead(before: string, sign: string, digits: string, rest: string)
    requires Blank(before, C_SPACE) && sign in {[], ['+'], ['-']} && digits != [] && IsDigit(digits[0])
    ensures Atoll(before + sign + digits + rest) ==
            if sign == ['-'] then -Leading(digits + rest, 0) else Leading(digits + rest, 0)
  {
    var t := sign + digits + rest;
    assert before + sign + digits + rest == before + t;
    TrimmedLeftBlanks(before, t, C_SPACE);
    hide TrimmedLeft;
    assert TrimmedLeft(t, C_SPACE) == t by { NothingTrimmed(t, C_SPACE); }
    if sign == [] {
      assert t == digits + rest;
    } else {
      assert t[1..] == digits + rest;
    }
  }

  lemma NothingTrimmed(t: string, ws: set<char>)
    requires t == [] || t[0] !in ws
    ensures TrimmedLeft(t, ws) == t
  {
  }

  // ---------------------------------------------------------------- the header

  /** A byte range; -1 stands for an absent side. */
  datatype Range = Range(start: int, end: int)

  /** One side of a range. */
  function Side(text: string): int {
    var t := Trimmed(text, BLANKS);
    if t == [] then -1 else Atoll(t)
  }

  /** The substring after the dash: up to the comma, but up to the end when the comma comes before
      the dash, as its length is then a huge unsigned number. */
  function SecondPart(s: string, dash: nat, comma: Option<nat>): string
    requires dash < |s| && (comma.Some? ==> comma.value < |s|)
  {
    if comma.Some? && dash < comma.value then s[dash + 1..comma.value] else s[dash + 1..]
  }

  /** Whether a list parses, and the ranges read up to its end or the first failure. */
  datatype Reading = Reading(ok: bool, ranges: seq<Range>)

  function ParsedList(s: string): Reading
    decreases |s|
  {
    var dash := Find(s, '-');
    if dash.None? then Reading(false, [])
    else
      var comma := Find(s, ',');
      var r := Range(Side(s[..dash.value]), Side(SecondPart(s, dash.value, comma)));
      if r == Range(-1, -1) then Reading(false, [])
      else if comma.None? then Reading(true, [r])
      else After([r], ParsedList(s[comma.value + 1..]))
  }

  function After(before: seq<Range>, r: Reading): Reading {
    r.(ranges := before + r.ranges)
  }

  function Parsed(header: string): Reading {
    var start := FindString(header, "bytes=");
    if start.None? then Reading(false, []) else ParsedList(header[start.value + 6..])
  }

  method ParseSide(text: string) returns (v: int)
    ensures v == Side(text)
  {
    var part := TrimString(text, BLANKS);
    v := if part == [] then -1 else Atoll(part);
  }

  /** The result when the ranges in `before` were read and what remains starts at pos. */
  function Continued(before: seq<Range>, s: string, pos: nat): Reading
    requires pos <= |s|
  {
    After(before, ParsedList(s[pos..]))
  }

  /** The range read at pos, with its dash and comma. */
  function RangeAt(s: string, pos: nat, dash: nat, comma: Option<nat>): Range
    requires pos <= dash < |s| && (comma.Some? ==> comma.value < |s|)
  {
    Range(Side(s[pos..dash]), Side(SecondPart(s, dash, comma)))
  }

  /** The list that starts at pos, with positions in the whole string. */
  lemma ParsedAt(s: string, pos: nat, dash: nat, comma: Option<nat>)
    requires pos <= |s|
    requires FindAt(s, '-', pos) == Some(dash) && FindAt(s, ',', pos) == comma
    ensures var r := RangeAt(s, pos, dash, comma);
            ParsedList(s[pos..]) ==
            if r == Range(-1, -1) then Reading(false, [])
            else if comma.None? then Reading(true, [r])
            else After([r], ParsedList(s[comma.value + 1..]))
  {
    hide Find, Side, After;
    var t := s[pos..];
    assert s[pos..dash] == t[..dash - pos];
    assert SecondPart(s, dash, comma) == SecondPart(t, dash - pos, Find(t, ','));
    hide SecondPart;
    if comma.Some? {
      assert t[comma.value - pos + 1..] == s[comma.value + 1..];
    }
  }

  lemma AfterAfter(before: seq<Range>, r: Range, rest: Reading)
    ensures After(before, After([r], rest)) == After(before + [r], rest)
    ensures After(before, Reading(false, [])) == Reading(false, before)
  {
    assert before + ([r] + rest.ranges) == before + [r] + rest.ranges;
    assert before + [] == before;
  }

  /** Reading one more range. */
  lemma ContinuedStep(before: seq<Range>, s: string, pos: nat, dash: nat, comma: Option<nat>)
    requires pos <= |s|
    requires FindAt(s, '-', pos) == Some(dash) && FindAt(s, ',', pos) == comma
    ensures var r := RangeAt(s, pos, dash, comma);
            Continued(before, s, pos) ==
            if r == Range(-1, -1) then Reading(false, before)
            else if comma.None? then Reading(true, before + [r])
            else Continued(before + [r], s, comma.value + 1)
  {
    ParsedAt(s, pos, dash, comma);
    hide ParsedList, RangeAt;
    AfterAfter(before, RangeAt(s, pos, dash, comma),
               if comma.Some? then ParsedList(s[comma.value + 1..]) else Reading(false, []));
  }

  lemma NoDash(before: seq<Range>, s: string, pos: nat)
    requires pos <= |s| && FindAt(s, '-', pos).None?
    ensures Continued(before, s, pos) == Reading(false, before)
  {
    assert before + [] == before;
  }

  lemma ContinuedStart(ranges: string, pos: nat)
    requires var start := FindString(ranges, "bytes="); start.Some? ==> pos == start.value + 6
    ensures Parsed(ranges) ==
            if FindString(ranges, "bytes=").None? then Reading(false, []) else Continued([], ranges, pos)
  {
    hide ParsedList, FindString;
    if FindString(ranges, "bytes=").Some? {
      var rs := ParsedList(ranges[pos..]).ranges;
      assert [] + rs == rs;
    }
  }

  /** The two sides of the range at pos. */
  method ReadRange(s: string, pos: nat, dash: nat, comma: Option<nat>) returns (r: Range)
    requires pos <= dash < |s| && (comma.Some? ==> comma.value < |s|)
    ensures r == RangeAt(s, pos, dash, comma)
  {
    hide Side, SecondPart;
    var start := ParseSide(s[pos..dash]);
    var fin := ParseSide(SecondPart(s, dash, comma));
    r := Range(start, fin);
  }

  /** parseHTTPRanges; on failure `oranges` holds the ranges read before. */
  method ParseHTTPRanges(ranges: string) returns (ok: bool, oranges: seq<Range>)
    ensures Parsed(ranges) == Reading(ok, oranges)
  {
    hide *;
    oranges := [];
    var start := FindText(ranges, "bytes=");
    ContinuedStart(ranges, if start.None? then 0 else start.value + 6);
    if start.None? {
      return false, oranges;
    }
    var pos := start.value + 6;
    var done := false;
    while !done
      invariant pos <= |ranges|
      invariant Parsed(ranges) == if done then Reading(true, oranges) else Continued(oranges, ranges, pos)
      decreases !done, |ranges| - pos
    {
      var dash := FindFrom(ranges, '-', pos);
      if dash.None? {
        NoDash(oranges, ranges, pos);
        return false, oranges;
      }
      var comma := FindFrom(ranges, ',', pos);
      ContinuedStep(oranges, ranges, pos, dash.value, comma);
      var r := ReadRange(ranges, pos, dash.value, comma);
      if r.start == -1 && r.end == -1 {
        return false, oranges;
      }
      oranges := oranges + [r];
      if comma.Some? {
        pos := comma.value + 1;
      }
      done := comma.None?;
    }
    ok := true;
  }

  // ---------------------------------------------------------------- round trip

  predicate ValidRange(r: Range) {
    -1 <= r.start < INT64_LIMIT && -1 <= r.end < INT64_LIMIT && r != Range(-1, -1)
  }

  function Number(v: int): string {
    if v == -1 then [] else Decimal(v)
  }

  /** Optional blanks around the two numbers. */
  datatype Padding = Padding(b0: string, b1: string, b2: string, b3: string)

  predicate ValidPadding(p: Padding) {
    forall b | b in {p.b0, p.b1, p.b2, p.b3} :: Blank(b, {' ', '\t'})
  }

  function LeftOf(r: Range, p: Padding): string { p.b0 + Number(r.start) + p.b1 }
  function RightOf(r: Range, p: Padding): string { p.b2 + Number(r.end) + p.b3 }

  /** The byte-ranges form of section 14.1.2 of RFC 9110, with optional blanks. */
  function PrintedList(rs: seq<Range>, ps: seq<Padding>): string
    requires |rs| == |ps| > 0
  {
    var item := LeftOf(rs[0], ps[0]) + ['-'] + RightOf(rs[0], ps[0]);
    if |rs| == 1 then item else item + [','] + PrintedList(rs[1..], ps[1..])
  }

  function Printed(rs: seq<Range>, ps: seq<Padding>): string
    requires |rs| == |ps| > 0
  {
    "bytes=" + PrintedList(rs, ps)
  }

  /** Any number reads back, with blanks around it, a negative one too. */
  lemma SideOfNumber(v: int, before: string, after: string)
    requires Blank(before, {' ', '\t'}) && Blank(after, {' ', '\t'})
    ensures Side(before + Decimal(v) + after) == v
  {
    DigitsRead(if v < 0 then -v else v);
    DecimalRoundTrip([], v, []);
    assert [] + Decimal(v) + [] == Decimal(v);
    DecimalIsTight(v);
    hide Decimal, Atoll;
    TrimsBlanks(before, Decimal(v), after, BLANKS);
  }

  lemma DecimalIsTight(v: int)
    ensures Decimal(v) != [] && Tight(Decimal(v), BLANKS)
  {
    var digits := Digits(if v < 0 then -v else v);
    DigitsRead(if v < 0 then -v else v);
    assert digits[0] in digits && digits[|digits| - 1] in digits;
    assert v < 0 ==> Decimal(v)[|digits|] == digits[|digits| - 1];
  }

  /** A padded number has neither dash nor comma, and reads back. */
  lemma SideRoundTrip(v: int, before: string, after: string)
    requires -1 <= v && Blank(before, BLANKS) && Blank(after, BLANKS)
    ensures var text := before + Number(v) + after;
            '-' !in text && ',' !in text && Side(text) == v
  {
    if v != -1 {
      DigitsRead(v);
      SideOfNumber(v, before, after);
    } else {
      TrimsBlanks(before, [], after, BLANKS);
    }
    assert AllDigits(Number(v));
  }

  /** A printed item without a comma after it is a whole list. */
  lemma LastItem(l: string, r: string, range: Range)
    requires '-' !in l && ',' !in l && ',' !in r
    requires range == Range(Side(l), Side(r)) && range != Range(-1, -1)
    ensures ParsedList(l + ['-'] + r) == Reading(true, [range])
  {
    hide Side, Find;
    var s := l + ['-'] + r;
    FindAfter(l, '-', r);
    FindNone(s, ',');
    assert s[..|l|] == l && s[|l| + 1..] == r;
  }

  /** ... and with a comma it is the first of a list. */
  lemma FirstItem(l: string, r: string, rest: string, range: Range)
    requires '-' !in l && ',' !in l && ',' !in r
    requires range == Range(Side(l), Side(r)) && range != Range(-1, -1)
    ensures ParsedList(l + ['-'] + r + [','] + rest) == After([range], ParsedList(rest))
  {
    hide Side, Find, ParsedList, After;
    var s := l + ['-'] + r + [','] + rest;
    FirstSeparators(l, r, rest);
    var comma := |l| + 1 + |r|;
    assert s[..|l|] == l && s[|l| + 1..comma] == r && s[comma + 1..] == rest;
    ParsedStep(s, |l|, comma);
  }

  lemma FirstSeparators(l: string, r: string, rest: string)
    requires '-' !in l && ',' !in l && ',' !in r
    ensures var s := l + ['-'] + r + [','] + rest;
            Find(s, '-') == Some(|l|) && Find(s, ',') == Some(|l| + 1 + |r|)
  {
    hide Find;
    var tail := r + [','] + rest;
    assert l + ['-'] + r + [','] + rest == l + ['-'] + tail;
    FindAfter(l, '-', tail);
    FindAfter(l + ['-'] + r, ',', rest);
  }

  lemma ParsedStep(s: string, dash: nat, comma: nat)
    requires Find(s, '-') == Some(dash) && Find(s, ',') == Some(comma) && dash < comma
    ensures var r := Range(Side(s[..dash]), Side(s[dash + 1..comma]));
            ParsedList(s) == if r == Range(-1, -1) then Reading(false, []) else After([r], ParsedList(s[comma + 1..]))
  {
    hide Side, Find;
  }

  lemma {:induction false} ListRoundTrip(rs: seq<Range>, ps: seq<Padding>)
    requires |rs| == |ps| > 0
    requires forall i | 0 <= i < |rs| :: ValidRange(rs[i]) && ValidPadding(ps[i])
    ensures ParsedList(PrintedList(rs, ps)) == Reading(true, rs)
    decreases |rs|
  {
    hide Side, Number, Find, Blank, ParsedList;
    var l, r := LeftOf(rs[0], ps[0]), RightOf(rs[0], ps[0]);
    SideRoundTrip(rs[0].start, ps[0].b0, ps[0].b1);
    SideRoundTrip(rs[0].end, ps[0].b2, ps[0].b3);
    if |rs| == 1 {
      LastItem(l, r, rs[0]);
      assert rs == [rs[0]];
    } else {
      ListRoundTrip(rs[1..], ps[1..]);
      FirstItem(l, r, PrintedList(rs[1..], ps[1..]), rs[0]);
      assert [rs[0]] + rs[1..] == rs;
    }
  }

  /** Printing a list of ranges and parsing it gives the list back. */
  lemma RangesRoundTrip(rs: seq<Range>, ps: seq<Padding>)
    requires |rs| == |ps| > 0
    requires forall i | 0 <= i < |rs| :: ValidRange(rs[i]) && ValidPadding(ps[i])
    ensures Parsed(Printed(rs, ps)) == Reading(true, rs)
  {
    hide PrintedList, ParsedList;
    ListRoundTrip(rs, ps);
    var h := Printed(rs, ps);
    assert h[..6] == "bytes=" && h[6..] == PrintedList(rs, ps);
  }

  // ---------------------------------------------------------------- other headers

  /** A header without "bytes=" fails; text before it is ignored. */
  lemma HeaderStart(before: string, list: string, header: string)
    requires 'b' !in before
    ensures Parsed(before + "bytes=" + list) == ParsedList(list)
    ensures (forall i: nat :: !OccursAt(header, "bytes=", i)) ==> Parsed(header) == Reading(false, [])
  {
    FindStringAfter(before, "bytes=", list);
    hide FindString, ParsedList;
    assert (before + "bytes=" + list)[|before| + 6..] == list;
    var start := FindString(header, "bytes=");
    assert start.Some? ==> OccursAt(header, "bytes=", start.value);
  }

  lemma BlankSide(text: string)
    requires Blank(text, {' ', '\t'})
    ensures Side(text) == -1
    ensures '-' !in text && ',' !in text
  {
    TrimsBlanks(text, [], [], BLANKS);
    assert text + [] + [] == text;
  }

  /** A list without a dash fails, and so does one that starts with an item without numbers, whatever follows. */
  lemma EmptyItemFails(s: string, l: string, r: string, rest: string)
    requires Blank(l, {' ', '\t'}) && Blank(r, {' ', '\t'})
    ensures '-' !in s ==> ParsedList(s) == Reading(false, [])
    ensures ParsedList(l + ['-'] + r) == Reading(false, [])
    ensures ParsedList(l + ['-'] + r + [','] + rest) == Reading(false, [])
  {
    if '-' !in s {
      FindNone(s, '-');
    }
    BlankSide(l);
    BlankSide(r);
    hide Side, Find;
    var t := l + ['-'] + r;
    FindAfter(l, '-', r);
    FindNone(t, ',');
    assert t[..|l|] == l && t[|l| + 1..] == r;
    FirstSeparators(l, r, rest);
    var u, comma := t + [','] + rest, |l| + 1 + |r|;
    assert u[..|l|] == l && u[|l| + 1..comma] == r;
    ParsedStep(u, |l|, comma);
  }

  /** A comma before the first dash: the first range has the text up to the dash on its left, comma included, and
      all the rest of the header on its right; reading goes on after the comma. */
  lemma CommaBeforeDash(a: string, b: string, c: string)
    requires '-' !in a && ',' !in a && '-' !in b
    ensures var r, rest := Range(Side(a + [','] + b), Side(c)), ParsedList(b + ['-'] + c);
            ParsedList(a + [','] + b + ['-'] + c) ==
            if r == Range(-1, -1) then Reading(false, []) else Reading(rest.ok, [r] + rest.ranges)
  {
    var s, l := a + [','] + b + ['-'] + c, a + [','] + b;
    FindAfter(l, '-', c);
    FindAfter(a, ',', b + ['-'] + c);
    assert s == a + [','] + (b + ['-'] + c);
    hide Side, Find;
    assert s[..|l|] == l && s[|l| + 1..] == c && s[|a| + 1..] == b + ['-'] + c;
  }
}
