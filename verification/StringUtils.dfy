/** The std::string searches and the trimstring family. */
module StringUtils {
  import opened Options

  /** Position of the first character c. */
  function Find(s: string, c: char): (r: Option<nat>)
    ensures r.Some? ==> r.value < |s|
  {
    if s == [] then None
    else if s[0] == c then Some(0)
    else match Find(s[1..], c)
      case None => None
      case Some(i) => Some(i + 1)
  }

  /** ... and from a position on, as std::string::find counts it. */
  function FindAt(s: string, c: char, pos: nat): (r: Option<nat>)
    requires pos <= |s|
    ensures r.Some? ==> pos <= r.value < |s|
  {
    match Find(s[pos..], c)
    case None => None
    case Some(i) => Some(pos + i)
  }

  method FindFrom(s: string, c: char, pos: nat) returns (r: Option<nat>)
    requires pos <= |s|
    ensures r == FindAt(s, c, pos)
  {
    var i := pos;
    while i < |s| && s[i] != c
      invariant pos <= i <= |s|
      invariant FindAt(s, c, i) == FindAt(s, c, pos)
      decreases |s| - i
    {
      assert s[i..][1..] == s[i + 1..];
      i := i + 1;
    }
    r := if i < |s| then Some(i) else None;
  }

  /** The first c is found right after a part without any. */
  lemma {:induction false} FindAfter(a: string, c: char, b: string)
    requires c !in a
    ensures Find(a + [c] + b, c) == Some(|a|)
  {
    if a != [] {
      FindAfter(a[1..], c, b);
      assert (a + [c] + b)[1..] == a[1..] + [c] + b;
    }
  }

  lemma FindNone(s: string, c: char)
    requires c !in s
    ensures Find(s, c) == None
  {
  }

  /** Position of the first occurrence of a nonempty string. */
  function FindString(s: string, key: string): (r: Option<nat>)
    requires key != []
    ensures r.Some? ==> r.value + |key| <= |s| && s[r.value..r.value + |key|] == key
  {
    if |s| < |key| then None
    else if s[..|key|] == key then Some(0)
    else match FindString(s[1..], key)
      case None => None
      case Some(i) => assert s[i + 1..i + 1 + |key|] == s[1..][i..i + |key|]; Some(i + 1)
  }

  predicate OccursAt(s: string, key: string, i: nat) {
    i + |key| <= |s| && s[i..i + |key|] == key
  }

  /** The search finds the first occurrence, if there is one. */
  lemma {:induction false} FirstOccurrence(s: string, key: string, i: nat)
    requires key != [] && OccursAt(s, key, i)
    ensures var r := FindString(s, key);
            r.Some? && r.value <= i && OccursAt(s, key, r.value)
    decreases |s|
  {
    if s[..|key|] != key {
      assert i > 0 && s[1..][i - 1..i - 1 + |key|] == s[i..i + |key|];
      FirstOccurrence(s[1..], key, i - 1);
    }
  }

  /** One step of the search, at position i. */
  lemma FindStringAt(s: string, key: string, i: nat)
    requires key != [] && i <= |s|
    ensures i + |key| > |s| ==> FindString(s[i..], key) == None
    ensures i + |key| <= |s| && s[i..i + |key|] == key ==> FindString(s[i..], key) == Some(0)
    ensures i + |key| <= |s| && s[i..i + |key|] != key ==>
              FindString(s[i..], key) == (match FindString(s[i + 1..], key)
                                          case None => None
                                          case Some(k) => Some(k + 1))
  {
    if i + |key| <= |s| {
      assert s[i..][..|key|] == s[i..i + |key|] && s[i..][1..] == s[i + 1..];
    }
  }

  method FindText(s: string, key: string) returns (r: Option<nat>)
    requires key != []
    ensures r == FindString(s, key)
  {
    hide FindString;
    var i := 0;
    assert s[0..] == s;
    while i + |key| <= |s|
      invariant i <= |s|
      invariant match FindString(s[i..], key) case None => FindString(s, key) == None
                                              case Some(k) => FindString(s, key) == Some(i + k)
    {
      FindStringAt(s, key, i);
      if s[i..i + |key|] == key {
        return Some(i);
      }
      i := i + 1;
    }
    FindStringAt(s, key, i);
    r := None;
  }

  lemma {:induction false} FindStringAfter(a: string, key: string, b: string)
    requires key != [] && key[0] !in a
    ensures FindString(a + key + b, key) == Some(|a|)
  {
    var s := a + key + b;
    if a == [] {
      assert s[..|key|] == key;
    } else {
      assert s[0] == a[0] && s[..|key|][0] != key[0];
      assert s[1..] == a[1..] + key + b;
      FindStringAfter(a[1..], key, b);
    }
  }

  // ---------------------------------------------------------------- trimming

  predicate Blank(s: string, ws: set<char>) {
    forall c | c in s :: c in ws
  }

  function TrimmedLeft(s: string, ws: set<char>): string {
    if s == [] || s[0] !in ws then s else TrimmedLeft(s[1..], ws)
  }

  function TrimmedRight(s: string, ws: set<char>): string {
    if s == [] || s[|s| - 1] !in ws then s else TrimmedRight(s[..|s| - 1], ws)
  }

  function Trimmed(s: string, ws: set<char>): string {
    TrimmedLeft(TrimmedRight(s, ws), ws)
  }

  method RTrimString(s: string, ws: set<char>) returns (r: string)
    ensures r == TrimmedRight(s, ws)
  {
    var end := |s|;
    assert s[..end] == s;
    while end > 0 && s[end - 1] in ws
      invariant end <= |s| && TrimmedRight(s[..end], ws) == TrimmedRight(s, ws)
      decreases end
    {
      assert s[..end][..end - 1] == s[..end - 1];
      end := end - 1;
    }
    r := s[..end];
  }

  method LTrimString(s: string, ws: set<char>) returns (r: string)
    ensures r == TrimmedLeft(s, ws)
  {
    var begin := 0;
    assert s[begin..] == s;
    while begin < |s| && s[begin] in ws
      invariant begin <= |s| && TrimmedLeft(s[begin..], ws) == TrimmedLeft(s, ws)
      decreases |s| - begin
    {
      assert s[begin..][1..] == s[begin + 1..];
      begin := begin + 1;
    }
    r := s[begin..];
  }

  method TrimString(s: string, ws: set<char>) returns (r: string)
    ensures r == Trimmed(s, ws)
  {
    r := RTrimString(s, ws);
    r := LTrimString(r, ws);
  }

  /** No blank at either end. */
  predicate Tight(s: string, ws: set<char>) {
    s == [] || (s[0] !in ws && s[|s| - 1] !in ws)
  }

  lemma {:induction false} TrimmedRightBlanks(s: string, b: string, ws: set<char>)
    requires Blank(b, ws) && (s == [] || s[|s| - 1] !in ws)
    ensures TrimmedRight(s + b, ws) == s
    decreases |b|
  {
    if b == [] {
      assert s + b == s;
    } else {
      var t := s + b;
      assert t[|t| - 1] == b[|b| - 1];
      assert t[..|t| - 1] == s + b[..|b| - 1];
      TrimmedRightBlanks(s, b[..|b| - 1], ws);
    }
  }

  lemma {:induction false} TrimmedLeftBlanks(a: string, s: string, ws: set<char>)
    requires Blank(a, ws)
    ensures TrimmedLeft(a + s, ws) == TrimmedLeft(s, ws)
    decreases |a|
  {
    if a == [] {
      assert a + s == s;
    } else {
      assert (a + s)[1..] == a[1..] + s;
      TrimmedLeftBlanks(a[1..], s, ws);
    }
  }

  /** Trimming removes blanks around a string that has none at its ends. */
  lemma TrimsBlanks(a: string, s: string, b: string, ws: set<char>)
    requires Blank(a, ws) && Blank(b, ws) && Tight(s, ws)
    ensures Trimmed(a + s + b, ws) == s
  {
    if s == [] {
      assert a + s + b == [] + (a + b);
      TrimmedRightBlanks([], a + b, ws);
      assert [] + (a + b) == a + b;
    } else {
      TrimmedRightBlanks(a + s, b, ws);
      TrimmedLeftBlanks(a, s, ws);
    }
  }
}
