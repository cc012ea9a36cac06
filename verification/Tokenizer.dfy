/** stringToStrings, the quoting tokenizer, against its printer stringsToString. */
module Tokenizer {
  import opened Options

  datatype State = Space | Token | InQuote | Escape

  /** The three variables of the scanning loop. */
  datatype Scan = Scan(state: State, current: string, tokens: seq<string>)

  const WHITE := {' ', '\t', '\n', '\r'}
  const BLANKS := {' ', '\t', '\n'}

  /** The current token ends. */
  function Emitted(sc: Scan): Scan {
    Scan(Space, [], sc.tokens + [sc.current])
  }

  function Pushed(sc: Scan, c: char, state: State): Scan {
    Scan(state, sc.current + [c], sc.tokens)
  }

  function OnQuote(sc: Scan): Scan {
    match sc.state
    case Space => sc.(state := InQuote)
    case Token => Pushed(sc, '"', Token)
    case InQuote => Emitted(sc)
    case Escape => Pushed(sc, '"', InQuote)
  }

  function OnBackslash(sc: Scan): Scan {
    match sc.state
    case Space => Pushed(sc, '\\', Token)
    case Token => Pushed(sc, '\\', Token)
    case InQuote => sc.(state := Escape)
    case Escape => Pushed(sc, '\\', InQuote)
  }

  /** White space after a backslash does not end the escape. */
  function OnWhite(sc: Scan, c: char): Scan {
    match sc.state
    case Space => sc
    case Token => Emitted(sc)
    case InQuote => Pushed(sc, c, InQuote)
    case Escape => Pushed(sc, c, Escape)
  }

  function OnOther(sc: Scan, c: char): Scan {
    match sc.state
    case Space => Pushed(sc, c, Token)
    case Token => Pushed(sc, c, Token)
    case InQuote => Pushed(sc, c, InQuote)
    case Escape => Pushed(sc, c, InQuote)
  }

  function OnSeparator(sc: Scan, c: char): Scan {
    match sc.state
    case Space => Scan(Space, sc.current, sc.tokens + [[c]])
    case Token => Scan(Space, [], sc.tokens + [sc.current, [c]])
    case InQuote => Pushed(sc, c, InQuote)
    case Escape => Pushed(sc, c, InQuote)
  }

  function Next(sc: Scan, c: char, addseps: set<char>): Scan {
    if c == '"' then OnQuote(sc)
    else if c == '\\' then OnBackslash(sc)
    else if c in WHITE then OnWhite(sc, c)
    else if c in addseps then OnSeparator(sc, c)
    else OnOther(sc, c)
  }

  function Scanned(sc: Scan, s: string, addseps: set<char>): Scan
    decreases |s|
  {
    if s == [] then sc else Scanned(Next(sc, s[0], addseps), s[1..], addseps)
  }

  /** An open quote at the end is an error. */
  function Finished(sc: Scan): Option<seq<string>> {
    match sc.state
    case Space => Some(sc.tokens)
    case Token => Some(sc.tokens + [sc.current])
    case InQuote => None
    case Escape => None
  }

  function Parsed(s: string, addseps: set<char>): Option<seq<string>> {
    Finished(Scanned(Scan(Space, [], []), s, addseps))
  }

  /** The scanning loop. */
  method StringToStrings(s: string, addseps: set<char>) returns (ok: bool, tokens: seq<string>)
    ensures ok <==> Parsed(s, addseps).Some?
    ensures tokens == if ok then Parsed(s, addseps).value else Scanned(Scan(Space, [], []), s, addseps).tokens
  {
    var current := "";
    tokens := [];
    var state := Space;
    var n := 0;
    assert s[0..] == s;
    while n < |s|
      invariant n <= |s|
      invariant Scanned(Scan(state, current, tokens), s[n..], addseps) ==
                Scanned(Scan(Space, [], []), s, addseps)
    {
      var i := s[n];
      ghost var before := Scan(state, current, tokens);
      if i == '"' {
        match state {
          case Space => state := InQuote;
          case Token => current := current + ['"'];
          case InQuote =>
            tokens := tokens + [current];
            current := [];
            state := Space;
          case Escape =>
            current := current + ['"'];
            state := InQuote;
        }
      } else if i == '\\' {
        match state {
          case Space =>
            current := current + ['\\'];
            state := Token;
          case Token =>
            current := current + ['\\'];
            state := Token;
          case InQuote => state := Escape;
          case Escape =>
            current := current + ['\\'];
            state := InQuote;
        }
      } else if i in WHITE {
        match state {
          case Space =>
          case Token =>
            tokens := tokens + [current];
            current := [];
            state := Space;
          case InQuote => current := current + [i];
          case Escape => current := current + [i];
        }
      } else if i in addseps {
        match state {
          case Escape =>
            state := InQuote;
            current := current + [i];
          case InQuote => current := current + [i];
          case Space => tokens := tokens + [[i]];
          case Token =>
            tokens := tokens + [current];
            current := [];
            tokens := tokens + [[i]];
            state := Space;
        }
      } else {
        match state {
          case Escape => state := InQuote;
          case Space => state := Token;
          case Token =>
          case InQuote =>
        }
        current := current + [i];
      }
      assert Scan(state, current, tokens) == Next(before, i, addseps);
      assert s[n..][1..] == s[n + 1..];
      n := n + 1;
    }
    match state {
      case Space => ok := true;
      case Token =>
        tokens := tokens + [current];
        ok := true;
      case InQuote => ok := false;
      case Escape => ok := false;
    }
  }

  // ---------------------------------------------------------------- printing

  function EscapedChar(c: char): string {
    if c == '"' then ['\\', '"'] else [c]
  }

  function EscapedText(t: string): string {
    if t == [] then [] else EscapedChar(t[0]) + EscapedText(t[1..])
  }

  predicate HasBlanks(t: string) {
    exists c | c in t :: c in BLANKS
  }

  function PrintedToken(t: string): string {
    if t == [] then ['"', '"']
    else if HasBlanks(t) then ['"'] + EscapedText(t) + ['"']
    else EscapedText(t)
  }

  /** The tokens with one space between them. */
  function Printed(ts: seq<string>): string {
    if ts == [] then []
    else if |ts| == 1 then PrintedToken(ts[0])
    else PrintedToken(ts[0]) + [' '] + Printed(ts[1..])
  }

  lemma {:induction false} EscapedTextAppend(a: string, b: string)
    ensures EscapedText(a + b) == EscapedText(a) + EscapedText(b)
    decreases |a|
  {
    if a == [] {
      assert a + b == b;
    } else {
      assert (a + b)[1..] == a[1..] + b;
      EscapedTextAppend(a[1..], b);
    }
  }

  lemma {:induction false} PrintedAppend(ts: seq<string>, t: string)
    ensures Printed(ts + [t]) == (if ts == [] then [] else Printed(ts) + [' ']) + PrintedToken(t)
    decreases |ts|
  {
    hide PrintedToken;
    if |ts| > 1 {
      assert (ts + [t])[1..] == ts[1..] + [t];
      PrintedAppend(ts[1..], t);
    } else if |ts| == 1 {
      assert (ts + [t])[1..] == [t];
    }
  }

  lemma OneMoreChar(tok: string, n: nat)
    requires n < |tok|
    ensures EscapedText(tok[..n + 1]) == EscapedText(tok[..n]) + if tok[n] == '"' then ['\\', '"'] else [tok[n]]
  {
    EscapedTextAppend(tok[..n], [tok[n]]);
    assert tok[..n + 1] == tok[..n] + [tok[n]];
    assert EscapedText([tok[n]]) == EscapedChar(tok[n]);
  }

  /** The text of a token, character by character. */
  method PrintText(s0: string, tok: string) returns (s: string)
    ensures s == s0 + EscapedText(tok)
  {
    s := s0;
    var n := 0;
    while n < |tok|
      invariant n <= |tok| && s == s0 + EscapedText(tok[..n])
    {
      var car := tok[n];
      OneMoreChar(tok, n);
      hide EscapedText;
      if car == '"' {
        s := s + ['\\', car];
      } else {
        s := s + [car];
      }
      n := n + 1;
    }
    assert tok[..n] == tok;
  }

  /** One turn of the printing loop, without the space at the end. */
  method PrintToken(s0: string, tok: string) returns (s: string)
    ensures s == s0 + PrintedToken(tok)
  {
    hide EscapedText;
    if tok == [] {
      return s0 + ['"', '"'];
    }
    var hasblanks := exists c | c in tok :: c in BLANKS;
    if hasblanks {
      s := PrintText(s0 + ['"'], tok);
      s := s + ['"'];
    } else {
      s := PrintText(s0, tok);
    }
  }

  /** The printing loop: a space after every token, and the last one taken back. */
  method StringsToString(tokens: seq<string>) returns (s: string)
    ensures s == Printed(tokens)
  {
    s := [];
    if tokens == [] {
      return;
    }
    hide PrintedToken, Printed;
    var n := 0;
    while n < |tokens|
      invariant n <= |tokens|
      invariant s == if n == 0 then [] else Printed(tokens[..n]) + [' ']
    {
      OneMoreToken(tokens, n);
      s := PrintToken(s, tokens[n]);
      s := s + [' '];
      n := n + 1;
    }
    assert tokens[..n] == tokens;
    LastTakenBack(Printed(tokens), ' ');
    s := s[..|s| - 1];
  }

  lemma OneMoreToken(tokens: seq<string>, n: nat)
    requires n < |tokens|
    ensures Printed(tokens[..n + 1]) ==
            (if n == 0 then [] else Printed(tokens[..n]) + [' ']) + PrintedToken(tokens[n])
  {
    hide PrintedToken, Printed;
    PrintedAppend(tokens[..n], tokens[n]);
    assert tokens[..n + 1] == tokens[..n] + [tokens[n]];
  }

  lemma LastTakenBack(s: string, c: char)
    ensures (s + [c])[..|s + [c]| - 1] == s
  {
  }

  // ---------------------------------------------------------------- reading back

  /** The tokens that survive printing and reading: the empty one; those without white space and
      quotes, which are printed as they are; and those with a blank, which are quoted, when they
      have no backslash. */
  predicate Good(t: string) {
    t == [] ||
    (if HasBlanks(t) then '\\' !in t else '\r' !in t && '"' !in t)
  }

  /** The same by characters. */
  lemma GoodMeans(t: string)
    ensures Good(t) <==>
            t == "" || ((' ' in t || '\t' in t || '\n' in t) && '\\' !in t) ||
            forall c | c in t :: c !in {' ', '\t', '\n', '\r', '"'}
  {
  }

  lemma {:induction false} ScannedAppend(sc: Scan, a: string, b: string)
    ensures Scanned(sc, a + b, {}) == Scanned(Scanned(sc, a, {}), b, {})
    decreases |a|
  {
    hide Next;
    if a == [] {
      assert a + b == b;
    } else {
      assert (a + b)[1..] == a[1..] + b;
      ScannedAppend(Next(sc, a[0], {}), a[1..], b);
    }
  }

  lemma ScannedOne(sc: Scan, c: char)
    ensures Scanned(sc, [c], {}) == Next(sc, c, {})
  {
  }

  lemma {:induction false} ScannedCons(sc: Scan, c: char, s: string)
    ensures Scanned(sc, [c] + s, {}) == Scanned(Next(sc, c, {}), s, {})
  {
    assert ([c] + s)[1..] == s;
  }

  /** A printed character, which is one or two to read. */
  function NextPrinted(sc: Scan, c: char): Scan {
    if c == '"' then OnQuote(OnBackslash(sc)) else Next(sc, c, {})
  }

  lemma ScannedText(sc: Scan, t: string)
    requires t != []
    ensures Scanned(sc, EscapedText(t), {}) == Scanned(NextPrinted(sc, t[0]), EscapedText(t[1..]), {})
  {
    hide OnQuote, OnBackslash, OnOther, OnWhite;
    ScannedAppend(sc, EscapedChar(t[0]), EscapedText(t[1..]));
    if t[0] == '"' {
      assert ['\\', '"'] == ['\\'] + ['"'];
      ScannedCons(sc, '\\', ['"']);
      ScannedOne(OnBackslash(sc), '"');
    } else {
      ScannedOne(sc, t[0]);
    }
  }

  /** Inside quotes, text without backslashes is read as it was. */
  lemma {:induction false} ReadsQuoted(t: string, cur: string, base: seq<string>)
    requires '\\' !in t
    ensures Scanned(Scan(InQuote, cur, base), EscapedText(t), {}) == Scan(InQuote, cur + t, base)
    decreases |t|
  {
    if t == [] {
      assert cur + t == cur;
    } else {
      ScannedText(Scan(InQuote, cur, base), t);
      ReadsQuoted(t[1..], cur + [t[0]], base);
      assert cur + [t[0]] + t[1..] == cur + t;
    }
  }

  /** Outside quotes, so is text without white space and quotes. */
  lemma {:induction false} ReadsPlain(t: string, cur: string, base: seq<string>)
    requires '"' !in t && forall c | c in t :: c !in WHITE
    ensures Scanned(Scan(Token, cur, base), EscapedText(t), {}) == Scan(Token, cur + t, base)
    decreases |t|
  {
    hide EscapedText, Scanned;
    if t == [] {
      EmptyText(Scan(Token, cur, base));
      assert cur + t == cur;
    } else {
      var sc := Scan(Token, cur, base);
      ScannedText(sc, t);
      assert NextPrinted(sc, t[0]) == Scan(Token, cur + [t[0]], base);
      hide NextPrinted;
      ReadsPlain(t[1..], cur + [t[0]], base);
      assert cur + [t[0]] + t[1..] == cur + t;
    }
  }

  lemma EmptyText(sc: Scan)
    ensures Scanned(sc, EscapedText([]), {}) == sc
  {
  }

  /** A token with blanks is read between two quotes. */
  lemma QuotedShape(start: Scan, t: string)
    requires start.state == Space && HasBlanks(t)
    ensures Scanned(start, PrintedToken(t), {}) ==
            Next(Scanned(start.(state := InQuote), EscapedText(t), {}), '"', {})
  {
    hide EscapedText;
    var text := EscapedText(t);
    assert ['"'] + text + ['"'] == ['"'] + (text + ['"']);
    ScannedCons(start, '"', text + ['"']);
    ScannedAppend(start.(state := InQuote), text, ['"']);
    ScannedOne(Scanned(start.(state := InQuote), text, {}), '"');
  }

  lemma EmptyToken(base: seq<string>)
    ensures Scanned(Scan(Space, [], base), PrintedToken([]), {}) == Scan(Space, [], base + [[]])
  {
    assert ['"', '"'] == ['"'] + ['"'];
    ScannedCons(Scan(Space, [], base), '"', ['"']);
    ScannedOne(Scan(InQuote, [], base), '"');
  }

  /** A good token is read at once, or after the white space that follows it. */
  lemma GoodToken(t: string, base: seq<string>)
    requires Good(t)
    ensures Scanned(Scan(Space, [], base), PrintedToken(t), {}) in {Scan(Space, [], base + [t]), Scan(Token, t, base)}
  {
    if t == [] {
      EmptyToken(base);
    } else if HasBlanks(t) {
      QuotedShape(Scan(Space, [], base), t);
      ReadsQuoted(t, [], base);
      assert [] + t == t;
    } else {
      GoodPlainToken(t, base);
    }
  }

  lemma GoodPlainToken(t: string, base: seq<string>)
    requires t != [] && Good(t) && !HasBlanks(t)
    ensures Scanned(Scan(Space, [], base), EscapedText(t), {}) == Scan(Token, t, base)
  {
    hide EscapedText, Scanned;
    assert forall c | c in t :: c !in WHITE;
    var start := Scan(Space, [], base);
    ScannedText(start, t);
    assert t[0] in t;
    assert NextPrinted(start, t[0]) == Scan(Token, [t[0]], base);
    ReadsPlain(t[1..], [t[0]], base);
    assert [t[0]] + t[1..] == t;
  }

  // ---------------------------------------------------------------- what is not read back

  /** The token after `base` is not t, or will not be. */
  predicate Doomed(sc: Scan, base: seq<string>, t: string) {
    || (sc.tokens == base && sc.state != Space && !(sc.current <= t))
    || (|base| < |sc.tokens| && sc.tokens[|base|] != t)
  }

  lemma StaysOff(cur: string, c: char, t: string)
    requires !(cur <= t)
    ensures !(cur + [c] <= t)
  {
    if |cur| <= |t| {
      var i :| 0 <= i < |cur| && cur[i] != t[i];
      assert (cur + [c])[i] == cur[i];
    }
  }

  lemma DoomedStep(sc: Scan, c: char, base: seq<string>, t: string)
    requires Doomed(sc, base, t)
    ensures Doomed(Next(sc, c, {}), base, t)
  {
    if !(sc.current <= t) {
      StaysOff(sc.current, c, t);
    }
  }

  lemma {:induction false} DoomedForever(sc: Scan, s: string, base: seq<string>, t: string)
    requires Doomed(sc, base, t)
    ensures Doomed(Scanned(sc, s, {}), base, t)
    decreases |s|
  {
    hide Doomed, Next;
    if s != [] {
      DoomedStep(sc, s[0], base, t);
      DoomedForever(Next(sc, s[0], {}), s[1..], base, t);
    }
  }

  lemma DoomedResult(sc: Scan, base: seq<string>, us: seq<string>)
    requires us != [] && Doomed(sc, base, us[0])
    ensures Finished(sc) != Some(base + us)
  {
    assert (base + us)[|base|] == us[0];
  }

  /** Reading a character that is not the next one of t. */
  lemma NotNext(t: string, q: nat, c: char)
    requires q < |t| ==> t[q] != c
    requires q <= |t|
    ensures !(t[..q] + [c] <= t)
  {
    assert (t[..q] + [c])[q] == c;
  }

  /** Unquoted, a quote or carriage return in what remains of t spoils it. */
  lemma PlainStep(a: string, u: string, base: seq<string>)
    requires a != [] && u != [] && u[0] !in BLANKS
    ensures var next := NextPrinted(Scan(Token, a, base), u[0]);
            if u[0] in {'"', '\r'} then Doomed(next, base, a + u) else next == Scan(Token, a + [u[0]], base)
  {
    var t := a + u;
    assert t[..|a|] == a && t[|a|] == u[0];
    if u[0] == '"' {
      NotNext(t, |a|, '\\');
      StaysOff(a + ['\\'], '"', t);
    }
  }

  lemma {:induction false} PlainDoomed(a: string, u: string, base: seq<string>)
    requires a != [] && !HasBlanks(u) && ('"' in u || '\r' in u)
    ensures Doomed(Scanned(Scan(Token, a, base), EscapedText(u), {}), base, a + u)
    decreases |u|
  {
    assert u[0] in u;
    ScannedText(Scan(Token, a, base), u);
    PlainStep(a, u, base);
    hide Scanned, EscapedText, NextPrinted, Doomed;
    if u[0] in {'"', '\r'} {
      DoomedForever(NextPrinted(Scan(Token, a, base), u[0]), EscapedText(u[1..]), base, a + u);
    } else {
      assert forall c | c in u[1..] :: c in u;
      assert u == [u[0]] + u[1..];
      PlainDoomed(a + [u[0]], u[1..], base);
      assert a + [u[0]] + u[1..] == a + u;
    }
  }

  predicate AllCr(t: string) {
    forall c | c in t :: c == '\r'
  }

  /** A token that starts with a carriage return is not read back: reading skips it. */
  lemma {:induction false} CrDoomed(u: string, base: seq<string>, t: string)
    requires t != [] && t[0] == '\r' && !AllCr(u) && !HasBlanks(u)
    ensures Doomed(Scanned(Scan(Space, [], base), EscapedText(u), {}), base, t)
    decreases |u|
  {
    var sc, c := Scan(Space, [], base), u[0];
    assert c in u;
    ScannedText(sc, u);
    var next := NextPrinted(sc, c);
    if c == '\r' {
      assert next == sc;
      assert u == [c] + u[1..];
      CrDoomed(u[1..], base, t);
    } else {
      assert next.current[0] != '\r';
      DoomedForever(next, EscapedText(u[1..]), base, t);
    }
  }

  lemma KeptOut(cur: string, c: char, t: string)
    requires AllCr(t) && c != '\r'
    ensures !(cur + [c] <= t)
  {
    if |cur| < |t| {
      assert t[|cur|] in t;
      assert (cur + [c])[|cur|] == c;
    }
  }

  lemma KeepsCr(sc: Scan, c: char, base: seq<string>, t: string)
    requires AllCr(t) && sc.tokens == base && sc.state in {InQuote, Escape}
    ensures var next := NextPrinted(sc, c);
            Doomed(next, base, t) ||
            ((c == '\r' || c == '\\') && next.tokens == base && next.state in {InQuote, Escape})
  {
    if c != '\r' && c != '\\' {
      KeptOut(sc.current, c, t);
      KeptOut(sc.current, '\\', t);
    }
  }

  /** Inside quotes, a character other than backslash and carriage return is kept. */
  lemma {:induction false} QuotedCrDoomed(sc: Scan, u: string, base: seq<string>, t: string)
    requires AllCr(t) && sc.tokens == base && sc.state in {InQuote, Escape}
    requires exists c | c in u :: c != '\r' && c != '\\'
    ensures Doomed(Scanned(sc, EscapedText(u), {}), base, t)
    decreases |u|
  {
    hide Doomed, EscapedText, Scanned, NextPrinted;
    var c := u[0];
    ScannedText(sc, u);
    var next := NextPrinted(sc, c);
    KeepsCr(sc, c, base, t);
    if Doomed(next, base, t) {
      DoomedForever(next, EscapedText(u[1..]), base, t);
    } else {
      assert u == [c] + u[1..];
      QuotedCrDoomed(next, u[1..], base, t);
    }
  }

  /** In a quoted token, the text read falls behind the text printed at the first backslash. */
  lemma {:induction false} LaggingDoomed(t: string, q: nat, p: nat, state: State, base: seq<string>)
    requires q < p <= |t| && (forall i | q <= i < p :: t[i] == '\\')
    requires state in {InQuote, Escape}
    ensures Doomed(Next(Scanned(Scan(state, t[..q], base), EscapedText(t[p..]), {}), '"', {}), base, t)
    decreases |t| - p
  {
    var sc := Scan(state, t[..q], base);
    assert t[..q] + [t[q]] == t[..q + 1];
    if p == |t| {
      EmptyText(sc);
      NotNext(t, q, '"');
    } else {
      var c := t[p];
      assert t[p..][1..] == t[p + 1..];
      ScannedText(sc, t[p..]);
      var next := NextPrinted(sc, c);
      if c == '\\' {
        LaggingDoomed(t, if state == Escape then q + 1 else q, p + 1,
                      if state == Escape then InQuote else Escape, base);
      } else {
        NotNext(t, q, c);
        assert Doomed(next, base, t);
        DoomedForever(next, EscapedText(t[p + 1..]), base, t);
        DoomedStep(Scanned(next, EscapedText(t[p + 1..]), {}), '"', base, t);
      }
    }
  }

  lemma {:induction false} SlashDoomed(t: string, p: nat, base: seq<string>)
    requires p <= |t| && '\\' in t[p..]
    ensures Doomed(Next(Scanned(Scan(InQuote, t[..p], base), EscapedText(t[p..]), {}), '"', {}), base, t)
    decreases |t| - p
  {
    var sc, c := Scan(InQuote, t[..p], base), t[p];
    ScannedText(sc, t[p..]);
    assert t[p..][1..] == t[p + 1..] && t[..p] + [c] == t[..p + 1];
    if c == '\\' {
      LaggingDoomed(t, p, p + 1, Escape, base);
    } else {
      assert t[p..] == [c] + t[p + 1..];
      SlashDoomed(t, p + 1, base);
    }
  }

  lemma PlainTokenDoomed(t: string, base: seq<string>)
    requires t != [] && t[0] != '\r' && !HasBlanks(t) && !Good(t)
    ensures Doomed(Scanned(Scan(Space, [], base), EscapedText(t), {}), base, t)
  {
    var start := Scan(Space, [], base);
    assert t[0] in t;
    ScannedText(start, t);
    var next := NextPrinted(start, t[0]);
    assert t == [t[0]] + t[1..];
    if t[0] == '"' {
      assert next == Scan(Token, ['\\', '"'], base);
      hide EscapedText, Scanned, NextPrinted;
      assert ['\\', '"'][0] != t[0];
      DoomedForever(next, EscapedText(t[1..]), base, t);
    } else {
      assert next == Scan(Token, [t[0]], base);
      hide EscapedText, Scanned, Doomed, NextPrinted;
      PlainDoomed([t[0]], t[1..], base);
    }
  }

  lemma BadToken(t: string, base: seq<string>)
    requires !Good(t) && !AllCr(t)
    ensures Doomed(Scanned(Scan(Space, [], base), PrintedToken(t), {}), base, t)
  {
    hide Doomed, EscapedText, Scanned, Next;
    var start := Scan(Space, [], base);
    if HasBlanks(t) {
      QuotedShape(start, t);
      assert t[0..] == t && t[..0] == [];
      SlashDoomed(t, 0, base);
    } else if t[0] == '\r' {
      CrDoomed(t, base, t);
    } else {
      PlainTokenDoomed(t, base);
    }
  }

  lemma {:induction false} CrSkipped(u: string, base: seq<string>)
    requires AllCr(u)
    ensures Scanned(Scan(Space, [], base), EscapedText(u), {}) == Scan(Space, [], base)
    decreases |u|
  {
    if u != [] {
      assert u[0] in u && forall c :: c in u[1..] ==> c in u;
      ScannedText(Scan(Space, [], base), u);
      CrSkipped(u[1..], base);
    }
  }

  /** No token made only of carriage returns is ever read first. */
  lemma CrNotRead(u: string, base: seq<string>, t: string)
    requires t != [] && AllCr(t) && (u == [] || !AllCr(u))
    ensures Doomed(Scanned(Scan(Space, [], base), PrintedToken(u), {}), base, t)
  {
    var start := Scan(Space, [], base);
    assert t[0] in t;
    if u == [] {
      EmptyToken(base);
    } else if HasBlanks(u) {
      hide EscapedText, Scanned;
      QuotedShape(start, u);
      var inside := Scan(InQuote, [], base);
      var c :| c in u && c in BLANKS;
      assert c in u && c != '\r' && c != '\\';
      QuotedCrDoomed(inside, u, base, t);
      DoomedStep(Scanned(inside, EscapedText(u), {}), '"', base, t);
    } else {
      CrDoomed(u, base, t);
    }
  }

  /** What follows a token in the printed text. */
  function Rest(us: seq<string>): string
    requires us != []
  {
    if |us| == 1 then [] else [' '] + Printed(us[1..])
  }

  lemma PrintedRest(sc: Scan, us: seq<string>)
    requires us != []
    ensures Scanned(sc, Printed(us), {}) == Scanned(Scanned(sc, PrintedToken(us[0]), {}), Rest(us), {})
  {
    hide PrintedToken, Scanned;
    var first, rest := PrintedToken(us[0]), Rest(us);
    ScannedAppend(sc, first, rest);
    if |us| == 1 {
      assert first + rest == first;
    } else {
      assert first + ([' '] + Printed(us[1..])) == first + [' '] + Printed(us[1..]);
    }
  }

  lemma {:induction false} CrTail(vs: seq<string>, base: seq<string>, us: seq<string>)
    requires us != [] && us[0] != [] && AllCr(us[0])
    ensures Finished(Scanned(Scan(Space, [], base), Printed(vs), {})) != Some(base + us)
    decreases |vs|
  {
    var start := Scan(Space, [], base);
    if vs != [] {
      hide PrintedToken, Doomed, Next;
      PrintedRest(start, vs);
      if vs[0] == [] || !AllCr(vs[0]) {
        CrNotRead(vs[0], base, us[0]);
        var sc := Scanned(start, PrintedToken(vs[0]), {});
        DoomedForever(sc, Rest(vs), base, us[0]);
        DoomedResult(Scanned(sc, Rest(vs), {}), base, us);
      } else {
        CrPrinted(vs[0], base);
        if |vs| > 1 {
          ScannedCons(start, ' ', Printed(vs[1..]));
          SpaceSkipped(base);
          CrTail(vs[1..], base, us);
        }
      }
    }
  }

  lemma SpaceSkipped(base: seq<string>)
    ensures Next(Scan(Space, [], base), ' ', {}) == Scan(Space, [], base)
  {
  }

  lemma CrPrinted(u: string, base: seq<string>)
    requires u != [] && AllCr(u)
    ensures Scanned(Scan(Space, [], base), PrintedToken(u), {}) == Scan(Space, [], base)
  {
    CrSkipped(u, base);
  }

  lemma BadFirst(us: seq<string>, base: seq<string>)
    requires us != [] && !Good(us[0])
    ensures Finished(Scanned(Scan(Space, [], base), Printed(us), {})) != Some(base + us)
  {
    hide PrintedToken, Printed, Rest, Doomed, Next, Good, Scanned, Finished;
    var t := us[0];
    if AllCr(t) {
      BadIsNotEmpty(t);
      CrTail(us, base, us);
    } else {
      var start := Scan(Space, [], base);
      PrintedRest(start, us);
      BadToken(t, base);
      var sc := Scanned(start, PrintedToken(t), {});
      DoomedForever(sc, Rest(us), base, t);
      DoomedResult(Scanned(sc, Rest(us), {}), base, us);
    }
  }

  lemma GoodFirst(us: seq<string>, base: seq<string>)
    requires us != [] && Good(us[0])
    ensures var result := Finished(Scanned(Scan(Space, [], base), Printed(us), {}));
            if |us| == 1 then result == Some(base + us)
            else result == Finished(Scanned(Scan(Space, [], base + [us[0]]), Printed(us[1..]), {}))
  {
    hide PrintedToken, Printed, Next, Good, Scanned;
    var start, t := Scan(Space, [], base), us[0];
    PrintedRest(start, us);
    GoodToken(t, base);
    var sc := Scanned(start, PrintedToken(t), {});
    if |us| == 1 {
      NothingMore(sc);
      assert us == [t];
    } else {
      hide Finished;
      ScannedCons(sc, ' ', Printed(us[1..]));
      AfterToken(sc, t, base);
    }
  }

  /** Reading the printed tokens gives them back if and only if every one of them is good. */
  lemma {:induction false} ReadsBack(us: seq<string>, base: seq<string>)
    ensures Finished(Scanned(Scan(Space, [], base), Printed(us), {})) == Some(base + us) <==>
            forall t | t in us :: Good(t)
    decreases |us|
  {
    if us == [] {
      assert base + us == base;
    } else {
      hide Printed, Good, Finished, Scanned;
      assert us == [us[0]] + us[1..];
      if !Good(us[0]) {
        BadFirst(us, base);
      } else {
        GoodFirst(us, base);
        if |us| > 1 {
          ReadsBack(us[1..], base + [us[0]]);
          assert base + [us[0]] + us[1..] == base + us;
        }
      }
    }
  }

  lemma BadIsNotEmpty(t: string)
    requires !Good(t)
    ensures t != []
  {
  }

  lemma NothingMore(sc: Scan)
    ensures Scanned(sc, [], {}) == sc
  {
  }

  lemma AfterToken(sc: Scan, t: string, base: seq<string>)
    requires sc in {Scan(Space, [], base + [t]), Scan(Token, t, base)}
    ensures Next(sc, ' ', {}) == Scan(Space, [], base + [t])
  {
  }

  /** The tokenizer inverts its printer exactly on lists of good tokens. */
  lemma RoundTripIff(ts: seq<string>)
    ensures Parsed(Printed(ts), {}) == Some(ts) <==> forall t | t in ts :: Good(t)
  {
    ReadsBack(ts, []);
    assert [] + ts == ts;
  }

  // ---------------------------------------------------------------- additional separators

  /** A part of a text: a word, a separator, or a quoted text. */
  datatype Piece = Word(text: string) | Separator(c: char) | Quoted(text: string)

  /** A word has no white space, quote or separator; a separator is a listed character without another meaning;
      a quoted text may have white space and separators, but no quote or backslash. */
  predicate ValidPiece(p: Piece, addseps: set<char>) {
    match p
    case Word(text) =>
      text != [] && forall c | c in text :: c !in {' ', '\t', '\n', '\r', '"'} && c !in addseps
    case Separator(c) => c in addseps && c !in {' ', '\t', '\n', '\r', '"', '\\'}
    case Quoted(text) => '"' !in text && '\\' !in text
  }

  function TokenOf(p: Piece): string {
    if p.Separator? then [p.c] else p.text
  }

  function TokensOf(ps: seq<Piece>): seq<string> {
    seq(|ps|, i requires 0 <= i < |ps| => TokenOf(ps[i]))
  }

  function PieceText(p: Piece): string {
    if p.Quoted? then ['"'] + p.text + ['"'] else TokenOf(p)
  }

  /** The text of the pieces: a word is set off by a space from a word or a quote after it, nothing else is. */
  function PiecesText(ps: seq<Piece>): string {
    if ps == [] then []
    else
      var n := |ps| - 1;
      PiecesText(ps[..n]) + (if n > 0 && ps[n - 1].Word? && !ps[n].Separator? then [' '] else []) + PieceText(ps[n])
  }

  lemma {:induction false} ScannedParts(sc: Scan, a: string, b: string, addseps: set<char>)
    ensures Scanned(sc, a + b, addseps) == Scanned(Scanned(sc, a, addseps), b, addseps)
    decreases |a|
  {
    hide Next;
    if a == [] {
      assert a + b == b;
    } else {
      assert (a + b)[1..] == a[1..] + b;
      ScannedParts(Next(sc, a[0], addseps), a[1..], b, addseps);
    }
  }

  lemma ScannedChar(sc: Scan, c: char, addseps: set<char>)
    ensures Scanned(sc, [c], addseps) == Next(sc, c, addseps)
  {
    hide Next;
    assert [c][1..] == [];
  }

  lemma {:induction false} WordScanned(text: string, cur: string, base: seq<string>, addseps: set<char>)
    requires forall i | 0 <= i < |text| :: text[i] !in WHITE && text[i] != '"' && text[i] !in addseps
    ensures Scanned(Scan(Token, cur, base), text, addseps) == Scan(Token, cur + text, base)
    decreases |text|
  {
    if text == [] {
      assert cur + text == cur;
    } else {
      assert text == [text[0]] + text[1..];
      assert Next(Scan(Token, cur, base), text[0], addseps) == Scan(Token, cur + [text[0]], base);
      WordScanned(text[1..], cur + [text[0]], base, addseps);
      assert cur + [text[0]] + text[1..] == cur + text;
    }
  }

  lemma {:induction false} QuotedScanned(text: string, cur: string, base: seq<string>, addseps: set<char>)
    requires '"' !in text && '\\' !in text
    ensures Scanned(Scan(InQuote, cur, base), text, addseps) == Scan(InQuote, cur + text, base)
    decreases |text|
  {
    if text == [] {
      assert cur + text == cur;
    } else {
      assert text == [text[0]] + text[1..];
      assert Next(Scan(InQuote, cur, base), text[0], addseps) == Scan(InQuote, cur + [text[0]], base);
      QuotedScanned(text[1..], cur + [text[0]], base, addseps);
      assert cur + [text[0]] + text[1..] == cur + text;
    }
  }

  lemma WordPiece(text: string, base: seq<string>, addseps: set<char>)
    requires ValidPiece(Word(text), addseps)
    ensures Scanned(Scan(Space, [], base), text, addseps) == Scan(Token, text, base)
  {
    var sc, c, rest := Scan(Space, [], base), text[0], text[1..];
    assert text == [c] + rest && forall i | 0 <= i < |text| :: text[i] in text;
    ScannedParts(sc, [c], rest, addseps);
    ScannedChar(sc, c, addseps);
    FirstOfWord(c, base, addseps);
    hide Scanned, Next;
    WordScanned(rest, [c], base, addseps);
  }

  lemma FirstOfWord(c: char, base: seq<string>, addseps: set<char>)
    requires c !in WHITE && c != '"' && c !in addseps
    ensures Next(Scan(Space, [], base), c, addseps) == Scan(Token, [c], base)
  {
    assert [] + [c] == [c];
  }

  lemma QuotedPiece(text: string, base: seq<string>, addseps: set<char>)
    requires '"' !in text && '\\' !in text
    ensures Scanned(Scan(Space, [], base), ['"'] + text + ['"'], addseps) == Scan(Space, [], base + [text])
  {
    var sc := Scan(Space, [], base);
    hide Scanned;
    ScannedParts(sc, ['"'] + text, ['"'], addseps);
    ScannedParts(sc, ['"'], text, addseps);
    ScannedChar(sc, '"', addseps);
    QuotedScanned(text, [], base, addseps);
    assert [] + text == text;
    ScannedChar(Scan(InQuote, text, base), '"', addseps);
  }

  /** One more piece, between tokens. */
  lemma PieceScanned(p: Piece, base: seq<string>, addseps: set<char>)
    requires ValidPiece(p, addseps)
    ensures Scanned(Scan(Space, [], base), PieceText(p), addseps) ==
            if p.Word? then Scan(Token, p.text, base) else Scan(Space, [], base + [TokenOf(p)])
  {
    hide Scanned;
    match p
    case Word(text) => WordPiece(text, base, addseps);
    case Separator(c) => ScannedChar(Scan(Space, [], base), c, addseps);
    case Quoted(text) => QuotedPiece(text, base, addseps);
  }

  /** ... after a word: a separator ends it, and so does a space. */
  lemma AfterWord(word: string, base: seq<string>, c: char, addseps: set<char>)
    requires c == ' ' || ValidPiece(Separator(c), addseps)
    ensures Scanned(Scan(Token, word, base), [c], addseps) ==
            Scan(Space, [], base + [word] + if c == ' ' then [] else [[c]])
  {
    ScannedChar(Scan(Token, word, base), c, addseps);
    assert base + [word, [c]] == base + [word] + [[c]];
    assert base + [word] + [] == base + [word];
  }

  lemma {:induction false} PiecesScanned(ps: seq<Piece>, addseps: set<char>)
    requires forall i | 0 <= i < |ps| :: ValidPiece(ps[i], addseps)
    ensures var n := |ps| - 1;
            Scanned(Scan(Space, [], []), PiecesText(ps), addseps) ==
            if ps != [] && ps[n].Word? then Scan(Token, ps[n].text, TokensOf(ps[..n]))
            else Scan(Space, [], TokensOf(ps))
    decreases |ps|
  {
    hide PieceText, ValidPiece, Scanned;
    var start := Scan(Space, [], []);
    if ps == [] {
      assert Scanned(start, [], addseps) == start by { ScannedNothing(start, addseps); }
    } else {
      var n := |ps| - 1;
      var before, p := ps[..n], ps[n];
      PiecesScanned(before, addseps);
      assert TokensOf(ps) == TokensOf(before) + [TokenOf(p)];
      var gap: string := if n > 0 && ps[n - 1].Word? && !p.Separator? then [' '] else [];
      ScannedParts(start, PiecesText(before) + gap, PieceText(p), addseps);
      ScannedParts(start, PiecesText(before), gap, addseps);
      PieceScanned(p, TokensOf(before), addseps);
      ScannedNothing(Scanned(start, PiecesText(before), addseps), addseps);
      if n > 0 && ps[n - 1].Word? {
        assert TokensOf(before) == TokensOf(before[..n - 1]) + [ps[n - 1].text];
        AfterWordPiece(ps[n - 1].text, TokensOf(before[..n - 1]), p, addseps);
      }
    }
  }

  lemma ScannedNothing(sc: Scan, addseps: set<char>)
    ensures Scanned(sc, [], addseps) == sc
  {
  }

  lemma AfterWordPiece(word: string, base: seq<string>, p: Piece, addseps: set<char>)
    requires ValidPiece(p, addseps)
    ensures if p.Separator? then
              Scanned(Scan(Token, word, base), PieceText(p), addseps) == Scan(Space, [], base + [word] + [TokenOf(p)])
            else Scanned(Scan(Token, word, base), [' '], addseps) == Scan(Space, [], base + [word])
  {
    AfterWord(word, base, if p.Separator? then p.c else ' ', addseps);
    assert base + [word] + [] == base + [word];
  }

  /** Inside quotes a backslash is dropped and keeps the next character that is not white space from having its
      meaning, be it a quote, a backslash or a separator; white space in between is text. */
  lemma BackslashInQuotes(blanks: string, c: char, cur: string, base: seq<string>, addseps: set<char>)
    requires (forall i | 0 <= i < |blanks| :: blanks[i] in {' ', '\t', '\n', '\r'}) && c !in {' ', '\t', '\n', '\r'}
    ensures Scanned(Scan(InQuote, cur, base), ['\\'] + blanks + [c], addseps) ==
            Scan(InQuote, cur + blanks + [c], base)
  {
    var sc := Scan(InQuote, cur, base);
    hide Scanned;
    ScannedParts(sc, ['\\'] + blanks, [c], addseps);
    ScannedParts(sc, ['\\'], blanks, addseps);
    ScannedChar(sc, '\\', addseps);
    BlanksEscaped(blanks, cur, base, addseps);
    ScannedChar(Scan(Escape, cur + blanks, base), c, addseps);
  }

  lemma {:induction false} BlanksEscaped(blanks: string, cur: string, base: seq<string>, addseps: set<char>)
    requires forall i | 0 <= i < |blanks| :: blanks[i] in {' ', '\t', '\n', '\r'}
    ensures Scanned(Scan(Escape, cur, base), blanks, addseps) == Scan(Escape, cur + blanks, base)
    decreases |blanks|
  {
    if blanks == [] {
      assert cur + blanks == cur;
    } else {
      assert Next(Scan(Escape, cur, base), blanks[0], addseps) == Scan(Escape, cur + [blanks[0]], base);
      BlanksEscaped(blanks[1..], cur + [blanks[0]], base, addseps);
      assert cur + [blanks[0]] + blanks[1..] == cur + blanks;
    }
  }

  /** With additional separators: each one outside quotes is a token of its own, and ends the word before it
      without any white space; inside quotes they are text like any other. */
  lemma SeparatorsSplit(ps: seq<Piece>, addseps: set<char>)
    requires forall i | 0 <= i < |ps| :: ValidPiece(ps[i], addseps)
    ensures Parsed(PiecesText(ps), addseps) == Some(TokensOf(ps))
  {
    hide PiecesText, Scanned, ValidPiece;
    PiecesScanned(ps, addseps);
    if ps != [] {
      var n := |ps| - 1;
      assert TokensOf(ps) == TokensOf(ps[..n]) + [TokenOf(ps[n])];
    }
  }
}
