/**
  A matcher for the fragment of JavaScript regular expressions that the command
  regexes of script.js are written in: case-insensitive literals, `\s*`,
  an optional double quote `(?:")?`, a captured digit run `(\d+)` and a captured
  flat brace group `({[^}]+})`.

  `Run` explores the alternatives in the order a backtracking engine does
  (a greedy quantifier tries its longest run first, `(?:")?` tries the quote
  first), so it returns the match `RegExp.prototype.exec` returns at a given
  start. `Matches` is the declarative grammar (any split at all); `RunSound`
  and `RunComplete` tie the two together, and `Find` adds the leftmost search
  of `String.prototype.match`.
*/
module Scan {
  import opened Wrappers

  /** JavaScript's `\s`: the WhiteSpace and LineTerminator code points. None
      of them is a digit or a character the command regexes spell out. */
  predicate IsSpace(c: char)
    ensures IsSpace(c) ==> !('0' <= c <= '9') && c !in "\":{},_" && !('A' <= c <= 'Z') && !('a' <= c <= 'z')
  {
    || c == ' ' || c == '\t' || c == '\n' || c == '\r' || c == '\U{000B}' || c == '\U{000C}'
    || c == '\U{00A0}' || c == '\U{1680}' || ('\U{2000}' <= c <= '\U{200A}')
    || c == '\U{2028}' || c == '\U{2029}' || c == '\U{202F}' || c == '\U{205F}'
    || c == '\U{3000}' || c == '\U{FEFF}'
  }

  /** JavaScript's `\d`: ASCII digits only. */
  predicate IsDigit(c: char) {
    '0' <= c <= '9'
  }

  /** The canonicalisation of the `i` flag (without `u`) restricted to what can
      meet an ASCII keyword: only the ASCII letters fold. */
  function Fold(c: char): (f: char)
    ensures !('A' <= f <= 'Z')
    ensures 'a' <= f <= 'z' <==> 'a' <= c <= 'z' || 'A' <= c <= 'Z'
    ensures 'A' <= c <= 'Z' ==> f as int - 'a' as int == c as int - 'A' as int
    ensures !('A' <= c <= 'Z') ==> f == c
  {
    if 'A' <= c <= 'Z' then (c as int + 32) as char else c
  }

  /** The character classes the quantifiers of the fragment range over. */
  datatype Class = Space | Digit | NotCloseBrace

  predicate InClass(c: char, k: Class) {
    match k
    case Space => IsSpace(c)
    case Digit => IsDigit(c)
    case NotCloseBrace => c != '}'
  }

  predicate AllIn(t: string, i: nat, j: nat, k: Class)
    requires i <= j <= |t|
  {
    forall n | i <= n < j :: InClass(t[n], k)
  }

  /** The end of the longest run of class `k` that starts at `p`. */
  function Span(t: string, p: nat, k: Class): (q: nat)
    requires p <= |t|
    ensures p <= q <= |t| && AllIn(t, p, q, k)
    ensures q == |t| || !InClass(t[q], k)
    decreases |t| - p
  {
    if p < |t| && InClass(t[p], k) then Span(t, p + 1, k) else p
  }

  predicate AllDigits(s: string) {
    forall i | 0 <= i < |s| :: IsDigit(s[i])
  }

  /** `parseInt(s, 10)` of a non-empty run of ASCII digits (leading zeros allowed). */
  function Value(s: string): (n: nat)
    requires AllDigits(s)
    ensures n == 0 <==> forall i | 0 <= i < |s| :: s[i] == '0'
  {
    if s == [] then 0 else Value(s[..|s| - 1]) * 10 + (s[|s| - 1] as int - '0' as int)
  }

  /** The decimal numeral of `n`, without leading zeros. */
  function Show(n: nat): (s: string)
    ensures |s| > 0 && AllDigits(s)
  {
    if n < 10 then [('0' as int + n) as char] else Show(n / 10) + Show(n % 10)
  }

  lemma {:induction false} ValueOfShow(n: nat)
    ensures Value(Show(n)) == n
  {
    if n >= 10 {
      var s := Show(n);
      ValueOfShow(n / 10);
      assert s[..|s| - 1] == Show(n / 10);
    }
  }

  datatype Token =
    | Key(word: string)  // a literal; ASCII letters match regardless of case
    | Spaces             // \s*
    | OptQuote           // (?:")?
    | Digits             // (\d+), captured as a number
    | Braced             // ({[^}]+}), captured as text

  datatype Capture = Number(n: nat) | Text(s: string)

  /** A successful match from a given start: where it ends and what it captured. */
  datatype Hit = Hit(end: nat, captures: seq<Capture>)

  /** A split point chosen for a quantifier, with the match of the rest from there. */
  datatype Split = Split(at: nat, hit: Hit)

  predicate KeyAt(t: string, p: nat, w: string) {
    p + |w| <= |t| && forall i | 0 <= i < |w| :: Fold(t[p + i]) == Fold(w[i])
  }

  function Prepend(c: Capture, h: Hit): Hit {
    Hit(h.end, [c] + h.captures)
  }

  /** The match of `pat` at `p`, in the engine's order of preference. */
  function Run(pat: seq<Token>, t: string, p: nat): (r: Option<Hit>)
    requires p <= |t|
    ensures r.Some? ==> p <= r.value.end <= |t|
    decreases |pat|, 1, 0
  {
    if pat == [] then Some(Hit(p, []))
    else
      var rest := pat[1..];
      match pat[0]
      case Key(w) =>
        if KeyAt(t, p, w) then Run(rest, t, p + |w|) else None
      case OptQuote =>
        if p < |t| && t[p] == '"' && Run(rest, t, p + 1).Some? then Run(rest, t, p + 1)
        else Run(rest, t, p)
      case Spaces =>
        var b := Backtrack(rest, t, p, Span(t, p, Space));
        if b.None? then None else Some(b.value.hit)
      case Digits =>
        if p < |t| && IsDigit(t[p]) then
          var b := Backtrack(rest, t, p + 1, Span(t, p, Digit));
          if b.None? then None
          else Some(Prepend(Number(Value(t[p..b.value.at])), b.value.hit))
        else None
      case Braced =>
        if p < |t| && t[p] == '{' then
          var m := Span(t, p + 1, NotCloseBrace);
          if p + 1 < m < |t| then
            var h := Run(rest, t, m + 1);
            if h.None? then None else Some(Prepend(Text(t[p..m + 1]), h.value))
          else None
        else None
  }

  /** Greedy backtracking: the largest split point in `lo..m` from which the
      rest of the pattern matches. */
  function Backtrack(rest: seq<Token>, t: string, lo: nat, m: nat): (r: Option<Split>)
    requires lo <= m <= |t|
    ensures r.Some? ==> lo <= r.value.at <= m && Run(rest, t, r.value.at) == Some(r.value.hit)
    ensures r.Some? ==> forall k | r.value.at < k <= m :: Run(rest, t, k).None?
    ensures r.None? ==> forall k | lo <= k <= m :: Run(rest, t, k).None?
    decreases |rest| + 1, 0, m - lo
  {
    var h := Run(rest, t, m);
    if h.Some? then Some(Split(m, h.value))
    else if m == lo then None
    else Backtrack(rest, t, lo, m - 1)
  }

  /** The declarative grammar: `pat` can match `t` from `p`, ending and
      capturing as `h` says, for SOME choice at every quantifier. */
  ghost predicate Matches(pat: seq<Token>, t: string, p: nat, h: Hit)
    requires p <= |t|
    decreases |pat|
  {
    if pat == [] then h == Hit(p, [])
    else
      var rest := pat[1..];
      match pat[0]
      case Key(w) =>
        KeyAt(t, p, w) && Matches(rest, t, p + |w|, h)
      case OptQuote =>
        Matches(rest, t, p, h) || (p < |t| && t[p] == '"' && Matches(rest, t, p + 1, h))
      case Spaces =>
        exists m | p <= m <= |t| :: AllIn(t, p, m, Space) && Matches(rest, t, m, h)
      case Digits =>
        exists m | p < m <= |t| ::
          && AllIn(t, p, m, Digit)
          && h.captures != []
          && h.captures[0] == Number(Value(t[p..m]))
          && Matches(rest, t, m, Hit(h.end, h.captures[1..]))
      case Braced =>
        exists m | p + 1 < m < |t| ::
          && t[p] == '{' && AllIn(t, p + 1, m, NotCloseBrace) && t[m] == '}'
          && h.captures != []
          && h.captures[0] == Text(t[p..m + 1])
          && Matches(rest, t, m + 1, Hit(h.end, h.captures[1..]))
  }

  /** Whatever `Run` returns is a match of the grammar. */
  lemma {:induction false} RunSound(pat: seq<Token>, t: string, p: nat)
    requires p <= |t| && Run(pat, t, p).Some?
    ensures Matches(pat, t, p, Run(pat, t, p).value)
    decreases |pat|
  {
    if pat != [] {
      var rest := pat[1..];
      var h := Run(pat, t, p).value;
      match pat[0]
      case Key(w) =>
        RunSound(rest, t, p + |w|);
      case OptQuote =>
        if p < |t| && t[p] == '"' && Run(rest, t, p + 1).Some? {
          RunSound(rest, t, p + 1);
        } else {
          RunSound(rest, t, p);
        }
      case Spaces =>
        var sp := Backtrack(rest, t, p, Span(t, p, Space)).value;
        RunSound(rest, t, sp.at);
        assert AllIn(t, p, sp.at, Space);
      case Digits =>
        var sp := Backtrack(rest, t, p + 1, Span(t, p, Digit)).value;
        RunSound(rest, t, sp.at);
        assert AllIn(t, p, sp.at, Digit);
        assert Hit(h.end, h.captures[1..]) == sp.hit;
      case Braced =>
        var m := Span(t, p + 1, NotCloseBrace);
        RunSound(rest, t, m + 1);
        assert Hit(h.end, h.captures[1..]) == Run(rest, t, m + 1).value;
    }
  }

  /** A run of class `k` from `p` never reaches past the longest one. */
  lemma SpanCovers(t: string, p: nat, m: nat, k: Class)
    requires p <= m <= |t| && AllIn(t, p, m, k)
    ensures m <= Span(t, p, k)
  {
  }

  /** Whenever the grammar can match at `p`, `Run` finds a match there. */
  lemma {:induction false} RunComplete(pat: seq<Token>, t: string, p: nat, h: Hit)
    requires p <= |t| && Matches(pat, t, p, h)
    ensures Run(pat, t, p).Some?
    decreases |pat|, 1
  {
    if pat != [] {
      var rest := pat[1..];
      match pat[0]
      case Key(w) =>
        RunComplete(rest, t, p + |w|, h);
        KeyComplete(pat, t, p);
      case OptQuote =>
        if Matches(rest, t, p, h) {
          RunComplete(rest, t, p, h);
        } else {
          RunComplete(rest, t, p + 1, h);
        }
        QuoteComplete(pat, t, p);
      case Spaces =>
        SpacesMatchComplete(pat, t, p, h);
      case Digits =>
        DigitsMatchComplete(pat, t, p, h);
      case Braced =>
        BracedMatchComplete(pat, t, p, h);
    }
  }

  lemma {:induction false} SpacesMatchComplete(pat: seq<Token>, t: string, p: nat, h: Hit)
    requires p <= |t| && pat != [] && pat[0] == Spaces && Matches(pat, t, p, h)
    ensures Run(pat, t, p).Some?
    decreases |pat|, 0
  {
    var rest := pat[1..];
    var m :| p <= m <= |t| && AllIn(t, p, m, Space) && Matches(rest, t, m, h);
    RunComplete(rest, t, m, h);
    SpacesComplete(pat, t, p, m);
  }

  lemma {:induction false} DigitsMatchComplete(pat: seq<Token>, t: string, p: nat, h: Hit)
    requires p <= |t| && pat != [] && pat[0] == Digits && Matches(pat, t, p, h)
    ensures Run(pat, t, p).Some?
    decreases |pat|, 0
  {
    var rest := pat[1..];
    var m :| p < m <= |t| && AllIn(t, p, m, Digit) && h.captures != []
      && h.captures[0] == Number(Value(t[p..m]))
      && Matches(rest, t, m, Hit(h.end, h.captures[1..]));
    RunComplete(rest, t, m, Hit(h.end, h.captures[1..]));
    DigitsComplete(pat, t, p, m);
  }

  lemma {:induction false} BracedMatchComplete(pat: seq<Token>, t: string, p: nat, h: Hit)
    requires p <= |t| && pat != [] && pat[0] == Braced && Matches(pat, t, p, h)
    ensures Run(pat, t, p).Some?
    decreases |pat|, 0
  {
    var m := BracedWitness(pat, t, p, h);
    RunComplete(pat[1..], t, m + 1, Hit(h.end, h.captures[1..]));
    BracedComplete(pat, t, p, m);
  }

  /** The end of the brace group that a grammar match of `{…}` chose. */
  lemma BracedWitness(pat: seq<Token>, t: string, p: nat, h: Hit) returns (m: nat)
    requires p <= |t| && pat != [] && pat[0] == Braced && Matches(pat, t, p, h)
    ensures p + 1 < m < |t| && t[p] == '{' && AllIn(t, p + 1, m, NotCloseBrace) && t[m] == '}'
    ensures h.captures != [] && Matches(pat[1..], t, m + 1, Hit(h.end, h.captures[1..]))
  {
    m :| p + 1 < m < |t| && t[p] == '{' && AllIn(t, p + 1, m, NotCloseBrace) && t[m] == '}'
      && h.captures != [] && h.captures[0] == Text(t[p..m + 1])
      && Matches(pat[1..], t, m + 1, Hit(h.end, h.captures[1..]));
  }

  lemma KeyComplete(pat: seq<Token>, t: string, p: nat)
    requires p <= |t| && pat != [] && pat[0].Key? && KeyAt(t, p, pat[0].word)
    requires Run(pat[1..], t, p + |pat[0].word|).Some?
    ensures Run(pat, t, p).Some?
  {
  }

  lemma QuoteComplete(pat: seq<Token>, t: string, p: nat)
    requires p <= |t| && pat != [] && pat[0] == OptQuote
    requires Run(pat[1..], t, p).Some? || (p < |t| && t[p] == '"' && Run(pat[1..], t, p + 1).Some?)
    ensures Run(pat, t, p).Some?
  {
  }

  lemma SpacesComplete(pat: seq<Token>, t: string, p: nat, m: nat)
    requires pat != [] && pat[0] == Spaces
    requires p <= m <= |t| && AllIn(t, p, m, Space) && Run(pat[1..], t, m).Some?
    ensures Run(pat, t, p).Some?
  {
    SpanCovers(t, p, m, Space);
    BacktrackReaches(pat[1..], t, p, Span(t, p, Space), m);
  }

  lemma BacktrackReaches(rest: seq<Token>, t: string, lo: nat, m: nat, k: nat)
    requires lo <= k <= m <= |t| && Run(rest, t, k).Some?
    ensures Backtrack(rest, t, lo, m).Some?
  {
  }

  lemma DigitsComplete(pat: seq<Token>, t: string, p: nat, m: nat)
    requires pat != [] && pat[0] == Digits
    requires p < m <= |t| && AllIn(t, p, m, Digit) && Run(pat[1..], t, m).Some?
    ensures Run(pat, t, p).Some?
  {
    assert InClass(t[p], Digit);
    SpanCovers(t, p, m, Digit);
    BacktrackReaches(pat[1..], t, p + 1, Span(t, p, Digit), m);
  }

  lemma BracedComplete(pat: seq<Token>, t: string, p: nat, m: nat)
    requires pat != [] && pat[0] == Braced
    requires p + 1 < m < |t| && t[p] == '{' && AllIn(t, p + 1, m, NotCloseBrace) && t[m] == '}'
    requires Run(pat[1..], t, m + 1).Some?
    ensures Run(pat, t, p).Some?
  {
    SpanCovers(t, p + 1, m, NotCloseBrace);
    assert Span(t, p + 1, NotCloseBrace) == m;
  }

  /** One step of `Run` over a literal that is present. */
  lemma {:induction false} RunKey(pat: seq<Token>, t: string, p: nat)
    requires p <= |t| && pat != [] && pat[0].Key? && KeyAt(t, p, pat[0].word)
    ensures Run(pat, t, p) == Run(pat[1..], t, p + |pat[0].word|)
  {
  }

  /** One step of `Run` over `\s*` when the longest run of spaces leaves a match. */
  lemma {:induction false} RunSpaces(pat: seq<Token>, t: string, p: nat)
    requires p <= |t| && pat != [] && pat[0] == Spaces && Run(pat[1..], t, Span(t, p, Space)).Some?
    ensures Run(pat, t, p) == Run(pat[1..], t, Span(t, p, Space))
  {
  }

  /** `(\d+)` at the very end of a pattern takes the whole digit run. */
  lemma {:induction false} RunFinalDigits(t: string, p: nat)
    requires p < |t| && IsDigit(t[p])
    ensures var m := Span(t, p, Digit); AllDigits(t[p..m]) && Run([Digits], t, p) == Some(Hit(m, [Number(Value(t[p..m]))]))
  {
    var m := Span(t, p, Digit);
    assert AllDigits(t[p..m]) by {
      forall i | 0 <= i < m - p ensures IsDigit(t[p..m][i]) {
        assert InClass(t[p + i], Digit);
      }
    }
    assert [Digits][1..] == [];
    assert Backtrack([], t, p + 1, m) == Some(Split(m, Hit(m, [])));
    assert Prepend(Number(Value(t[p..m])), Hit(m, [])) == Hit(m, [Number(Value(t[p..m]))]);
  }

  /** `(\d+)` is greedy: a match of a pattern that ends in `(\d+)` ends where
      the digit run ends, never in the middle of it. */
  lemma {:induction false} RunEndsAfterDigits(pat: seq<Token>, t: string, p: nat)
    requires p <= |t| && pat != [] && pat[|pat| - 1] == Digits && Run(pat, t, p).Some?
    ensures var e := Run(pat, t, p).value.end; e == |t| || !IsDigit(t[e])
    decreases |pat|, 1
  {
    var rest := pat[1..];
    if rest == [] {
      assert pat == [Digits];
      RunFinalDigits(t, p);
    } else {
      assert rest[|rest| - 1] == Digits;
      match pat[0]
      case Key(w) =>
        assert Run(pat, t, p) == Run(rest, t, p + |w|);
        RunEndsAfterDigits(rest, t, p + |w|);
      case OptQuote =>
        if p < |t| && t[p] == '"' && Run(rest, t, p + 1).Some? {
          RunEndsAfterDigits(rest, t, p + 1);
        } else {
          RunEndsAfterDigits(rest, t, p);
        }
      case Spaces =>
        SpacesEndAfterDigits(pat, t, p);
      case Digits =>
        DigitsEndAfterDigits(pat, t, p);
      case Braced =>
        BracedEndAfterDigits(pat, t, p);
    }
  }

  lemma {:induction false} SpacesEndAfterDigits(pat: seq<Token>, t: string, p: nat)
    requires p <= |t| && |pat| >= 2 && pat[0] == Spaces && pat[|pat| - 1] == Digits && Run(pat, t, p).Some?
    ensures var e := Run(pat, t, p).value.end; e == |t| || !IsDigit(t[e])
    decreases |pat|, 0
  {
    var rest := pat[1..];
    var b := Backtrack(rest, t, p, Span(t, p, Space)).value;
    assert rest[|rest| - 1] == Digits && Run(pat, t, p).value == b.hit;
    RunEndsAfterDigits(rest, t, b.at);
  }

  lemma {:induction false} DigitsEndAfterDigits(pat: seq<Token>, t: string, p: nat)
    requires p <= |t| && |pat| >= 2 && pat[0] == Digits && pat[|pat| - 1] == Digits && Run(pat, t, p).Some?
    ensures var e := Run(pat, t, p).value.end; e == |t| || !IsDigit(t[e])
    decreases |pat|, 0
  {
    var rest := pat[1..];
    var b := Backtrack(rest, t, p + 1, Span(t, p, Digit)).value;
    assert rest[|rest| - 1] == Digits && Run(pat, t, p).value.end == b.hit.end;
    RunEndsAfterDigits(rest, t, b.at);
  }

  lemma {:induction false} BracedEndAfterDigits(pat: seq<Token>, t: string, p: nat)
    requires p <= |t| && |pat| >= 2 && pat[0] == Braced && pat[|pat| - 1] == Digits && Run(pat, t, p).Some?
    ensures var e := Run(pat, t, p).value.end; e == |t| || !IsDigit(t[e])
    decreases |pat|, 0
  {
    var rest := pat[1..];
    var m := Span(t, p + 1, NotCloseBrace);
    assert rest[|rest| - 1] == Digits && Run(pat, t, p).value.end == Run(rest, t, m + 1).value.end;
    RunEndsAfterDigits(rest, t, m + 1);
  }

  /** `(?:")?` in front of a quote that the rest of the pattern can follow. */
  lemma {:induction false} RunQuote(pat: seq<Token>, t: string, p: nat)
    requires p < |t| && pat != [] && pat[0] == OptQuote && t[p] == '"' && Run(pat[1..], t, p + 1).Some?
    ensures Run(pat, t, p) == Run(pat[1..], t, p + 1)
  {
  }

  /** `(\d+)` over a digit run that the rest of the pattern can follow. */
  lemma {:induction false} RunDigits(pat: seq<Token>, t: string, p: nat)
    requires p < |t| && IsDigit(t[p]) && pat != [] && pat[0] == Digits
    requires Run(pat[1..], t, Span(t, p, Digit)).Some?
    ensures var m := Span(t, p, Digit);
      AllDigits(t[p..m]) && Run(pat, t, p) == Some(Prepend(Number(Value(t[p..m])), Run(pat[1..], t, m).value))
  {
    var m := Span(t, p, Digit);
    assert AllDigits(t[p..m]) by {
      forall i | 0 <= i < m - p ensures IsDigit(t[p..m][i]) {
        assert InClass(t[p + i], Digit);
      }
    }
    assert Backtrack(pat[1..], t, p + 1, m) == Some(Split(m, Run(pat[1..], t, m).value));
  }

  /** A run of class `k` that is followed by a character outside `k` is the longest one. */
  lemma SpanExactly(t: string, p: nat, e: nat, k: Class)
    requires p <= e <= |t| && AllIn(t, p, e, k) && (e == |t| || !InClass(t[e], k))
    ensures Span(t, p, k) == e
  {
    SpanCovers(t, p, e, k);
  }

  /** Text that spells `w` matches the literal `w`. */
  lemma KeyAtSelf(t: string, p: nat, w: string)
    requires p + |w| <= |t| && t[p..p + |w|] == w
    ensures KeyAt(t, p, w)
  {
    forall i | 0 <= i < |w| ensures Fold(t[p + i]) == Fold(w[i]) {
      assert t[p + i] == t[p..p + |w|][i];
    }
  }

  /** A match found at a start offset. */
  datatype Found = Found(offset: nat, hit: Hit)

  /** The first start offset at or after `p` where `pat` matches. */
  function FindFrom(pat: seq<Token>, t: string, p: nat): (r: Option<Found>)
    requires p <= |t|
    ensures r.Some? ==> p <= r.value.offset <= |t| && Run(pat, t, r.value.offset) == Some(r.value.hit)
    ensures r.Some? ==> forall q | p <= q < r.value.offset :: Run(pat, t, q).None?
    ensures r.None? ==> forall q | p <= q <= |t| :: Run(pat, t, q).None?
    decreases |t| - p
  {
    match Run(pat, t, p)
    case Some(h) => Some(Found(p, h))
    case None => if p == |t| then None else FindFrom(pat, t, p + 1)
  }

  /** `text.match(regex)` for a regex without the `g` flag. */
  function Find(pat: seq<Token>, t: string): Option<Found> {
    FindFrom(pat, t, 0)
  }

  /** `Find` reports the leftmost offset at which the grammar matches, and a
      match of the grammar there; it reports nothing only if the grammar
      matches nowhere. */
  lemma FindIsLeftmostMatch(pat: seq<Token>, t: string)
    ensures Find(pat, t).Some? ==>
      var f := Find(pat, t).value;
      && f.offset <= |t| && Matches(pat, t, f.offset, f.hit)
      && forall q, h | 0 <= q < f.offset :: !Matches(pat, t, q, h)
    ensures Find(pat, t).None? ==> forall q, h | 0 <= q <= |t| :: !Matches(pat, t, q, h)
  {
    var r := Find(pat, t);
    var last := if r.Some? then r.value.offset else |t| + 1;
    forall q, h | 0 <= q < last && q <= |t|
      ensures !Matches(pat, t, q, h)
    {
      if Matches(pat, t, q, h) {
        RunComplete(pat, t, q, h);
      }
    }
    if r.Some? {
      RunSound(pat, t, r.value.offset);
    }
  }
}
