/**
  The four command regexes of `processMessage` in script.js, written as token
  sequences for the matcher in module Scan, and the typed values their
  capture groups yield.
*/
module Commands {
  import opened Wrappers
  import opened Scan

  /** `(?:")?name(?:")?\s*:\s*(\d+)` */
  function Field(name: string): seq<Token> {
    [OptQuote, Key(name), OptQuote, Spaces, Key(":"), Spaces, Digits]
  }

  /** `\s*,\s*` */
  const Comma: seq<Token> := [Spaces, Key(","), Spaces]

  /** `/"VIBRATE"\s*:\s*({[^}]+})/i` */
  const MultiVibrateRegex: seq<Token> := [Key("\"VIBRATE\""), Spaces, Key(":"), Spaces, Braced]

  /** `/"VIBRATE"\s*:\s*(\d+)/i` */
  const SingleVibrateRegex: seq<Token> := [Key("\"VIBRATE\""), Spaces, Key(":"), Spaces, Digits]

  /** `"KEY"\s*:\s*{\s*` then the fields separated by `\s*,\s*`, then `\s*}`. */
  function Record(key: string, names: seq<string>): seq<Token> {
    [Key(key), Spaces, Key(":"), Spaces, Key("{"), Spaces] + FieldList(names) + [Spaces, Key("}")]
  }

  function FieldList(names: seq<string>): seq<Token> {
    if |names| == 0 then []
    else if |names| == 1 then Field(names[0])
    else Field(names[0]) + Comma + FieldList(names[1..])
  }

  const LinearKeys: seq<string> := ["start_position", "end_position", "duration"]

  const LinearSpeedKeys: seq<string> :=
    ["start_position", "end_position", "start_duration", "end_duration", "steps"]

  /** `/"LINEAR"\s*:\s*{\s*(?:")?start_position(?:")?\s*:\s*(\d+)\s*,\s*…duration…(\d+)\s*}/i` */
  const LinearRegex: seq<Token> := Record("\"LINEAR\"", LinearKeys)

  /** `/"LINEAR_SPEED"\s*:\s*{\s*…start_position…end_position…start_duration…end_duration…steps…\s*}/i` */
  const LinearSpeedRegex: seq<Token> := Record("\"LINEAR_SPEED\"", LinearSpeedKeys)

  /** The capture groups of a pattern in order: true for `(\d+)`, false for a brace group. */
  function Shape(pat: seq<Token>): seq<bool> {
    if pat == [] then []
    else
      match pat[0]
      case Digits => [true] + Shape(pat[1..])
      case Braced => [false] + Shape(pat[1..])
      case _ => Shape(pat[1..])
  }

  predicate Fits(caps: seq<Capture>, shape: seq<bool>) {
    |caps| == |shape| && forall i | 0 <= i < |caps| :: caps[i].Number? == shape[i]
  }

  lemma {:induction false} ShapeAppend(a: seq<Token>, b: seq<Token>)
    ensures Shape(a + b) == Shape(a) + Shape(b)
  {
    if a == [] {
      assert a + b == b;
    } else {
      assert (a + b)[1..] == a[1..] + b;
      ShapeAppend(a[1..], b);
    }
  }

  lemma FitsCons(c: Capture, caps: seq<Capture>, b: bool, shape: seq<bool>)
    requires Fits(caps, shape) && c.Number? == b
    ensures Fits([c] + caps, [b] + shape)
  {
  }

  /** A match carries exactly the capture groups its pattern has. */
  lemma {:induction false} RunFits(pat: seq<Token>, t: string, p: nat)
    requires p <= |t| && Run(pat, t, p).Some?
    ensures Fits(Run(pat, t, p).value.captures, Shape(pat))
    decreases |pat|, 1
  {
    if pat != [] {
      var rest := pat[1..];
      match pat[0]
      case Key(w) =>
        assert Shape(pat) == Shape(rest) && Run(pat, t, p) == Run(rest, t, p + |w|);
        RunFits(rest, t, p + |w|);
      case OptQuote =>
        assert Shape(pat) == Shape(rest);
        if p < |t| && t[p] == '"' && Run(rest, t, p + 1).Some? {
          RunFits(rest, t, p + 1);
        } else {
          RunFits(rest, t, p);
        }
      case Spaces =>
        SpacesFit(pat, t, p);
      case Digits =>
        DigitsFit(pat, t, p);
      case Braced =>
        BracedFit(pat, t, p);
    }
  }

  lemma {:induction false} SpacesFit(pat: seq<Token>, t: string, p: nat)
    requires p <= |t| && pat != [] && pat[0] == Spaces && Run(pat, t, p).Some?
    ensures Fits(Run(pat, t, p).value.captures, Shape(pat))
    decreases |pat|, 0
  {
    var rest := pat[1..];
    var b := Backtrack(rest, t, p, Span(t, p, Space)).value;
    assert Shape(pat) == Shape(rest) && Run(pat, t, p).value == b.hit;
    RunFits(rest, t, b.at);
  }

  lemma {:induction false} DigitsFit(pat: seq<Token>, t: string, p: nat)
    requires p <= |t| && pat != [] && pat[0] == Digits && Run(pat, t, p).Some?
    ensures Fits(Run(pat, t, p).value.captures, Shape(pat))
    decreases |pat|, 0
  {
    var rest := pat[1..];
    var b := Backtrack(rest, t, p + 1, Span(t, p, Digit)).value;
    var c := Number(Value(t[p..b.at]));
    assert Shape(pat) == [true] + Shape(rest);
    assert Run(pat, t, p).value == Prepend(c, b.hit);
    RunFits(rest, t, b.at);
    FitsCons(c, b.hit.captures, true, Shape(rest));
  }

  lemma {:induction false} BracedFit(pat: seq<Token>, t: string, p: nat)
    requires p <= |t| && pat != [] && pat[0] == Braced && Run(pat, t, p).Some?
    ensures Fits(Run(pat, t, p).value.captures, Shape(pat))
    decreases |pat|, 0
  {
    var rest := pat[1..];
    var m := Span(t, p + 1, NotCloseBrace);
    var r := Run(rest, t, m + 1).value;
    var c := Text(t[p..m + 1]);
    assert Shape(pat) == [false] + Shape(rest);
    assert Run(pat, t, p).value == Prepend(c, r);
    RunFits(rest, t, m + 1);
    FitsCons(c, r.captures, false, Shape(rest));
  }

  /** A located match: where the regex starts and ends, and what it yields. */
  datatype Located<T> = Located(offset: nat, end: nat, value: T)

  /** The leftmost match of `pat` in `t` with its captures, as `text.match(regex)` gives it. */
  function Locate(pat: seq<Token>, t: string): (r: Option<Located<seq<Capture>>>)
    ensures r.Some? ==>
      && r.value.offset <= |t|
      && Matches(pat, t, r.value.offset, Hit(r.value.end, r.value.value))
      && Fits(r.value.value, Shape(pat))
    ensures r.Some? ==> Run(pat, t, r.value.offset) == Some(Hit(r.value.end, r.value.value))
    ensures r.Some? ==> forall q, h | 0 <= q < r.value.offset :: !Matches(pat, t, q, h)
    ensures r.None? ==> forall q, h | 0 <= q <= |t| :: !Matches(pat, t, q, h)
  {
    FindIsLeftmostMatch(pat, t);
    match Find(pat, t)
    case None => None
    case Some(f) =>
      RunFits(pat, t, f.offset);
      Some(Located(f.offset, f.hit.end, f.hit.captures))
  }

  /** A regex that matches at the very start is located there. */
  lemma LocateAtStart(pat: seq<Token>, t: string, h: Hit)
    requires Run(pat, t, 0) == Some(h)
    ensures Locate(pat, t) == Some(Located(0, h.end, h.captures))
  {
  }

  datatype LinearArgs = LinearArgs(startPos: nat, endPos: nat, duration: nat)

  datatype LinearSpeedArgs =
    LinearSpeedArgs(startPos: nat, endPos: nat, startDur: nat, endDur: nat, steps: nat)

  lemma {:induction false} ShapeOfFieldList(names: seq<string>)
    ensures Shape(FieldList(names)) == seq(|names|, _ => true)
    decreases |names|
  {
    if |names| >= 1 {
      var f := Field(names[0]);
      assert Shape(f[6..]) == [true];
      assert Shape(f[5..]) == [true];
      assert Shape(f[4..]) == [true];
      assert Shape(f[3..]) == [true];
      assert Shape(f[2..]) == [true];
      assert Shape(f[1..]) == [true];
      assert Shape(f) == [true];
      if |names| > 1 {
        assert Shape(Comma[2..]) == [] && Shape(Comma[1..]) == [] && Shape(Comma) == [];
        ShapeOfFieldList(names[1..]);
        ShapeAppend(f, Comma);
        ShapeAppend(f + Comma, FieldList(names[1..]));
      }
    }
  }

  /** A record regex captures exactly one number per field. */
  lemma ShapeOfRecord(key: string, names: seq<string>)
    ensures Shape(Record(key, names)) == seq(|names|, _ => true)
  {
    var head := [Key(key), Spaces, Key(":"), Spaces, Key("{"), Spaces];
    assert Shape(head[5..]) == [];
    assert Shape(head[4..]) == [];
    assert Shape(head[3..]) == [];
    assert Shape(head[2..]) == [];
    assert Shape(head[1..]) == [];
    assert Shape(head) == [];
    var tail := [Spaces, Key("}")];
    assert Shape(tail[1..]) == [] && Shape(tail) == [];
    ShapeOfFieldList(names);
    ShapeAppend(head, FieldList(names));
    ShapeAppend(head + FieldList(names), [Spaces, Key("}")]);
  }

  lemma LinearCaptures(c: seq<Capture>)
    requires Fits(c, Shape(LinearRegex))
    ensures |c| == 3 && c[0].Number? && c[1].Number? && c[2].Number?
    ensures c == [Number(c[0].n), Number(c[1].n), Number(c[2].n)]
  {
    ShapeOfRecord("\"LINEAR\"", LinearKeys);
  }

  lemma LinearSpeedCaptures(c: seq<Capture>)
    requires Fits(c, Shape(LinearSpeedRegex))
    ensures |c| == 5 && c[0].Number? && c[1].Number? && c[2].Number? && c[3].Number? && c[4].Number?
    ensures c == [Number(c[0].n), Number(c[1].n), Number(c[2].n), Number(c[3].n), Number(c[4].n)]
  {
    ShapeOfRecord("\"LINEAR_SPEED\"", LinearSpeedKeys);
  }

  lemma ShapeOfVibrateRegexes()
    ensures Shape(MultiVibrateRegex) == [false] && Shape(SingleVibrateRegex) == [true]
  {
    var m, v := MultiVibrateRegex, SingleVibrateRegex;
    assert Shape(m[4..]) == [false] && Shape(v[4..]) == [true];
    assert Shape(m[3..]) == [false] && Shape(v[3..]) == [true];
    assert Shape(m[2..]) == [false] && Shape(v[2..]) == [true];
    assert Shape(m[1..]) == [false] && Shape(v[1..]) == [true];
  }

  /** The leftmost `"VIBRATE": {…}`, yielding the brace group's text. */
  function FindMultiVibrate(t: string): (r: Option<Located<string>>)
    ensures r.Some? ==>
      r.value.offset <= |t| && Matches(MultiVibrateRegex, t, r.value.offset, Hit(r.value.end, [Text(r.value.value)]))
    ensures r.Some? ==> forall q, h | 0 <= q < r.value.offset :: !Matches(MultiVibrateRegex, t, q, h)
    ensures r.None? ==> forall q, h | 0 <= q <= |t| :: !Matches(MultiVibrateRegex, t, q, h)
  {
    match Locate(MultiVibrateRegex, t)
    case None => None
    case Some(l) =>
      ShapeOfVibrateRegexes();
      assert l.value == [Text(l.value[0].s)];
      Some(Located(l.offset, l.end, l.value[0].s))
  }

  /** The leftmost `"VIBRATE": <digits>`, yielding the number the whole digit run spells: the
      greedy `(\d+)` stops only where the digits stop. */
  function FindSingleVibrate(t: string): (r: Option<Located<nat>>)
    ensures r.Some? ==>
      r.value.offset <= |t| && Matches(SingleVibrateRegex, t, r.value.offset, Hit(r.value.end, [Number(r.value.value)]))
    ensures r.Some? ==> r.value.offset <= r.value.end <= |t| && (r.value.end == |t| || !IsDigit(t[r.value.end]))
    ensures r.Some? ==> forall q, h | 0 <= q < r.value.offset :: !Matches(SingleVibrateRegex, t, q, h)
    ensures r.None? ==> forall q, h | 0 <= q <= |t| :: !Matches(SingleVibrateRegex, t, q, h)
  {
    match Locate(SingleVibrateRegex, t)
    case None => None
    case Some(l) =>
      RunEndsAfterDigits(SingleVibrateRegex, t, l.offset);
      ShapeOfVibrateRegexes();
      assert l.value == [Number(l.value[0].n)];
      Some(Located(l.offset, l.end, l.value[0].n))
  }

  /** The leftmost LINEAR record, yielding its three numbers in key order. */
  function FindLinear(t: string): (r: Option<Located<LinearArgs>>)
    ensures r.Some? ==>
      var a := r.value.value;
      && r.value.offset <= |t|
      && Matches(LinearRegex, t, r.value.offset,
                 Hit(r.value.end, [Number(a.startPos), Number(a.endPos), Number(a.duration)]))
    ensures r.Some? ==> forall q, h | 0 <= q < r.value.offset :: !Matches(LinearRegex, t, q, h)
    ensures r.None? ==> forall q, h | 0 <= q <= |t| :: !Matches(LinearRegex, t, q, h)
  {
    match Locate(LinearRegex, t)
    case None => None
    case Some(l) =>
      var c := l.value;
      LinearCaptures(c);
      Some(Located(l.offset, l.end, LinearArgs(c[0].n, c[1].n, c[2].n)))
  }

  /** The leftmost LINEAR_SPEED record, yielding its five numbers in key order. */
  function FindLinearSpeed(t: string): (r: Option<Located<LinearSpeedArgs>>)
    ensures r.Some? ==>
      var a := r.value.value;
      && r.value.offset <= |t|
      && Matches(LinearSpeedRegex, t, r.value.offset,
                 Hit(r.value.end, [Number(a.startPos), Number(a.endPos), Number(a.startDur),
                                   Number(a.endDur), Number(a.steps)]))
    ensures r.Some? ==> forall q, h | 0 <= q < r.value.offset :: !Matches(LinearSpeedRegex, t, q, h)
    ensures r.None? ==> forall q, h | 0 <= q <= |t| :: !Matches(LinearSpeedRegex, t, q, h)
  {
    match Locate(LinearSpeedRegex, t)
    case None => None
    case Some(l) =>
      var c := l.value;
      LinearSpeedCaptures(c);
      Some(Located(l.offset, l.end, LinearSpeedArgs(c[0].n, c[1].n, c[2].n, c[3].n, c[4].n)))
  }
}
