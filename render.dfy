/**
  The canonical text of each command (`"VIBRATE": n`, `"VIBRATE": {…}` and
  `"KEY": {"name": n, …}`) and the round trips: each command regex reads back
  exactly what was written, in the order it was written.
*/
module Render {
  import opened Wrappers
  import opened Scan
  import opened Commands

  /** `"name": n` */
  function FieldText(name: string, v: nat): string {
    "\"" + name + "\": " + Show(v)
  }

  /** The fields joined by `, `. */
  function FieldsText(names: seq<string>, vs: seq<nat>): string
    requires |names| == |vs|
  {
    if |names| == 0 then ""
    else if |names| == 1 then FieldText(names[0], vs[0])
    else FieldText(names[0], vs[0]) + ", " + FieldsText(names[1..], vs[1..])
  }

  /** `"KEY": {"a": n, "b": m, …}` */
  function RecordText(key: string, names: seq<string>, vs: seq<nat>): string
    requires |names| == |vs|
  {
    key + ": {" + FieldsText(names, vs) + "}"
  }

  /** `"VIBRATE": n` */
  function VibrateText(v: nat): string {
    "\"VIBRATE\": " + Show(v)
  }

  function Numbers(vs: seq<nat>): seq<Capture> {
    if vs == [] then [] else [Number(vs[0])] + Numbers(vs[1..])
  }

  /** Text that spells `s` at `p` spells each piece of `s` at the matching place. */
  lemma Spells(t: string, p: nat, s: string, i: nat, j: nat)
    requires p + |s| <= |t| && t[p..p + |s|] == s && i <= j <= |s|
    ensures t[p + i..p + j] == s[i..j]
  {
    forall n | 0 <= n < j - i ensures t[p + i..p + j][n] == s[i..j][n] {
      assert t[p + i + n] == t[p..p + |s|][i + n];
    }
  }

  /** A digit run spelled out in the text is a run of class `Digit`. */
  lemma DigitsSpelled(t: string, d: nat, e: nat)
    requires d <= e <= |t| && AllDigits(t[d..e])
    ensures AllIn(t, d, e, Digit)
  {
    forall n | d <= n < e ensures InClass(t[n], Digit) {
      assert t[n] == t[d..e][n - d];
    }
  }

  /** `(\d+)` then `rest`, over the numeral of `v`. */
  lemma {:induction false} RunNumber(pat: seq<Token>, t: string, d: nat, v: nat)
    requires pat != [] && pat[0] == Digits
    requires d + |Show(v)| <= |t| && t[d..d + |Show(v)|] == Show(v)
    requires var e := d + |Show(v)|; (e == |t| || !IsDigit(t[e])) && Run(pat[1..], t, e).Some?
    ensures Run(pat, t, d) == Some(Prepend(Number(v), Run(pat[1..], t, d + |Show(v)|).value))
  {
    var e := d + |Show(v)|;
    assert t[d] == Show(v)[0];
    DigitsSpelled(t, d, e);
    SpanExactly(t, d, e, Digit);
    ValueOfShow(v);
    RunDigits(pat, t, d);
  }

  /** `\s*:\s*` then `rest`, over `: ` in front of something other than a space. */
  lemma {:induction false} RunColon(pat: seq<Token>, t: string, c: nat)
    requires |pat| >= 3 && pat[0] == Spaces && pat[1] == Key(":") && pat[2] == Spaces
    requires c + 2 < |t| && t[c] == ':' && t[c + 1] == ' ' && !IsSpace(t[c + 2]) && Run(pat[3..], t, c + 2).Some?
    ensures Run(pat, t, c) == Run(pat[3..], t, c + 2)
  {
    SpanExactly(t, c + 1, c + 2, Space);
    assert pat[2..][1..] == pat[3..];
    RunSpaces(pat[2..], t, c + 1);
    KeyAtSelf(t, c, ":");
    assert pat[1..][1..] == pat[2..];
    RunKey(pat[1..], t, c);
    SpanExactly(t, c, c, Space);
    RunSpaces(pat, t, c);
  }

  /** The pieces of `: n` spelled at `c`. */
  lemma ColonNumberPieces(t: string, c: nat, v: nat)
    requires c + 2 + |Show(v)| <= |t| && t[c..c + 2 + |Show(v)|] == ": " + Show(v)
    ensures t[c] == ':' && t[c + 1] == ' ' && IsDigit(t[c + 2])
    ensures t[c + 2..c + 2 + |Show(v)|] == Show(v)
  {
    var text := ": " + Show(v);
    Spells(t, c, text, 2, |text|);
    assert text[2..] == Show(v);
    assert t[c] == text[0] && t[c + 1] == text[1] && t[c + 2] == text[2] == Show(v)[0];
  }

  /** `\s*:\s*(\d+)` then `rest`, over `: n` at `c`. */
  lemma {:induction false} RunColonNumber(pat: seq<Token>, t: string, c: nat, v: nat)
    requires |pat| >= 4 && pat[0] == Spaces && pat[1] == Key(":") && pat[2] == Spaces && pat[3] == Digits
    requires c + 2 + |Show(v)| <= |t| && t[c..c + 2 + |Show(v)|] == ": " + Show(v)
    requires var e := c + 2 + |Show(v)|; (e == |t| || !IsDigit(t[e])) && Run(pat[4..], t, e).Some?
    ensures var e := c + 2 + |Show(v)|;
      Run(pat, t, c) == Some(Prepend(Number(v), Run(pat[4..], t, e).value))
  {
    ColonNumberPieces(t, c, v);
    var digits := pat[3..];
    assert digits[1..] == pat[4..];
    RunNumber(digits, t, c + 2, v);
    RunColon(pat, t, c);
  }

  /** `(?:")?name(?:")?` then `rest`, over `"name"`. */
  lemma {:induction false} RunQuotedName(pat: seq<Token>, t: string, p: nat, name: string)
    requires |pat| >= 3 && pat[0] == OptQuote && pat[1] == Key(name) && pat[2] == OptQuote
    requires p + |name| + 2 <= |t| && t[p..p + |name| + 2] == "\"" + name + "\""
    requires Run(pat[3..], t, p + |name| + 2).Some?
    ensures Run(pat, t, p) == Run(pat[3..], t, p + |name| + 2)
  {
    var q := p + 1 + |name|;
    var w := "\"" + name + "\"";
    assert t[q] == w[|name| + 1];
    assert pat[2..][1..] == pat[3..];
    RunQuote(pat[2..], t, q);
    Spells(t, p, w, 1, |name| + 1);
    assert w[1..|name| + 1] == name;
    KeyAtSelf(t, p + 1, name);
    assert pat[1..][1..] == pat[2..];
    RunKey(pat[1..], t, p + 1);
    assert t[p] == w[0];
    RunQuote(pat, t, p);
  }

  /** `(?:")?name(?:")?\s*:\s*(\d+)` then `rest`, over `"name": n`. */
  lemma {:induction false} RunField(name: string, v: nat, rest: seq<Token>, t: string, p: nat)
    requires p + |FieldText(name, v)| <= |t| && t[p..p + |FieldText(name, v)|] == FieldText(name, v)
    requires var e := p + |FieldText(name, v)|; (e == |t| || !IsDigit(t[e])) && Run(rest, t, e).Some?
    ensures var e := p + |FieldText(name, v)|;
      Run(Field(name) + rest, t, p) == Some(Prepend(Number(v), Run(rest, t, e).value))
  {
    var f := FieldText(name, v);
    var pat := Field(name) + rest;
    assert f == "\"" + name + "\"" + (": " + Show(v));
    Spells(t, p, f, |name| + 2, |f|);
    assert pat[3..][4..] == rest;
    RunColonNumber(pat[3..], t, p + |name| + 2, v);
    Spells(t, p, f, 0, |name| + 2);
    RunQuotedName(pat, t, p, name);
  }

  /** `\s*,\s*` then `rest`, over `, ` in front of a quote. */
  lemma {:induction false} RunComma(rest: seq<Token>, t: string, e: nat)
    requires e + 2 < |t| && t[e] == ',' && t[e + 1] == ' ' && t[e + 2] == '"' && Run(rest, t, e + 2).Some?
    ensures Run(Comma + rest, t, e) == Run(rest, t, e + 2)
  {
    var pat := Comma + rest;
    SpanExactly(t, e + 1, e + 2, Space);
    assert pat[2..][1..] == rest;
    RunSpaces(pat[2..], t, e + 1);
    KeyAtSelf(t, e, ",");
    assert pat[1..][1..] == pat[2..];
    RunKey(pat[1..], t, e);
    SpanExactly(t, e, e, Space);
    RunSpaces(pat, t, e);
  }

  lemma FieldsTextStartsWithQuote(names: seq<string>, vs: seq<nat>)
    requires |names| == |vs| >= 1
    ensures |FieldsText(names, vs)| > 0 && FieldsText(names, vs)[0] == '"'
  {
  }

  /** The field list of a record regex reads back every number, in order. */
  lemma {:induction false} RunFieldList(names: seq<string>, vs: seq<nat>, rest: seq<Token>, t: string, p: nat)
    requires |names| == |vs| >= 1
    requires p + |FieldsText(names, vs)| <= |t| && t[p..p + |FieldsText(names, vs)|] == FieldsText(names, vs)
    requires var e := p + |FieldsText(names, vs)|; (e == |t| || !IsDigit(t[e])) && Run(rest, t, e).Some?
    ensures var h := Run(rest, t, p + |FieldsText(names, vs)|).value;
      Run(FieldList(names) + rest, t, p) == Some(Hit(h.end, Numbers(vs) + h.captures))
    decreases |names|
  {
    if |names| == 1 {
      RunLastField(names, vs, rest, t, p);
    } else {
      var p2 := FieldCommaPieces(names, vs, t, p);
      RunFieldList(names[1..], vs[1..], rest, t, p2);
      RunFieldListStep(names, vs, rest, t, p);
    }
  }

  /** Where a field list of two or more fields spells its first field, the
      separator after it and the remaining fields, which start at `p2`. */
  lemma FieldCommaPieces(names: seq<string>, vs: seq<nat>, t: string, p: nat) returns (p2: nat)
    requires |names| == |vs| >= 2
    requires p + |FieldsText(names, vs)| <= |t| && t[p..p + |FieldsText(names, vs)|] == FieldsText(names, vs)
    ensures var f, tail := FieldText(names[0], vs[0]), FieldsText(names[1..], vs[1..]);
      && p2 == p + |f| + 2 && p2 + |tail| == p + |FieldsText(names, vs)|
      && t[p..p + |f|] == f && t[p + |f|] == ',' && t[p + |f| + 1] == ' ' && t[p2] == '"'
      && t[p2..p2 + |tail|] == tail
  {
    var f, ft := FieldText(names[0], vs[0]), FieldsText(names, vs);
    var tail := FieldsText(names[1..], vs[1..]);
    p2 := p + |f| + 2;
    FieldsTextSplit(names, vs);
    Spells(t, p, ft, |f| + 2, |ft|);
    Spells(t, p, ft, 0, |f|);
    assert t[p + |f|] == ft[|f|] && t[p + |f| + 1] == ft[|f| + 1] && t[p + |f| + 2] == ft[|f| + 2];
  }

  /** The field list of a one-field record. */
  lemma {:induction false} RunLastField(names: seq<string>, vs: seq<nat>, rest: seq<Token>, t: string, p: nat)
    requires |names| == |vs| == 1
    requires p + |FieldsText(names, vs)| <= |t| && t[p..p + |FieldsText(names, vs)|] == FieldsText(names, vs)
    requires var e := p + |FieldsText(names, vs)|; (e == |t| || !IsDigit(t[e])) && Run(rest, t, e).Some?
    ensures var h := Run(rest, t, p + |FieldsText(names, vs)|).value;
      Run(FieldList(names) + rest, t, p) == Some(Hit(h.end, Numbers(vs) + h.captures))
  {
    var caps := Run(rest, t, p + |FieldsText(names, vs)|).value.captures;
    assert FieldList(names) == Field(names[0]) && FieldsText(names, vs) == FieldText(names[0], vs[0]);
    RunField(names[0], vs[0], rest, t, p);
    NumbersCons(vs, caps);
    assert Numbers(vs[1..]) + caps == caps;
  }

  /** The first field, the separator and the remaining fields of a field list text. */
  lemma FieldsTextSplit(names: seq<string>, vs: seq<nat>)
    requires |names| == |vs| >= 2
    ensures var f, ft := FieldText(names[0], vs[0]), FieldsText(names, vs);
      && |ft| == |f| + 2 + |FieldsText(names[1..], vs[1..])|
      && ft[..|f|] == f && ft[|f|] == ',' && ft[|f| + 1] == ' ' && ft[|f| + 2] == '"'
      && ft[|f| + 2..] == FieldsText(names[1..], vs[1..])
  {
    var f, ft := FieldText(names[0], vs[0]), FieldsText(names, vs);
    var tail := FieldsText(names[1..], vs[1..]);
    assert ft == f + ", " + tail;
    FieldsTextStartsWithQuote(names[1..], vs[1..]);
    assert ft[|f| + 2] == tail[0];
  }

  /** A field and the separator after it, in front of what `more` reads. */
  lemma {:induction false} RunFieldComma(name: string, v: nat, more: seq<Token>, t: string, p: nat)
    requires var e := p + |FieldText(name, v)|;
      && e + 2 < |t| && t[p..e] == FieldText(name, v)
      && t[e] == ',' && t[e + 1] == ' ' && t[e + 2] == '"' && Run(more, t, e + 2).Some?
    ensures Run(Field(name) + (Comma + more), t, p)
      == Some(Prepend(Number(v), Run(more, t, p + |FieldText(name, v)| + 2).value))
  {
    var e := p + |FieldText(name, v)|;
    RunComma(more, t, e);
    RunField(name, v, Comma + more, t, p);
  }

  /** One field more in front of a field list that reads back. */
  lemma {:induction false} RunFieldListStep(names: seq<string>, vs: seq<nat>, rest: seq<Token>, t: string, p: nat)
    requires |names| == |vs| >= 2
    requires p + |FieldsText(names, vs)| <= |t| && t[p..p + |FieldsText(names, vs)|] == FieldsText(names, vs)
    requires var e := p + |FieldsText(names, vs)|; (e == |t| || !IsDigit(t[e])) && Run(rest, t, e).Some?
    requires var h := Run(rest, t, p + |FieldsText(names, vs)|).value;
      Run(FieldList(names[1..]) + rest, t, p + |FieldText(names[0], vs[0])| + 2)
        == Some(Hit(h.end, Numbers(vs[1..]) + h.captures))
    ensures var h := Run(rest, t, p + |FieldsText(names, vs)|).value;
      Run(FieldList(names) + rest, t, p) == Some(Hit(h.end, Numbers(vs) + h.captures))
  {
    var h := Run(rest, t, p + |FieldsText(names, vs)|).value;
    var more := FieldList(names[1..]) + rest;
    var _ := FieldCommaPieces(names, vs, t, p);
    RunFieldComma(names[0], vs[0], more, t, p);
    FieldListCons(names, rest);
    NumbersCons(vs, h.captures);
  }

  lemma FieldListCons(names: seq<string>, rest: seq<Token>)
    requires |names| >= 2
    ensures FieldList(names) + rest == Field(names[0]) + (Comma + (FieldList(names[1..]) + rest))
  {
  }

  lemma {:induction false} NumbersAt(vs: seq<nat>)
    ensures |Numbers(vs)| == |vs| && forall i | 0 <= i < |vs| :: Numbers(vs)[i] == Number(vs[i])
  {
    if vs != [] {
      NumbersAt(vs[1..]);
    }
  }

  lemma NumbersCons(vs: seq<nat>, tail: seq<Capture>)
    requires vs != []
    ensures Numbers(vs) + tail == [Number(vs[0])] + (Numbers(vs[1..]) + tail)
  {
  }

  /** `\s*}` over the closing brace. */
  lemma RunClose(t: string, e: nat)
    requires e < |t| && t[e] == '}'
    ensures Run([Spaces, Key("}")], t, e) == Some(Hit(e + 1, []))
  {
    var tail := [Spaces, Key("}")];
    SpanExactly(t, e, e, Space);
    KeyAtSelf(t, e, "}");
    assert tail[1..][1..] == [];
    RunKey(tail[1..], t, e);
    RunSpaces(tail, t, e);
  }

  /** `{\s*` then `rest`, over an opening brace and a quote. */
  lemma {:induction false} RunOpen(pat: seq<Token>, t: string, b: nat)
    requires |pat| >= 2 && pat[0] == Key("{") && pat[1] == Spaces
    requires b + 1 < |t| && t[b] == '{' && t[b + 1] == '"' && Run(pat[2..], t, b + 1).Some?
    ensures Run(pat, t, b) == Run(pat[2..], t, b + 1)
  {
    SpanExactly(t, b + 1, b + 1, Space);
    assert pat[1..][1..] == pat[2..];
    RunSpaces(pat[1..], t, b + 1);
    KeyAtSelf(t, b, "{");
    RunKey(pat, t, b);
  }

  /** `"KEY"\s*:\s*{\s*` then `rest`, over `"KEY": {"`. */
  lemma {:induction false} RunHead(pat: seq<Token>, t: string, p: nat, key: string)
    requires |pat| >= 6 && pat[0] == Key(key) && pat[1] == Spaces && pat[2] == Key(":")
    requires pat[3] == Spaces && pat[4] == Key("{") && pat[5] == Spaces
    requires p + |key| + 3 < |t| && t[p..p + |key| + 3] == key + ": {" && t[p + |key| + 3] == '"'
    requires Run(pat[6..], t, p + |key| + 3).Some?
    ensures Run(pat, t, p) == Run(pat[6..], t, p + |key| + 3)
  {
    var k := p + |key|;
    var w := key + ": {";
    assert t[k] == w[|key|] && t[k + 1] == w[|key| + 1] && t[k + 2] == w[|key| + 2];
    assert pat[4..][2..] == pat[6..];
    RunOpen(pat[4..], t, k + 2);
    assert pat[1..][3..] == pat[4..];
    RunColon(pat[1..], t, k);
    Spells(t, p, w, 0, |key|);
    KeyAtSelf(t, p, key);
    RunKey(pat, t, p);
  }

  lemma RecordLayout(key: string, names: seq<string>, vs: seq<nat>)
    requires |names| == |vs| >= 1
    ensures var r, ft := RecordText(key, names, vs), FieldsText(names, vs);
      && |r| == |key| + 4 + |ft| && r[..|key| + 3] == key + ": {"
      && r[|key| + 3..|key| + 3 + |ft|] == ft && r[|key| + 3] == '"' && r[|r| - 1] == '}'
  {
    FieldsTextStartsWithQuote(names, vs);
  }

  lemma RecordSplit(key: string, names: seq<string>)
    ensures var pat := Record(key, names);
      && |pat| >= 6 && pat[0] == Key(key) && pat[1] == Spaces && pat[2] == Key(":")
      && pat[3] == Spaces && pat[4] == Key("{") && pat[5] == Spaces
      && pat[6..] == FieldList(names) + [Spaces, Key("}")]
  {
  }

  /** Where a record text spelled at `p` puts its head, its fields and its closing brace. */
  lemma RecordPieces(key: string, names: seq<string>, vs: seq<nat>, t: string, p: nat)
    requires |names| == |vs| >= 1
    requires p + |RecordText(key, names, vs)| <= |t| && t[p..p + |RecordText(key, names, vs)|] == RecordText(key, names, vs)
    ensures var d, ft := p + |key| + 3, FieldsText(names, vs);
      && p + |RecordText(key, names, vs)| == d + |ft| + 1
      && t[p..d] == key + ": {" && t[d] == '"' && t[d..d + |ft|] == ft && t[d + |ft|] == '}'
  {
    var r := RecordText(key, names, vs);
    var ft := FieldsText(names, vs);
    var d := p + |key| + 3;
    RecordLayout(key, names, vs);
    assert t[d + |ft|] == r[|r| - 1];
    Spells(t, p, r, |key| + 3, |key| + 3 + |ft|);
    Spells(t, p, r, 0, |key| + 3);
    assert t[d] == r[|key| + 3];
  }

  /** A record regex reads back a record written in its own key order. */
  lemma {:induction false} RunRecord(key: string, names: seq<string>, vs: seq<nat>, t: string, p: nat)
    requires |names| == |vs| >= 1
    requires p + |RecordText(key, names, vs)| <= |t| && t[p..p + |RecordText(key, names, vs)|] == RecordText(key, names, vs)
    ensures Run(Record(key, names), t, p) == Some(Hit(p + |RecordText(key, names, vs)|, Numbers(vs)))
  {
    var pat := Record(key, names);
    var close := [Spaces, Key("}")];
    var d := p + |key| + 3;
    var e := d + |FieldsText(names, vs)|;
    RecordPieces(key, names, vs, t, p);
    RunClose(t, e);
    RunFieldList(names, vs, close, t, d);
    assert Numbers(vs) + [] == Numbers(vs);
    RecordSplit(key, names);
    assert Run(pat[6..], t, d) == Some(Hit(e + 1, Numbers(vs)));
    RunHead(pat, t, p, key);
  }

  /** `({[^}]+})` then `rest`, over a flat brace group. */
  lemma {:induction false} RunBraced(pat: seq<Token>, t: string, b: nat, m: nat)
    requires pat != [] && pat[0] == Braced
    requires b + 1 < m < |t| && t[b] == '{' && AllIn(t, b + 1, m, NotCloseBrace) && t[m] == '}'
    requires Run(pat[1..], t, m + 1).Some?
    ensures Run(pat, t, b) == Some(Prepend(Text(t[b..m + 1]), Run(pat[1..], t, m + 1).value))
  {
    SpanExactly(t, b + 1, m, NotCloseBrace);
  }

  function LinearText(a: LinearArgs): string {
    RecordText("\"LINEAR\"", LinearKeys, [a.startPos, a.endPos, a.duration])
  }

  function LinearSpeedText(a: LinearSpeedArgs): string {
    RecordText("\"LINEAR_SPEED\"", LinearSpeedKeys, [a.startPos, a.endPos, a.startDur, a.endDur, a.steps])
  }

  /** The two pieces of `"VIBRATE": n` spelled at `p`. */
  lemma VibrateTextPieces(t: string, p: nat, v: nat)
    requires p + |VibrateText(v)| <= |t| && t[p..p + |VibrateText(v)|] == VibrateText(v)
    ensures |VibrateText(v)| == 11 + |Show(v)|
    ensures t[p..p + 9] == "\"VIBRATE\"" && t[p + 9..p + |VibrateText(v)|] == ": " + Show(v)
  {
    var w := VibrateText(v);
    Spells(t, p, w, 9, |w|);
    assert w[9..] == ": " + Show(v);
    Spells(t, p, w, 0, 9);
    assert w[..9] == "\"VIBRATE\"";
  }

  /** `\s*:\s*(\d+)`, the tail of the single-VIBRATE regex, over `: n` at `c`. */
  lemma {:induction false} RunVibrateTail(t: string, c: nat, v: nat)
    requires c + 2 + |Show(v)| <= |t| && t[c..c + 2 + |Show(v)|] == ": " + Show(v)
    requires var e := c + 2 + |Show(v)|; e == |t| || !IsDigit(t[e])
    ensures Run(SingleVibrateRegex[1..], t, c) == Some(Hit(c + 2 + |Show(v)|, [Number(v)]))
  {
    var pat := SingleVibrateRegex[1..];
    var e := c + 2 + |Show(v)|;
    assert pat[4..] == [];
    assert Run(pat[4..], t, e) == Some(Hit(e, []));
    RunColonNumber(pat, t, c, v);
    assert [Number(v)] + [] == [Number(v)];
  }

  /** `"VIBRATE"\s*:\s*(\d+)` over `"VIBRATE": n` at `p`, not followed by another digit. */
  lemma {:induction false} RunSingleVibrate(t: string, p: nat, v: nat)
    requires p + |VibrateText(v)| <= |t| && t[p..p + |VibrateText(v)|] == VibrateText(v)
    requires var e := p + |VibrateText(v)|; e == |t| || !IsDigit(t[e])
    ensures Run(SingleVibrateRegex, t, p) == Some(Hit(p + |VibrateText(v)|, [Number(v)]))
  {
    VibrateTextPieces(t, p, v);
    RunVibrateTail(t, p + 9, v);
    KeyAtSelf(t, p, "\"VIBRATE\"");
    RunKey(SingleVibrateRegex, t, p);
  }

  /** `"VIBRATE": n` reads back as intensity `n`, whatever follows unless it is another digit. */
  lemma {:induction false} SingleVibrateRoundTrip(v: nat, rest: string)
    requires rest == [] || !IsDigit(rest[0])
    ensures FindSingleVibrate(VibrateText(v) + rest) == Some(Located(0, |VibrateText(v)|, v))
  {
    var t := VibrateText(v) + rest;
    var e := |VibrateText(v)|;
    assert t[0..e] == VibrateText(v);
    assert e == |t| || t[e] == rest[0];
    RunSingleVibrate(t, 0, v);
    LocateAtStart(SingleVibrateRegex, t, Hit(e, [Number(v)]));
  }

  /** `"VIBRATE"\s*:\s*({[^}]+})` over `"VIBRATE": {…}` at the start of `t`,
      the brace group closing at `m`. */
  lemma {:induction false} RunMultiVibrate(t: string, m: nat)
    requires 12 < m < |t| && t[0..9] == "\"VIBRATE\"" && t[9] == ':' && t[10] == ' ' && t[11] == '{'
    requires AllIn(t, 12, m, NotCloseBrace) && t[m] == '}'
    ensures Run(MultiVibrateRegex, t, 0) == Some(Hit(m + 1, [Text(t[11..m + 1])]))
  {
    var pat := MultiVibrateRegex;
    var colon := pat[1..];
    var braced := colon[3..];
    var h := Hit(m + 1, [Text(t[11..m + 1])]);
    assert colon == [Spaces, Key(":"), Spaces, Braced] && braced == [Braced];
    assert Run(braced[1..], t, m + 1) == Some(Hit(m + 1, []));
    RunBraced(braced, t, 11, m);
    assert Prepend(Text(t[11..m + 1]), Hit(m + 1, [])) == h;
    assert Run(braced, t, 11) == Some(h);
    RunColon(colon, t, 9);
    assert Run(colon, t, 9) == Some(h);
    KeyAtSelf(t, 0, "\"VIBRATE\"");
    RunKey(pat, t, 0);
  }

  /** Where `"VIBRATE": {inner}` puts its pieces. */
  lemma MultiVibrateLayout(inner: string, rest: string)
    requires inner != [] && forall i | 0 <= i < |inner| :: inner[i] != '}'
    ensures var t, m := "\"VIBRATE\": {" + inner + "}" + rest, 12 + |inner|;
      && 12 < m < |t| && t[0..9] == "\"VIBRATE\"" && t[9] == ':' && t[10] == ' ' && t[11] == '{'
      && AllIn(t, 12, m, NotCloseBrace) && t[m] == '}' && t[11..m + 1] == "{" + inner + "}"
  {
    var t := "\"VIBRATE\": {" + inner + "}" + rest;
    var m := 12 + |inner|;
    assert t[0..9] == "\"VIBRATE\"" && t[9] == ':' && t[10] == ' ' && t[11] == '{' && t[m] == '}';
    assert t[11..m + 1] == "{" + inner + "}";
    forall n | 12 <= n < m ensures InClass(t[n], NotCloseBrace) {
      assert t[n] == inner[n - 12];
    }
  }

  /** `"VIBRATE": {…}` reads back the whole brace group, braces included. */
  lemma {:induction false} MultiVibrateRoundTrip(inner: string, rest: string)
    requires inner != [] && forall i | 0 <= i < |inner| :: inner[i] != '}'
    ensures FindMultiVibrate("\"VIBRATE\": {" + inner + "}" + rest)
      == Some(Located(0, 13 + |inner|, "{" + inner + "}"))
  {
    var t := "\"VIBRATE\": {" + inner + "}" + rest;
    var m := 12 + |inner|;
    MultiVibrateLayout(inner, rest);
    RunMultiVibrate(t, m);
    LocateAtStart(MultiVibrateRegex, t, Hit(m + 1, [Text("{" + inner + "}")]));
  }

  /** A record written in its own key order at the start of a text reads back there. */
  lemma {:induction false} RecordAtStart(key: string, names: seq<string>, vs: seq<nat>, rest: string)
    requires |names| == |vs| >= 1
    ensures var r := RecordText(key, names, vs);
      Locate(Record(key, names), r + rest) == Some(Located(0, |r|, Numbers(vs)))
  {
    var r := RecordText(key, names, vs);
    var t := r + rest;
    assert t[0..|r|] == r;
    RunRecord(key, names, vs, t, 0);
    LocateAtStart(Record(key, names), t, Hit(|r|, Numbers(vs)));
  }

  /** A LINEAR record written in key order reads back its three numbers, whatever follows it. */
  lemma {:induction false} LinearRoundTrip(a: LinearArgs, rest: string)
    ensures FindLinear(LinearText(a) + rest) == Some(Located(0, |LinearText(a)|, a))
  {
    var vs := [a.startPos, a.endPos, a.duration];
    RecordAtStart("\"LINEAR\"", LinearKeys, vs, rest);
    NumbersAt(vs);
  }

  /** A LINEAR_SPEED record written in key order reads back its five numbers, whatever follows it. */
  lemma {:induction false} LinearSpeedRoundTrip(a: LinearSpeedArgs, rest: string)
    ensures FindLinearSpeed(LinearSpeedText(a) + rest) == Some(Located(0, |LinearSpeedText(a)|, a))
  {
    var vs := [a.startPos, a.endPos, a.startDur, a.endDur, a.steps];
    RecordAtStart("\"LINEAR_SPEED\"", LinearSpeedKeys, vs, rest);
    NumbersAt(vs);
  }
}
