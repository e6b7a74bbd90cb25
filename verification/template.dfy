/**
 Python's `string.Template.substitute`, the prompt builder's substitution engine.

 A template is scanned once, left to right. `$$` stands for a literal `$`,
 `$name` and `${name}` are placeholders whose names follow the pattern
 `[_a-zA-Z][_a-zA-Z0-9]*` (the longest such run is taken), and any other `$`
 is an invalid placeholder. A placeholder whose name has no value is a
 missing key. Substituted values are copied into the output and never
 scanned again.
 */
module Template {
  import opened Wrappers

  datatype TemplateError = MissingKey(name: string) | InvalidPlaceholder

  predicate IdStart(c: char) {
    c == '_' || 'a' <= c <= 'z' || 'A' <= c <= 'Z'
  }

  predicate IdChar(c: char) {
    IdStart(c) || '0' <= c <= '9'
  }

  /** A placeholder name as the template pattern accepts it. */
  predicate IsIdentifier(s: string) {
    |s| > 0 && IdStart(s[0]) && forall i :: 0 <= i < |s| ==> IdChar(s[i])
  }

  /** Length of the longest run of identifier characters at the start of `s`. */
  function IdentLen(s: string): (n: nat)
    ensures n <= |s|
    ensures forall i :: 0 <= i < n ==> IdChar(s[i])
    ensures n < |s| ==> !IdChar(s[n])
  {
    if |s| == 0 || !IdChar(s[0]) then 0 else 1 + IdentLen(s[1..])
  }

  function Prepend(s: string, r: Result<string, TemplateError>): Result<string, TemplateError> {
    match r
    case Ok(v) => Ok(s + v)
    case Err(e) => Err(e)
  }

  /** `Template(t).substitute(m)`: `Ok(text)` or the error Python would raise. */
  function Substitute(t: string, m: map<string, string>): (r: Result<string, TemplateError>)
    ensures '$' !in t ==> r == Ok(t)
    ensures r.Err? ==> '$' in t
    decreases |t|
  {
    if |t| == 0 then Ok("")
    else if t[0] != '$' then
      assert [t[0]] + t[1..] == t;
      Prepend([t[0]], Substitute(t[1..], m))
    else if |t| > 1 && t[1] == '$' then
      Prepend("$", Substitute(t[2..], m))
    else if |t| > 1 && IdStart(t[1]) then
      var n := IdentLen(t[1..]);
      var name := t[1..1 + n];
      if name in m then Prepend(m[name], Substitute(t[1 + n..], m)) else Err(MissingKey(name))
    else if |t| > 2 && t[1] == '{' && IdStart(t[2])
         && 2 + IdentLen(t[2..]) < |t| && t[2 + IdentLen(t[2..])] == '}' then
      var n := IdentLen(t[2..]);
      var name := t[2..2 + n];
      if name in m then Prepend(m[name], Substitute(t[3 + n..], m)) else Err(MissingKey(name))
    else
      Err(InvalidPlaceholder)
  }

  /** A template split into literal text and `$name` placeholders. */
  datatype Segment = Text(text: string) | Slot(name: string)

  /** The template string the segments spell. */
  function Source(segs: seq<Segment>): string {
    if |segs| == 0 then ""
    else
      match segs[0]
      case Text(s) => s + Source(segs[1..])
      case Slot(n) => "$" + n + Source(segs[1..])
  }

  predicate SlotsBound(segs: seq<Segment>, m: map<string, string>) {
    forall i :: 0 <= i < |segs| && segs[i].Slot? ==> segs[i].name in m
  }

  /** The segments with every placeholder replaced by its value, verbatim. */
  function Render(segs: seq<Segment>, m: map<string, string>): string
    requires SlotsBound(segs, m)
  {
    if |segs| == 0 then ""
    else
      match segs[0]
      case Text(s) => s + Render(segs[1..], m)
      case Slot(n) => m[n] + Render(segs[1..], m)
  }

  /**
   Literal text holds no `$`, every placeholder name is an identifier, and a
   placeholder is followed by the end or by text that cannot extend its name.
   */
  predicate WellFormed(segs: seq<Segment>) {
    forall i :: 0 <= i < |segs| ==> SegmentOk(segs, i)
  }

  predicate SegmentOk(segs: seq<Segment>, i: nat)
    requires i < |segs|
  {
    match segs[i]
    case Text(s) => '$' !in s
    case Slot(n) =>
      && IsIdentifier(n)
      && (i + 1 < |segs| ==> segs[i + 1].Text? && |segs[i + 1].text| > 0 && !IdChar(segs[i + 1].text[0]))
  }

  lemma {:induction false} SubstituteLiteral(s: string, rest: string, m: map<string, string>)
    requires '$' !in s
    ensures Substitute(s + rest, m) == Prepend(s, Substitute(rest, m))
    decreases |s|
  {
    if |s| > 0 {
      assert (s + rest)[0] == s[0];
      assert (s + rest)[1..] == s[1..] + rest;
      assert s[0] != '$';
      SubstituteLiteral(s[1..], rest, m);
      match Substitute(rest, m)
      case Ok(v) => assert [s[0]] + (s[1..] + v) == s + v;
      case Err(_) =>
    } else {
      assert s + rest == rest;
      match Substitute(rest, m)
      case Ok(v) => assert s + v == v;
      case Err(_) =>
    }
  }

  lemma {:induction false} IdentLenOfName(name: string, rest: string)
    requires forall i :: 0 <= i < |name| ==> IdChar(name[i])
    requires |rest| == 0 || !IdChar(rest[0])
    ensures IdentLen(name + rest) == |name|
    decreases |name|
  {
    if |name| > 0 {
      assert (name + rest)[1..] == name[1..] + rest;
      IdentLenOfName(name[1..], rest);
    } else {
      assert name + rest == rest;
    }
  }

  lemma SubstituteSlot(name: string, rest: string, m: map<string, string>)
    requires IsIdentifier(name) && name in m
    requires |rest| == 0 || !IdChar(rest[0])
    ensures Substitute("$" + name + rest, m) == Prepend(m[name], Substitute(rest, m))
  {
    var t := "$" + name + rest;
    assert t[1..] == name + rest;
    IdentLenOfName(name, rest);
    assert t[1..1 + |name|] == name;
    assert t[1 + |name|..] == rest;
  }

  /**
   Substituting a well-formed template yields its segments with the values
   inserted verbatim: whatever a value contains, including `$`, is copied and
   never read as a placeholder.
   */
  lemma {:induction false} SubstituteRendersSegments(segs: seq<Segment>, m: map<string, string>)
    requires WellFormed(segs) && SlotsBound(segs, m)
    ensures Substitute(Source(segs), m) == Ok(Render(segs, m))
    decreases |segs|
  {
    if |segs| > 0 {
      var tail := segs[1..];
      assert WellFormed(tail) by {
        forall i | 0 <= i < |tail| ensures SegmentOk(tail, i) {
          assert SegmentOk(segs, i + 1);
        }
      }
      assert SlotsBound(tail, m) by {
        forall i | 0 <= i < |tail| && tail[i].Slot? ensures tail[i].name in m {
          assert segs[i + 1] == tail[i];
        }
      }
      SubstituteRendersSegments(tail, m);
      assert SegmentOk(segs, 0);
      match segs[0]
      case Text(s) =>
        SubstituteLiteral(s, Source(tail), m);
      case Slot(n) =>
        if |tail| > 0 {
          assert Source(tail)[0] == tail[0].text[0];
        }
        SubstituteSlot(n, Source(tail), m);
        assert "$" + n + Source(tail) == Source(segs);
    }
  }

  /** A template of four placeholders, each between two pieces of literal text. */
  function FourSlots(a: string, n1: string, b: string, n2: string, c: string, n3: string,
                     d: string, n4: string, e: string): seq<Segment> {
    [Text(a), Slot(n1), Text(b), Slot(n2), Text(c), Slot(n3), Text(d), Slot(n4), Text(e)]
  }

  lemma FourSlotsWellFormed(a: string, n1: string, b: string, n2: string, c: string, n3: string,
                            d: string, n4: string, e: string)
    requires '$' !in a && '$' !in b && '$' !in c && '$' !in d && '$' !in e
    requires IsIdentifier(n1) && IsIdentifier(n2) && IsIdentifier(n3) && IsIdentifier(n4)
    requires |b| > 0 && !IdChar(b[0]) && |c| > 0 && !IdChar(c[0])
    requires |d| > 0 && !IdChar(d[0]) && |e| > 0 && !IdChar(e[0])
    ensures WellFormed(FourSlots(a, n1, b, n2, c, n3, d, n4, e))
  {
  }

  lemma {:induction false} RenderFourSlots(a: string, n1: string, b: string, n2: string, c: string, n3: string,
                                           d: string, n4: string, e: string, m: map<string, string>)
    requires n1 in m && n2 in m && n3 in m && n4 in m
    ensures SlotsBound(FourSlots(a, n1, b, n2, c, n3, d, n4, e), m)
    ensures Render(FourSlots(a, n1, b, n2, c, n3, d, n4, e), m)
            == a + m[n1] + b + m[n2] + c + m[n3] + d + m[n4] + e
  {
    FourSlotsAsCons(a, n1, b, n2, c, n3, d, n4, e);
    RenderFourSlotsNested(a, n1, b, n2, c, n3, d, n4, e, m);
    RegroupNine(a, m[n1], b, m[n2], c, m[n3], d, m[n4], e);
  }

  /** The four-placeholder template, one segment at a time. */
  function FourSlotsCons(a: string, n1: string, b: string, n2: string, c: string, n3: string,
                         d: string, n4: string, e: string): seq<Segment> {
    [Text(a)] + ([Slot(n1)] + ([Text(b)] + ([Slot(n2)] + ([Text(c)] + ([Slot(n3)]
      + ([Text(d)] + ([Slot(n4)] + ([Text(e)] + []))))))))
  }

  lemma FourSlotsAsCons(a: string, n1: string, b: string, n2: string, c: string, n3: string,
                        d: string, n4: string, e: string)
    ensures FourSlots(a, n1, b, n2, c, n3, d, n4, e) == FourSlotsCons(a, n1, b, n2, c, n3, d, n4, e)
  {
  }

  lemma {:induction false} RenderFourSlotsNested(a: string, n1: string, b: string, n2: string, c: string, n3: string,
                                                 d: string, n4: string, e: string, m: map<string, string>)
    requires n1 in m && n2 in m && n3 in m && n4 in m
    ensures SlotsBound(FourSlotsCons(a, n1, b, n2, c, n3, d, n4, e), m)
    ensures Render(FourSlotsCons(a, n1, b, n2, c, n3, d, n4, e), m)
            == a + (m[n1] + (b + (m[n2] + (c + (m[n3] + (d + (m[n4] + (e + ""))))))))
  {
    var s8 := [Text(e)] + [];
    var s7 := [Slot(n4)] + s8;
    var s6 := [Text(d)] + s7;
    var s5 := [Slot(n3)] + s6;
    var s4 := [Text(c)] + s5;
    var s3 := [Slot(n2)] + s4;
    var s2 := [Text(b)] + s3;
    var s1 := [Slot(n1)] + s2;
    RenderCons(Text(e), [], m);
    RenderCons(Slot(n4), s8, m);
    RenderCons(Text(d), s7, m);
    RenderCons(Slot(n3), s6, m);
    RenderCons(Text(c), s5, m);
    RenderCons(Slot(n2), s4, m);
    RenderCons(Text(b), s3, m);
    RenderCons(Slot(n1), s2, m);
    RenderCons(Text(a), s1, m);
  }

  /** Rendering a segment followed by more: the segment, then the rest. */
  lemma RenderCons(x: Segment, rest: seq<Segment>, m: map<string, string>)
    requires x.Slot? ==> x.name in m
    requires SlotsBound(rest, m)
    ensures SlotsBound([x] + rest, m)
    ensures Render([x] + rest, m) == (if x.Text? then x.text else m[x.name]) + Render(rest, m)
  {
    assert ([x] + rest)[1..] == rest;
  }

  /** Concatenation of nine strings, regrouped from the right to the left. */
  lemma RegroupNine(x1: string, x2: string, x3: string, x4: string, x5: string, x6: string,
                    x7: string, x8: string, x9: string)
    ensures x1 + (x2 + (x3 + (x4 + (x5 + (x6 + (x7 + (x8 + (x9 + ""))))))))
            == x1 + x2 + x3 + x4 + x5 + x6 + x7 + x8 + x9
  {
    assert x9 + "" == x9;
    var t2 := x2 + (x3 + (x4 + (x5 + (x6 + (x7 + (x8 + x9))))));
    var t3 := x3 + (x4 + (x5 + (x6 + (x7 + (x8 + x9)))));
    var t4 := x4 + (x5 + (x6 + (x7 + (x8 + x9))));
    var t5 := x5 + (x6 + (x7 + (x8 + x9)));
    var t6 := x6 + (x7 + (x8 + x9));
    var t7 := x7 + (x8 + x9);
    var t8 := x8 + x9;
    assert x1 + t2 == (x1 + x2) + t3;
    assert (x1 + x2) + t3 == (x1 + x2 + x3) + t4;
    assert (x1 + x2 + x3) + t4 == (x1 + x2 + x3 + x4) + t5;
    assert (x1 + x2 + x3 + x4) + t5 == (x1 + x2 + x3 + x4 + x5) + t6;
    assert (x1 + x2 + x3 + x4 + x5) + t6 == (x1 + x2 + x3 + x4 + x5 + x6) + t7;
    assert (x1 + x2 + x3 + x4 + x5 + x6) + t7 == (x1 + x2 + x3 + x4 + x5 + x6 + x7) + t8;
  }

  lemma SubstituteFourSlots(a: string, n1: string, b: string, n2: string, c: string, n3: string,
                            d: string, n4: string, e: string, m: map<string, string>)
    requires WellFormed(FourSlots(a, n1, b, n2, c, n3, d, n4, e))
    requires n1 in m && n2 in m && n3 in m && n4 in m
    ensures Substitute(Source(FourSlots(a, n1, b, n2, c, n3, d, n4, e)), m)
            == Ok(a + m[n1] + b + m[n2] + c + m[n3] + d + m[n4] + e)
  {
    RenderFourSlots(a, n1, b, n2, c, n3, d, n4, e, m);
    SubstituteRendersSegments(FourSlots(a, n1, b, n2, c, n3, d, n4, e), m);
  }
}
