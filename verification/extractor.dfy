/**
 `extract_first_json`: the first brace-balanced `{...}` span of the model's
 output.

 The scan starts at the first `{` and counts depth, one up for `{` and one
 down for `}`, returning the text up to the point where the depth first comes
 back to zero. It is a brace counter, not a JSON tokenizer: braces inside
 string literals are counted too.
 */
module Extractor {
  import opened Wrappers

  function Delta(c: char): int {
    if c == '{' then 1 else if c == '}' then -1 else 0
  }

  /** Brace depth after reading `s` from depth zero. */
  function Balance(s: string): int {
    if |s| == 0 then 0 else Balance(s[..|s| - 1]) + Delta(s[|s| - 1])
  }

  /** Number of occurrences of `c` in `s`. */
  function Count(s: string, c: char): nat {
    if |s| == 0 then 0 else Count(s[..|s| - 1], c) + (if s[|s| - 1] == c then 1 else 0)
  }

  /**
   A balanced span that is the shortest one from its start: it ends at depth
   zero and every proper non-empty prefix is strictly deeper than zero.
   */
  predicate MinimalBalanced(s: string) {
    && |s| >= 2
    && Balance(s) == 0
    && forall k :: 0 < k < |s| ==> Balance(s[..k]) > 0
  }

  /** The depth never comes back to zero: the object is cut off. */
  predicate Truncated(t: string) {
    forall k :: 0 < k <= |t| ==> Balance(t[..k]) != 0
  }

  /** `s.find(c)`: the first index of `c`, or -1. */
  function Find(s: string, c: char): (r: int)
    ensures -1 <= r < |s|
    ensures r == -1 <==> c !in s
    ensures r >= 0 ==> s[r] == c && c !in s[..r]
  {
    if |s| == 0 then -1
    else if s[0] == c then 0
    else
      var r := Find(s[1..], c);
      assert s == [s[0]] + s[1..];
      if r == -1 then -1
      else
        assert s[..r + 1] == [s[0]] + s[1..][..r];
        r + 1
  }

  /** Index of the last `c` in `s`. */
  function LastIndex(s: string, c: char): (r: nat)
    requires c in s
    ensures r < |s| && s[r] == c
    ensures c !in s[r + 1..]
  {
    if s[|s| - 1] == c then |s| - 1
    else
      assert s == s[..|s| - 1] + [s[|s| - 1]];
      var r := LastIndex(s[..|s| - 1], c);
      assert s[r + 1..] == s[..|s| - 1][r + 1..] + [s[|s| - 1]];
      r
  }

  /**
   `re.search(r"(\{.*\})", text, re.S).group(1)`: from the leftmost `{` that has
   a `}` after it, greedily to the last `}`.
   */
  function RegexBraceMatch(text: string): (r: Option<string>)
    ensures r.Some? ==> '{' in text && |r.value| >= 2 && r.value[0] == '{' && r.value[|r.value| - 1] == '}'
    decreases |text|
  {
    if |text| == 0 then None
    else if text[0] == '{' && '}' in text[1..] then
      var j := LastIndex(text[1..], '}') + 1;
      Some(text[..j + 1])
    else
      var r := RegexBraceMatch(text[1..]);
      if r.Some? then
        assert text[1..] == text[1..|text|];
        assert forall x :: x in text[1..] ==> x in text;
        r
      else None
  }

  /**
   The text the depth scan reads: from the first `{` on, or else the regular
   expression's match.
   */
  function ScanStart(text: string): (r: Option<string>)
    ensures r.Some? ==> |r.value| > 0 && r.value[0] == '{'
  {
    var start := Find(text, '{');
    if start == -1 then RegexBraceMatch(text)
    else Some(text[start..])
  }

  /**
   The regular-expression fallback can never match: it is tried only when the
   text holds no `{`, and a match must contain one.
   */
  lemma RegexFallbackNeverMatches(text: string)
    ensures ScanStart(text) == if '{' in text then Some(text[Find(text, '{')..]) else None
  {
  }

  /** `text` has a balanced span starting at its first `{`. */
  predicate HasJsonSpan(text: string) {
    '{' in text && !Truncated(text[Find(text, '{')..])
  }

  /** `span` is the shortest balanced span that starts at the first `{` of `text`. */
  predicate IsFirstJsonSpan(text: string, span: string) {
    && '{' in text
    && var s := Find(text, '{');
    && s + |span| <= |text|
    && text[s..s + |span|] == span
    && MinimalBalanced(span)
  }

  method ExtractFirstJson(text: string) returns (r: Option<string>)
    ensures '{' !in text ==> r == None
    ensures r.Some? <==> HasJsonSpan(text)
    ensures r.Some? ==> IsFirstJsonSpan(text, r.value)
  {
    if |text| == 0 {
      return None;
    }
    RegexFallbackNeverMatches(text);
    var scan := ScanStart(text);
    if scan.None? {
      return None;
    }
    var t := scan.value;
    var stack := 0;
    var i := 0;
    while i < |t|
      invariant 0 <= i <= |t|
      invariant stack == Balance(t[..i])
      invariant forall k :: 0 < k <= i ==> Balance(t[..k]) > 0
    {
      assert t[..i + 1][..i] == t[..i];
      if t[i] == '{' {
        stack := stack + 1;
      } else if t[i] == '}' {
        stack := stack - 1;
        if stack == 0 {
          SpanFound(text, t, i);
          return Some(t[..i + 1]);
        }
      }
      i := i + 1;
    }
    assert t[..|t|] == t;
    return None;
  }

  /** The scan stops at the first prefix of depth zero: that prefix is the first span. */
  lemma SpanFound(text: string, t: string, i: nat)
    requires '{' in text && t == text[Find(text, '{')..]
    requires i < |t| && Balance(t[..i + 1]) == 0
    requires forall k :: 0 < k <= i ==> Balance(t[..k]) > 0
    ensures HasJsonSpan(text) && IsFirstJsonSpan(text, t[..i + 1])
  {
    var start := Find(text, '{');
    var span := t[..i + 1];
    assert t[0] == '{';
    assert t[..1] == [t[0]];
    assert i > 0;
    assert forall k :: 0 < k < |span| ==> span[..k] == t[..k];
    assert MinimalBalanced(span);
    assert text[start..start + |span|] == span;
  }

  /**
   A shortest balanced span opens with `{`, closes with `}`, holds as many of
   one as of the other, and its depth never drops below zero.
   */
  lemma MinimalBalancedShape(s: string)
    requires MinimalBalanced(s)
    ensures s[0] == '{' && s[|s| - 1] == '}'
    ensures Count(s, '{') == Count(s, '}')
    ensures forall k :: 0 <= k <= |s| ==> Balance(s[..k]) >= 0
  {
    assert s[..1] == [s[0]];
    assert Balance(s[..1]) > 0;
    assert s[..|s|][..|s| - 1] == s[..|s| - 1];
    assert Balance(s[..|s| - 1]) > 0;
    assert s[..|s|] == s;
    BalanceIsCountDifference(s);
  }

  lemma {:induction false} BalanceIsCountDifference(s: string)
    ensures Balance(s) == Count(s, '{') - Count(s, '}')
    decreases |s|
  {
    if |s| > 0 {
      BalanceIsCountDifference(s[..|s| - 1]);
    }
  }

  /** At most one span is the first balanced one: the extractor's answer is determined. */
  lemma FirstJsonSpanUnique(text: string, a: string, b: string)
    requires IsFirstJsonSpan(text, a) && IsFirstJsonSpan(text, b)
    ensures a == b
  {
    var s := Find(text, '{');
    var n := if |a| < |b| then |a| else |b|;
    assert a[..n] == text[s..s + n] == b[..n];
    assert a[..|a|] == a && b[..|b|] == b;
  }

  /**
   Prose without a `{`, then a balanced object, then anything: the object is
   the span found.
   */
  lemma EmbeddedObjectIsFound(prose: string, obj: string, rest: string)
    requires '{' !in prose
    requires MinimalBalanced(obj)
    ensures HasJsonSpan(prose + obj + rest)
    ensures IsFirstJsonSpan(prose + obj + rest, obj)
  {
    var text := prose + obj + rest;
    MinimalBalancedShape(obj);
    assert text[|prose|] == '{';
    assert text[..|prose|] == prose;
    FindFirst(text, '{', |prose|);
    var t := text[|prose|..];
    assert t[..|obj|] == obj;
    assert text[|prose|..|prose| + |obj|] == obj;
  }

  lemma FindFirst(s: string, c: char, i: nat)
    requires i < |s| && s[i] == c && c !in s[..i]
    ensures Find(s, c) == i
  {
    var r := Find(s, c);
    assert forall j :: 0 <= j < i ==> s[..i][j] == s[j];
    assert forall j :: 0 <= j < r ==> s[..r][j] == s[j];
  }

  /**
   The scan does not see JSON strings: a `}` inside a string value closes the
   span early.
   */
  lemma BraceInsideStringEndsSpan()
    ensures IsFirstJsonSpan("{\"a\": \"}\"}", "{\"a\": \"}")
  {
    var span := "{\"a\": \"}";
    forall k | 0 <= k < |span| ensures Balance(span[..k + 1]) == Balance(span[..k]) + Delta(span[k]) {
      assert span[..k + 1][..k] == span[..k];
    }
    assert Balance(span[..0]) == 0;
    assert Balance(span[..1]) == 1;
    assert Balance(span[..2]) == 1;
    assert Balance(span[..3]) == 1;
    assert Balance(span[..4]) == 1;
    assert Balance(span[..5]) == 1;
    assert Balance(span[..6]) == 1;
    assert Balance(span[..7]) == 1;
    assert span[..8] == span;
    assert Balance(span) == 0;
    var text := "{\"a\": \"}\"}";
    assert Find(text, '{') == 0;
    assert text[0..8] == span;
  }
}
