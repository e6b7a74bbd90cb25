/**
 The generation client: `safe_extract_text_from_candidate` and the
 classification `run_prompt` applies to one call of the external generator.

 The generator's response is not trusted to have one shape, so the text of a
 candidate is looked for under an ordered list of shape hypotheses, and every
 outcome that yields no text is a returned diagnostic, not an exception.
 */
module LlmClient {
  import opened Wrappers
  import opened PyValue

  /** The strategy that produced the text, as recorded in `diag['extraction_method']`. */
  datatype Strategy =
    | CandText
    | ContentIsStr
    | PartsJoin
    | ContentText
    | CandDictText
    | CandContentText
    | CandContentParts
    | StrFallback
    | NoStrategy

  function StrategyName(m: Strategy): string {
    match m
    case CandText => "cand.text"
    case ContentIsStr => "content_is_str"
    case PartsJoin => "parts_join"
    case ContentText => "content.text"
    case CandDictText => "cand_dict_text"
    case CandContentText => "cand[content][text]"
    case CandContentParts => "cand[content][parts]"
    case StrFallback => "str(cand)_fallback"
    case NoStrategy => "none"
  }

  /**
   The diagnostics dict. `partsFound` is present only when the content was
   searched for parts; `partsFailed` and `candDictFailed` stand for the
   `parts_exception` and `cand_dict_exception` tracebacks. `strategy` is
   recorded in the dict as its `StrategyName` text.
   */
  datatype Diag = Diag(
    candType: string,
    hasContentAttr: bool,
    partsFound: Option<bool>,
    partsFailed: bool,
    candDictFailed: bool,
    strategy: Strategy)

  /** `(text_or_None, diag)`. */
  datatype Extraction = Extraction(text: Option<string>, diag: Diag)

  /** One shape hypothesis: it found text, it did not apply, or it raised. */
  datatype Attempt = Hit(text: string, strategy: Strategy) | Miss | Raised

  /** The text of one part: its `text` attribute, else for a dict part its `text` or `content`. */
  function PartText(p: Value): Value {
    var t := GetAttr(p, "text");
    if !Truthy(t) && p.PyDict? then Or(Or(DictGet(p.entries, "text"), DictGet(p.entries, "content")), PyNone)
    else t
  }

  /** `str()` of the truthy part texts, in order. */
  function PartTexts(parts: seq<Value>): (r: seq<string>)
    ensures |r| <= |parts|
    ensures |r| == 0 <==> forall i :: 0 <= i < |parts| ==> !Truthy(PartText(parts[i]))
  {
    if |parts| == 0 then []
    else
      var t := PartText(parts[0]);
      var rest := PartTexts(parts[1..]);
      assert forall i :: 1 <= i < |parts| ==> parts[i] == parts[1..][i - 1];
      (if Truthy(t) then [Str(t)] else []) + rest
  }

  /** A single part contributes `str()` of its text when that text is truthy, and nothing otherwise. */
  lemma PartTextsOne(p: Value)
    ensures PartTexts([p]) == if Truthy(PartText(p)) then [Str(PartText(p))] else []
  {
    assert [p][1..] == [];
  }

  /** The texts of two runs of parts are those of the first run followed by those of the second. */
  lemma {:induction false} PartTextsAppend(a: seq<Value>, b: seq<Value>)
    ensures PartTexts(a + b) == PartTexts(a) + PartTexts(b)
    decreases |a|
  {
    if |a| > 0 {
      assert (a + b)[1..] == a[1..] + b;
      PartTextsAppend(a[1..], b);
    } else {
      assert a + b == b;
    }
  }

  /** The parts of a content value: its `parts` attribute, else for a dict its `parts` or `text`. */
  function ContentParts(content: Value): Value {
    var parts := GetAttr(content, "parts");
    if parts.PyNone? && content.PyDict? then
      Or(Or(DictGet(content.entries, "parts"), DictGet(content.entries, "text")), PyNone)
    else parts
  }

  /** The `text` of a content value: a dict's entry or an object's attribute. */
  function ContentTextValue(content: Value): Value {
    if content.PyDict? then DictGet(content.entries, "text") else GetAttr(content, "text")
  }

  /** The parts loop: the parts visited, or `None` when iterating them raises. */
  function PartsVisited(content: Value): Option<seq<Value>> {
    var parts := ContentParts(content);
    if Truthy(parts) then Iterate(parts) else Some([])
  }

  /**
   The strategies that read the candidate's attributes, in source order: the
   candidate's own `text` when it has no content, a string content, the join
   of the parts, the content's `text`. Also returns `parts_found` when the
   parts were looked up.
   */
  function AttributeStrategies(cand: Value): (Attempt, Option<bool>) {
    var content := GetAttr(cand, "content");
    if content.PyNone? then
      var t := GetAttr(cand, "text");
      (if Truthy(t) then Hit(Str(t), CandText) else Miss, None)
    else if content.PyStr? then
      (Hit(content.s, ContentIsStr), None)
    else
      var found := Truthy(ContentParts(content));
      match PartsVisited(content)
      case None => (Raised, Some(found))
      case Some(ps) =>
        var texts := PartTexts(ps);
        if |texts| > 0 then (Hit(Join(" ", texts), PartsJoin), Some(found))
        else
          var t := ContentTextValue(content);
          (if Truthy(t) then Hit(Str(t), ContentText) else Miss, Some(found))
  }

  /** `p.get('text') or p.get('content') or ""` of a dict part. */
  function DictPartText(p: Value): Value
    requires p.PyDict?
  {
    Or(Or(DictGet(p.entries, "text"), DictGet(p.entries, "content")), PyStr(""))
  }

  /** The truthy texts of dict parts, in order. */
  function DictPartTexts(parts: seq<Value>): seq<Value>
    requires forall i :: 0 <= i < |parts| ==> parts[i].PyDict?
  {
    if |parts| == 0 then []
    else
      var t := DictPartText(parts[0]);
      (if Truthy(t) then [t] else []) + DictPartTexts(parts[1..])
  }

  predicate AllStrings(vs: seq<Value>) {
    forall i :: 0 <= i < |vs| ==> vs[i].PyStr?
  }

  function Strings(vs: seq<Value>): (r: seq<string>)
    requires AllStrings(vs)
    ensures |r| == |vs|
  {
    seq(|vs|, i requires 0 <= i < |vs| => vs[i].s)
  }

  /** The join of a dict content's parts: `p.get` raises on a non-dict part, `join` on a non-string text. */
  function DictPartsJoin(parts: Value): Attempt {
    match Iterate(parts)
    case None => Raised
    case Some(ps) =>
      if exists i :: 0 <= i < |ps| && !ps[i].PyDict? then Raised
      else
        var texts := DictPartTexts(ps);
        if |texts| == 0 then Miss
        else if !AllStrings(texts) then Raised
        else Hit(Join(" ", Strings(texts)), CandContentParts)
  }

  /**
   The strategies for a dict-shaped candidate, in source order: its `text`, its
   content's `text`, the join of its content's parts.
   */
  function DictStrategies(cand: Value): Attempt {
    if !cand.PyDict? then Miss
    else
      var e := cand.entries;
      if InDict(e, "text") && Truthy(DictGet(e, "text")) then Hit(Str(DictGet(e, "text")), CandDictText)
      else
        var cont := Or(DictGet(e, "content"), PyDict([]));
        if !cont.PyDict? then Miss
        else if InDict(cont.entries, "text") && Truthy(DictGet(cont.entries, "text")) then
          Hit(Str(DictGet(cont.entries, "text")), CandContentText)
        else
          var parts := DictGet(cont.entries, "parts");
          if Truthy(parts) then DictPartsJoin(parts) else Miss
  }

  /** `str(cand)`, when it is not empty and differs from `object.__str__(cand)`, that is from `repr(cand)`. */
  function StrFallbackAttempt(cand: Value): Attempt {
    var s := Str(cand);
    if |s| > 0 && s != ObjectStr(cand) then Hit(s, StrFallback) else Miss
  }

  function SafeExtract(cand: Value): (r: Extraction)
    ensures r.text.None? <==> r.diag.strategy == NoStrategy
    ensures r.diag.candType == TypeName(cand)
    ensures r.diag.hasContentAttr <==> !GetAttr(cand, "content").PyNone?
    ensures GetAttr(cand, "content").PyStr? ==>
      r.text == Some(GetAttr(cand, "content").s) && r.diag.strategy == ContentIsStr
    ensures r.diag.strategy == StrFallback ==> r.text == Some(Str(cand)) && Str(cand) != Repr(cand)
    ensures r.text.None? ==> |Str(cand)| == 0 || Str(cand) == Repr(cand)
    ensures cand.PyDict? ==> r.diag.strategy != StrFallback
    ensures cand.PyNone? || cand.PyList? ==> r.text.None?
    ensures cand.PyScalar? && cand.strText == cand.reprText ==> r.text.None?
    ensures cand.PyStr? ==> r.text == if |cand.s| > 0 then Some(cand.s) else None
  {
    var content := GetAttr(cand, "content");
    var (a, partsFound) := AttributeStrategies(cand);
    var diag := Diag(TypeName(cand), !content.PyNone?, partsFound, a.Raised?, false, NoStrategy);
    if a.Hit? then Extraction(Some(a.text), diag.(strategy := a.strategy))
    else
      var b := DictStrategies(cand);
      var diag := diag.(candDictFailed := b.Raised?);
      if b.Hit? then Extraction(Some(b.text), diag.(strategy := b.strategy))
      else
        StrAgainstObjectStr(cand);
        match StrFallbackAttempt(cand)
        case Hit(s, m) => Extraction(Some(s), diag.(strategy := m))
        case _ => Extraction(None, diag.(strategy := NoStrategy))
  }

  // The same strategies as independent hypotheses, tried in priority order.

  function TryCandText(cand: Value): Attempt {
    var t := GetAttr(cand, "text");
    if GetAttr(cand, "content").PyNone? && Truthy(t) then Hit(Str(t), CandText) else Miss
  }

  function TryContentStr(cand: Value): Attempt {
    var content := GetAttr(cand, "content");
    if content.PyStr? then Hit(content.s, ContentIsStr) else Miss
  }

  /** Content that is neither missing nor a string, with parts that can be iterated. */
  function PartsOfContent(cand: Value): Option<seq<Value>> {
    var content := GetAttr(cand, "content");
    if content.PyNone? || content.PyStr? then None else PartsVisited(content)
  }

  function TryPartsJoin(cand: Value): Attempt {
    match PartsOfContent(cand)
    case Some(ps) => if |PartTexts(ps)| > 0 then Hit(Join(" ", PartTexts(ps)), PartsJoin) else Miss
    case None => Miss
  }

  function TryContentText(cand: Value): Attempt {
    var t := ContentTextValue(GetAttr(cand, "content"));
    if PartsOfContent(cand).Some? && Truthy(t) then Hit(Str(t), ContentText) else Miss
  }

  function TryCandDictText(cand: Value): Attempt {
    if cand.PyDict? && Truthy(DictGet(cand.entries, "text")) then
      Hit(Str(DictGet(cand.entries, "text")), CandDictText)
    else Miss
  }

  /** The content of a dict candidate, when it is a dict. */
  function DictContent(cand: Value): Option<seq<Entry>> {
    if !cand.PyDict? then None
    else match DictGet(cand.entries, "content")
      case PyDict(e) => Some(e)
      case v => if Truthy(v) then None else Some([])
  }

  function TryCandContentText(cand: Value): Attempt {
    match DictContent(cand)
    case Some(e) =>
      if Truthy(DictGet(e, "text")) then Hit(Str(DictGet(e, "text")), CandContentText) else Miss
    case None => Miss
  }

  function TryCandContentParts(cand: Value): Attempt {
    match DictContent(cand)
    case Some(e) =>
      var parts := DictGet(e, "parts");
      if Truthy(parts) && DictPartsJoin(parts).Hit? then DictPartsJoin(parts) else Miss
    case None => Miss
  }

  /**
   Every hypothesis, highest priority first: the candidate's own `text`, a
   string content, the join of the content's parts, the content's `text`, a
   dict candidate's `text`, its content's `text`, its content's parts, `str`.
   */
  function Hypotheses(cand: Value): seq<Attempt> {
    AttributeHypotheses(cand) + DictHypotheses(cand) + [StrFallbackAttempt(cand)]
  }

  /** The first hypothesis that found text. */
  function FirstHit(attempts: seq<Attempt>): (r: Attempt)
    ensures r.Hit? || r.Miss?
    ensures r.Hit? ==> r in attempts
    ensures r.Miss? <==> forall i :: 0 <= i < |attempts| ==> !attempts[i].Hit?
  {
    if |attempts| == 0 then Miss
    else if attempts[0].Hit? then attempts[0]
    else
      var r := FirstHit(attempts[1..]);
      assert forall i :: 1 <= i < |attempts| ==> attempts[i] == attempts[1..][i - 1];
      r
  }

  /** Trying two lists in turn is trying their concatenation. */
  lemma {:induction false} FirstHitAppend(xs: seq<Attempt>, ys: seq<Attempt>)
    ensures FirstHit(xs + ys) == if FirstHit(xs).Hit? then FirstHit(xs) else FirstHit(ys)
    decreases |xs|
  {
    if |xs| == 0 {
      assert xs + ys == ys;
    } else {
      assert (xs + ys)[1..] == xs[1..] + ys;
      FirstHitAppend(xs[1..], ys);
    }
  }

  /** The attribute strategies, as hypotheses. */
  function AttributeHypotheses(cand: Value): seq<Attempt> {
    [TryCandText(cand), TryContentStr(cand), TryPartsJoin(cand), TryContentText(cand)]
  }

  /** The dict-candidate strategies, as hypotheses. */
  function DictHypotheses(cand: Value): seq<Attempt> {
    [TryCandDictText(cand), TryCandContentText(cand), TryCandContentParts(cand)]
  }

  lemma FirstHitCons(x: Attempt, rest: seq<Attempt>)
    ensures FirstHit([x] + rest) == if x.Hit? then x else FirstHit(rest)
  {
    assert ([x] + rest)[1..] == rest;
  }

  /** The first hit among four attempts. */
  lemma FirstHitOfFour(w: Attempt, x: Attempt, y: Attempt, z: Attempt)
    ensures FirstHit([w, x, y, z])
            == if w.Hit? then w else if x.Hit? then x else if y.Hit? then y else if z.Hit? then z else Miss
  {
    assert [w, x, y, z] == [w] + [x, y, z];
    FirstHitCons(w, [x, y, z]);
    FirstHitOfThree(x, y, z);
  }

  /** The first hit among three attempts. */
  lemma FirstHitOfThree(x: Attempt, y: Attempt, z: Attempt)
    ensures FirstHit([x, y, z]) == if x.Hit? then x else if y.Hit? then y else if z.Hit? then z else Miss
  {
    assert [x, y, z] == [x] + [y, z];
    assert [y, z] == [y] + [z];
    assert [z] == [z] + [];
    FirstHitCons(x, [y, z]);
    FirstHitCons(y, [z]);
    FirstHitCons(z, []);
  }

  lemma AttributeStrategiesAreFirstHit(cand: Value)
    ensures var (a, _) := AttributeStrategies(cand);
      FirstHit(AttributeHypotheses(cand)) == if a.Hit? then a else Miss
  {
    FirstHitOfFour(TryCandText(cand), TryContentStr(cand), TryPartsJoin(cand), TryContentText(cand));
    var content := GetAttr(cand, "content");
    if content.PyNone? {
      assert !TryContentStr(cand).Hit? && !TryPartsJoin(cand).Hit? && !TryContentText(cand).Hit?;
    } else if content.PyStr? {
      assert !TryCandText(cand).Hit?;
    } else {
      assert !TryCandText(cand).Hit? && !TryContentStr(cand).Hit?;
      assert PartsOfContent(cand) == PartsVisited(content);
    }
  }

  lemma DictStrategiesAreFirstHit(cand: Value)
    ensures var b := DictStrategies(cand);
      FirstHit(DictHypotheses(cand)) == if b.Hit? then b else Miss
  {
    FirstHitOfThree(TryCandDictText(cand), TryCandContentText(cand), TryCandContentParts(cand));
  }

  /**
   The nested probing of the source is the chain of hypotheses: the text
   returned, and the strategy named in the diagnostics, are those of the first
   hypothesis that holds, and there is no text exactly when none holds.
   */
  lemma SafeExtractIsFirstHit(cand: Value)
    ensures var h := FirstHit(Hypotheses(cand));
      && (h.Hit? ==> SafeExtract(cand).text == Some(h.text) && SafeExtract(cand).diag.strategy == h.strategy)
      && (h.Miss? ==> SafeExtract(cand).text == None && SafeExtract(cand).diag.strategy == NoStrategy)
  {
    HypothesesInThreeGroups(cand);
    SafeExtractCases(cand);
  }

  /** The hypotheses fall into the attribute group, the dict group and the fallback, tried in turn. */
  lemma HypothesesInThreeGroups(cand: Value)
    ensures var (a, _) := AttributeStrategies(cand);
      var b := DictStrategies(cand);
      var f := StrFallbackAttempt(cand);
      FirstHit(Hypotheses(cand)) == if a.Hit? then a else if b.Hit? then b else if f.Hit? then f else Miss
  {
    var f := StrFallbackAttempt(cand);
    AttributeStrategiesAreFirstHit(cand);
    DictStrategiesAreFirstHit(cand);
    FirstHitAppend(AttributeHypotheses(cand) + DictHypotheses(cand), [f]);
    FirstHitAppend(AttributeHypotheses(cand), DictHypotheses(cand));
    assert FirstHit([f]) == if f.Hit? then f else Miss;
  }

  /** `SafeExtract` tries the attribute strategies, then the dict strategies, then the fallback. */
  lemma SafeExtractCases(cand: Value)
    ensures var (a, _) := AttributeStrategies(cand);
      var b := DictStrategies(cand);
      var f := StrFallbackAttempt(cand);
      var r := SafeExtract(cand);
      && (a.Hit? ==> r.text == Some(a.text) && r.diag.strategy == a.strategy)
      && (!a.Hit? && b.Hit? ==> r.text == Some(b.text) && r.diag.strategy == b.strategy)
      && (!a.Hit? && !b.Hit? && f.Hit? ==> r.text == Some(f.text) && r.diag.strategy == f.strategy)
      && (!a.Hit? && !b.Hit? && !f.Hit? ==> r.text == None && r.diag.strategy == NoStrategy)
  {
  }

  /** What one `generate_content` call did: returned a response, or raised with this message. */
  datatype CallOutcome = Returned(response: Value) | Threw(message: string)

  /** The dict `run_prompt` returns. */
  datatype PromptResult =
      /** `{"text", "raw_repr", "diag"}` */
    | Generated(text: string, rawRepr: string, diag: Diag)
      /** `{"error": "No candidates returned", "raw_repr"}` */
    | NoCandidates(rawRepr: string)
      /** `{"error": "No text returned by model", "finish_reason", "safety_ratings", "diag", "raw_repr"}` */
    | NoText(finishReason: Value, safetyRatings: Value, diag: Diag, rawRepr: string)
      /** `{"error": "exception", "exc", "trace"}`; the traceback text is left out */
    | CallFailed(exc: string)

  /** `resp["error"]` when `"error" in resp`. */
  function ErrorOf(r: PromptResult): (e: Option<string>)
    ensures e.None? <==> r.Generated?
  {
    match r
    case Generated(_, _, _) => None
    case NoCandidates(_) => Some("No candidates returned")
    case NoText(_, _, _, _) => Some("No text returned by model")
    case CallFailed(_) => Some("exception")
  }

  /** The classification of a response whose `candidates` attribute is `cands`. */
  function ClassifyCandidates(cands: Value, rawRepr: string): (r: PromptResult)
    ensures !Truthy(cands) <==> r == NoCandidates(rawRepr)
    ensures r.Generated? ==> |r.text| > 0 && r.rawRepr == rawRepr
    ensures Truthy(cands) && Index0(cands).Ok? ==>
      var first := Index0(cands).value;
      var ex := SafeExtract(first);
      && (r.Generated? <==> ex.text.Some? && |ex.text.value| > 0)
      && (r.Generated? ==> r.text == ex.text.value && r.diag == ex.diag)
      && (r.NoText? ==> r.diag == ex.diag && r.rawRepr == rawRepr
                        && r.finishReason == GetAttr(first, "finish_reason")
                        && r.safetyRatings == GetAttr(first, "safety_ratings"))
      && !r.CallFailed?
    ensures Truthy(cands) && Index0(cands).Err? ==> r == CallFailed(Index0(cands).error)
  {
    if !Truthy(cands) then NoCandidates(rawRepr)
    else
      match Index0(cands)
      case Err(msg) => CallFailed(msg)
      case Ok(cand) =>
        var ex := SafeExtract(cand);
        if ex.text.Some? && |ex.text.value| > 0 then Generated(ex.text.value, rawRepr, ex.diag)
        else NoText(GetAttr(cand, "finish_reason"), GetAttr(cand, "safety_ratings"), ex.diag, rawRepr)
  }

  /** `run_prompt(prompt, max_output_tokens)` around one call of the generator. */
  function RunPrompt(generate: (string, int) -> CallOutcome, prompt: string, maxOutputTokens: int): (r: PromptResult)
    ensures generate(prompt, maxOutputTokens).Threw? ==>
      r == CallFailed(generate(prompt, maxOutputTokens).message)
    ensures generate(prompt, maxOutputTokens).Returned? ==>
      var resp := generate(prompt, maxOutputTokens).response;
      && (!Truthy(GetAttr(resp, "candidates")) <==> r == NoCandidates(Repr(resp)))
      && (r.Generated? || r.NoText? ==> r.rawRepr == Repr(resp))
  {
    match generate(prompt, maxOutputTokens)
    case Threw(msg) => CallFailed(msg)
    case Returned(resp) => ClassifyCandidates(GetAttr(resp, "candidates"), Repr(resp))
  }

  /** Only the first candidate is looked at: the others never change the outcome. */
  lemma OnlyFirstCandidateMatters(first: Value, rest1: seq<Value>, rest2: seq<Value>, rawRepr: string)
    ensures ClassifyCandidates(PyList([first] + rest1), rawRepr) == ClassifyCandidates(PyList([first] + rest2), rawRepr)
  {
  }

  /**
   A dict candidate with neither `text` nor `content` yields no text: the dict
   strategies miss, and its `str` is its `repr`, so the fallback refuses it.
   The call ends as "No text returned by model".
   */
  lemma BareDictCandidateGivesNoText(cand: Value, rest: seq<Value>, rawRepr: string)
    requires cand.PyDict? && !InDict(cand.entries, "text") && !InDict(cand.entries, "content")
    ensures SafeExtract(cand).text.None?
    ensures ClassifyCandidates(PyList([cand] + rest), rawRepr).NoText?
  {
  }
}
