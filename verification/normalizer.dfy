/**
 `repair_and_normalize`: best-effort repair of the evaluation object the model
 produced. Score values become integers (0 when no conversion works), a
 missing total is filled in from the scores or from a legacy `score` field, an
 existing total is kept, and every other field passes through untouched.
 Nothing here fails.
 */
module Normalizer {
  import opened Wrappers
  import opened Json

  const SCORES := "scores"
  const TOTAL := "total_score_out_of_10"
  const LEGACY_SCORE := "score"

  /** One score value: `int(float(v))`, else `int(v)`, else 0. */
  function CoerceScore(v: Json, nums: Numerics): (r: int)
    ensures v.JInt? ==> r == v.i
    ensures FloatOf(v, nums).Some? ==> r == Trunc(FloatOf(v, nums).value)
    ensures FloatOf(v, nums).None? && IntOf(v, nums).Some? ==> r == IntOf(v, nums).value
    ensures FloatOf(v, nums).None? && IntOf(v, nums).None? ==> r == 0
    ensures v.JNull? || v.JArray? || v.JObject? ==> r == 0
  {
    match FloatOf(v, nums)
    case Some(f) => Trunc(f)
    case None => IntOf(v, nums).GetOr(0)
  }

  /** The scores object with every value coerced in place. */
  function CoerceScores(scores: seq<Field>, nums: Numerics): (r: seq<Field>)
    ensures |r| == |scores| && Keys(r) == Keys(scores)
    ensures forall i :: 0 <= i < |r| ==> r[i].key == scores[i].key && r[i].value.JInt?
    ensures forall i :: 0 <= i < |r| ==> r[i].value.i == CoerceScore(scores[i].value, nums)
    ensures forall i :: 0 <= i < |r| && scores[i].value.JInt? ==> r[i] == scores[i]
  {
    var r := seq(|scores|, i requires 0 <= i < |scores| =>
      Field(scores[i].key, JInt(CoerceScore(scores[i].value, nums))));
    KeysPointwise(r, scores);
    r
  }

  predicate AllInts(fields: seq<Field>) {
    forall i :: 0 <= i < |fields| ==> fields[i].value.JInt?
  }

  /** `sum(d.values())` of an object whose values are all integers. */
  function SumInts(fields: seq<Field>): int
    requires AllInts(fields)
  {
    if |fields| == 0 then 0 else fields[0].value.i + SumInts(fields[1..])
  }

  /** The sum of the scores as the rubric reads them: each value coerced. */
  function ScoreSum(scores: seq<Field>, nums: Numerics): int {
    if |scores| == 0 then 0 else CoerceScore(scores[0].value, nums) + ScoreSum(scores[1..], nums)
  }

  /** The `scores` field when it is an object. */
  function ScoresObject(data: seq<Field>): Option<seq<Field>> {
    match Lookup(data, SCORES)
    case Some(JObject(s)) => Some(s)
    case _ => None
  }

  /** First step: every value of an object `scores` becomes an integer. */
  function CoerceStep(data: seq<Field>, nums: Numerics): (r: seq<Field>)
    ensures ScoresObject(data).Some? ==> ScoresObject(r) == Some(CoerceScores(ScoresObject(data).value, nums))
    ensures ScoresObject(data).None? ==> r == data
    ensures forall k :: k != SCORES ==> Lookup(r, k) == Lookup(data, k)
    ensures Keys(r) == Keys(data)
  {
    match ScoresObject(data)
    case Some(s) => Put(data, SCORES, JObject(CoerceScores(s, nums)))
    case None => data
  }

  /**
   Second step: a missing total becomes the sum of the scores. Run after the
   first step, the scores are all integers and the sum cannot fail.
   */
  function TotalFromScores(data: seq<Field>): (r: seq<Field>)
    requires ScoresObject(data).Some? ==> AllInts(ScoresObject(data).value)
    ensures HasKey(data, TOTAL) || ScoresObject(data).None? ==> r == data
    ensures !HasKey(data, TOTAL) && ScoresObject(data).Some? ==>
      && Lookup(r, TOTAL) == Some(JFloat(SumInts(ScoresObject(data).value) as real))
      && Keys(r) == Keys(data) + [TOTAL]
    ensures forall k :: k != TOTAL ==> Lookup(r, k) == Lookup(data, k)
  {
    match ScoresObject(data)
    case Some(s) => if HasKey(data, TOTAL) then data else Put(data, TOTAL, JFloat(SumInts(s) as real))
    case None => data
  }

  /** Third step: a still missing total is `float()` of a legacy `score`, when that converts. */
  function TotalFromLegacyScore(data: seq<Field>, nums: Numerics): (r: seq<Field>)
    ensures HasKey(data, TOTAL) ==> r == data
    ensures !HasKey(data, TOTAL) ==>
      Lookup(r, TOTAL) == match Lookup(data, LEGACY_SCORE)
                          case Some(v) => (match FloatOf(v, nums) case Some(f) => Some(JFloat(f)) case None => None)
                          case None => None
    ensures forall k :: k != TOTAL ==> Lookup(r, k) == Lookup(data, k)
    ensures Keys(r) == Keys(data) || (!HasKey(data, TOTAL) && Keys(r) == Keys(data) + [TOTAL])
  {
    if HasKey(data, TOTAL) then data
    else match Lookup(data, LEGACY_SCORE)
      case Some(v) => (match FloatOf(v, nums) case Some(f) => Put(data, TOTAL, JFloat(f)) case None => data)
      case None => data
  }

  /** `repair_and_normalize`: the three steps in turn; `NormalizeRepairs` states what it promises. */
  function Normalize(data: seq<Field>, nums: Numerics): (r: seq<Field>)
    ensures Keys(r) == Keys(data) || (!HasKey(data, TOTAL) && Keys(r) == Keys(data) + [TOTAL])
  {
    var d1 := CoerceStep(data, nums);
    assert HasKey(d1, TOTAL) == HasKey(data, TOTAL);
    var d2 := TotalFromScores(d1);
    TotalFromLegacyScore(d2, nums)
  }

  /**
   The repair coerces an object `scores`, keeps an existing total, fills a
   missing total from the coerced scores or else from a legacy `score` that
   converts, and leaves every other field as it was.
   */
  lemma NormalizeRepairs(data: seq<Field>, nums: Numerics)
    ensures var r := Normalize(data, nums);
      && (ScoresObject(data).Some? ==>
            ScoresObject(r) == Some(CoerceScores(ScoresObject(data).value, nums)))
      && (ScoresObject(data).None? ==> Lookup(r, SCORES) == Lookup(data, SCORES))
      && (HasKey(data, TOTAL) ==> Lookup(r, TOTAL) == Lookup(data, TOTAL))
      && (!HasKey(data, TOTAL) && ScoresObject(data).Some? ==>
            Lookup(r, TOTAL) == Some(JFloat(ScoreSum(ScoresObject(data).value, nums) as real)))
      && (!HasKey(data, TOTAL) && ScoresObject(data).None? ==>
            Lookup(r, TOTAL) == match Lookup(data, LEGACY_SCORE)
                                case Some(v) => (match FloatOf(v, nums) case Some(f) => Some(JFloat(f)) case None => None)
                                case None => None)
      && (forall k :: k != SCORES && k != TOTAL ==> Lookup(r, k) == Lookup(data, k))
  {
    var d1 := CoerceStep(data, nums);
    var d2 := TotalFromScores(d1);
    assert HasKey(d1, TOTAL) == HasKey(data, TOTAL);
    if ScoresObject(data).Some? {
      SumOfCoerced(ScoresObject(data).value, nums);
      assert HasKey(d2, TOTAL);
    } else {
      assert d2 == d1 == data;
    }
  }

  lemma {:induction false} SumOfCoerced(scores: seq<Field>, nums: Numerics)
    ensures SumInts(CoerceScores(scores, nums)) == ScoreSum(scores, nums)
    decreases |scores|
  {
    if |scores| > 0 {
      SumOfCoerced(scores[1..], nums);
      assert CoerceScores(scores, nums)[1..] == CoerceScores(scores[1..], nums);
    }
  }

  lemma CoerceScoresIdempotent(scores: seq<Field>, nums: Numerics)
    ensures CoerceScores(CoerceScores(scores, nums), nums) == CoerceScores(scores, nums)
  {
  }

  /** Normalizing an already normalized object changes nothing. */
  lemma NormalizeIdempotent(data: seq<Field>, nums: Numerics)
    ensures Normalize(Normalize(data, nums), nums) == Normalize(data, nums)
  {
    var r := Normalize(data, nums);
    NormalizeRepairs(data, nums);
    match ScoresObject(data)
    case Some(s) =>
      var c := CoerceScores(s, nums);
      CoerceScoresIdempotent(s, nums);
      assert ScoresObject(r) == Some(c);
      PutSame(r, SCORES, JObject(c));
      assert HasKey(r, TOTAL);
    case None =>
  }
}
