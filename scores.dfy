/** Score arithmetic of retrieve: the per-document sum, the min and max of the
    score list and normalize_value. */
module Scores {

  import opened RetrieverTypes

  /** The sum of a score list, accumulated left to right as `+=` does. */
  function Sum(s: seq<real>): real {
    if s == [] then 0.0 else Sum(s[..|s| - 1]) + s[|s| - 1]
  }

  /** The sum of the scores of a chunk list. */
  function ScoreSum(cs: seq<Chunk>): real {
    if cs == [] then 0.0 else ScoreSum(cs[..|cs| - 1]) + cs[|cs| - 1].score
  }

  /** Python's min over a non-empty list. */
  function MinOf(s: seq<real>): (r: real)
    requires s != []
    ensures r in s
    ensures forall x :: x in s ==> r <= x
  {
    if |s| == 1 then s[0]
    else
      var m := MinOf(s[..|s| - 1]);
      assert forall x :: x in s ==> x in s[..|s| - 1] || x == s[|s| - 1];
      if s[|s| - 1] < m then s[|s| - 1] else m
  }

  /** Python's max over a non-empty list. */
  function MaxOf(s: seq<real>): (r: real)
    requires s != []
    ensures r in s
    ensures forall x :: x in s ==> x <= r
  {
    if |s| == 1 then s[0]
    else
      var m := MaxOf(s[..|s| - 1]);
      assert forall x :: x in s ==> x in s[..|s| - 1] || x == s[|s| - 1];
      if s[|s| - 1] > m then s[|s| - 1] else m
  }

  /** normalize_value(value, max_value, min_value). The source divides by
      max_value - min_value unguarded; the caller rules out equal bounds. */
  function Normalize(value: real, maxValue: real, minValue: real): (r: real)
    requires maxValue != minValue
    ensures minValue < maxValue && minValue <= value <= maxValue ==> 0.0 <= r <= 1.0
    ensures value == maxValue ==> r == 1.0
    ensures value == minValue ==> r == 0.0
    ensures minValue < maxValue ==> (r < 0.0 <==> value < minValue) && (r > 1.0 <==> value > maxValue)
  {
    QuotientFacts(value - minValue, maxValue - minValue);
    (value - minValue) / (maxValue - minValue)
  }

  /** Facts about a / d that the solver does not find unaided. */
  lemma QuotientFacts(a: real, d: real)
    requires d != 0.0
    ensures a == d ==> a / d == 1.0
    ensures a == 0.0 <==> a / d == 0.0
    ensures d > 0.0 ==> (a / d < 0.0 <==> a < 0.0) && (a / d > 1.0 <==> a > d)
  {
    assert (a / d) * d == a;
    if d > 0.0 {
      QuotientSign(a, d);
      QuotientAboveOne(a, d);
    }
  }

  lemma QuotientSign(a: real, d: real)
    requires d > 0.0
    ensures a / d < 0.0 <==> a < 0.0
  {
    var q := a / d;
    assert q * d == a;
    if q < 0.0 { assert q * d < 0.0; } else { assert q * d >= 0.0; }
  }

  lemma QuotientAboveOne(a: real, d: real)
    requires d > 0.0
    ensures a / d > 1.0 <==> a > d
  {
    var q := a / d;
    assert q * d == a;
    if q > 1.0 { assert (q - 1.0) * d > 0.0; } else { assert (1.0 - q) * d >= 0.0; }
  }

  /** The score list is seeded with 0, so its bounds straddle 0 and every kept
      score lies between them. */
  lemma SeededBounds(kept: seq<real>)
    ensures MinOf([0.0] + kept) <= 0.0 <= MaxOf([0.0] + kept)
    ensures forall x :: x in kept ==> MinOf([0.0] + kept) <= x <= MaxOf([0.0] + kept)
  {
    assert 0.0 in [0.0] + kept;
    assert forall x :: x in kept ==> x in [0.0] + kept;
  }

  /** The bounds of the seeded list coincide exactly when every kept score is 0:
      that is when normalize_value divides by zero. */
  lemma DegenerateIffAllZero(kept: seq<real>)
    ensures MaxOf([0.0] + kept) == MinOf([0.0] + kept) <==> forall x :: x in kept ==> x == 0.0
  {
    SeededBounds(kept);
    var s := [0.0] + kept;
    if forall x :: x in kept ==> x == 0.0 {
      assert forall x :: x in s ==> x == 0.0;
    }
  }

  /** With distinct bounds, every kept score normalises into [0,1], and a score
      equal to the maximum normalises to 1 and so meets any threshold in [0,1]. */
  lemma NormalizedKeptScores(kept: seq<real>, x: real, threshold: real)
    requires x in kept
    requires MaxOf([0.0] + kept) != MinOf([0.0] + kept)
    requires threshold <= 1.0
    ensures 0.0 <= Normalize(x, MaxOf([0.0] + kept), MinOf([0.0] + kept)) <= 1.0
    ensures x == MaxOf([0.0] + kept) ==> threshold <= Normalize(x, MaxOf([0.0] + kept), MinOf([0.0] + kept))
  {
    SeededBounds(kept);
  }

  /** A kept score normalises to 0 exactly when it equals the lower bound, which
      is min(0, lowest kept score). With no negative kept score that bound is 0,
      so a hit normalises to 0 exactly when it scores 0. */
  lemma LowestNormalisesToZero(kept: seq<real>, x: real)
    requires x in kept
    requires MaxOf([0.0] + kept) != MinOf([0.0] + kept)
    ensures Normalize(x, MaxOf([0.0] + kept), MinOf([0.0] + kept)) == 0.0 <==> x == MinOf([0.0] + kept)
    ensures (forall y :: y in kept ==> 0.0 <= y) ==> MinOf([0.0] + kept) == 0.0
    ensures (forall y :: y in kept ==> 0.0 <= y) ==>
      (Normalize(x, MaxOf([0.0] + kept), MinOf([0.0] + kept)) == 0.0 <==> x == 0.0)
  {
    SeededBounds(kept);
    var lo, hi := MinOf([0.0] + kept), MaxOf([0.0] + kept);
    QuotientFacts(x - lo, hi - lo);
    assert lo == 0.0 || lo in kept;
  }
}
