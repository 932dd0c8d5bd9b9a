/** Interview scores (over the reals): weights, evidence, the guard on AI scores, and aggregation. */
module Scoring {
  import opened Wrappers

  datatype Category = TECHNICAL | DOMAIN | PROBLEM_SOLVING | BEHAVIORAL | COMMUNICATION

  datatype Dimension = Dimension(key: string, category: Category, weight: real)

  type CategoryWeights = map<Category, real>

  function Pos(x: real): real { if x < 0.0 then 0.0 else x }

  function Clamp(x: real, lo: real, hi: real): real {
    var y := if x < lo then lo else x;
    if y > hi then hi else y
  }

  /** `Math.round`: to the nearest integer, halves up. */
  function Round(x: real): int { (x + 0.5).Floor }

  // Products and quotients have names, so that the lemmas about sums need not look inside them.

  function Times(a: real, b: real): real { a * b }

  function Over(a: real, b: real): real
    requires b != 0.0
  {
    a / b
  }

  // ---- Sums ----------------------------------------------------------------------------------

  function Sum(xs: seq<real>, n: nat): real
    requires n <= |xs|
  {
    if n == 0 then 0.0 else Sum(xs, n - 1) + xs[n - 1]
  }

  function Total(xs: seq<real>): real { Sum(xs, |xs|) }

  lemma SumNonNegative(xs: seq<real>, n: nat)
    requires n <= |xs| && forall i :: 0 <= i < |xs| ==> xs[i] >= 0.0
    ensures Sum(xs, n) >= 0.0
    ensures Sum(xs, n) == 0.0 ==> forall i :: 0 <= i < n ==> xs[i] == 0.0
  {
  }

  lemma SumMonotone(xs: seq<real>, ys: seq<real>, n: nat)
    requires n <= |xs| == |ys| && forall i :: 0 <= i < |xs| ==> xs[i] <= ys[i]
    ensures Sum(xs, n) <= Sum(ys, n)
  {
  }

  lemma SumOfSums(xs: seq<real>, ys: seq<real>, zs: seq<real>, n: nat)
    requires n <= |xs| == |ys| == |zs| && forall i :: 0 <= i < |xs| ==> xs[i] <= ys[i] + zs[i]
    ensures Sum(xs, n) <= Sum(ys, n) + Sum(zs, n)
  {
  }

  lemma QuotientOfSum(a: real, b: real, t: real)
    requires t > 0.0
    ensures Over(a + b, t) == Over(a, t) + Over(b, t)
  {
  }

  lemma SelfQuotient(t: real)
    requires t > 0.0
    ensures Over(t, t) == 1.0
  {
  }

  lemma ZeroQuotient(t: real)
    requires t > 0.0
    ensures Over(0.0, t) == 0.0
  {
  }

  lemma SumOfQuotients(xs: seq<real>, ys: seq<real>, t: real, n: nat)
    requires n <= |xs| == |ys| && t > 0.0 && forall i :: 0 <= i < |xs| ==> ys[i] == Over(xs[i], t)
    ensures Sum(ys, n) == Over(Sum(xs, n), t)
  {
    hide Over;
    if n == 0 {
      ZeroQuotient(t);
    } else {
      SumOfQuotients(xs, ys, t, n - 1);
      QuotientOfSum(Sum(xs, n - 1), xs[n - 1], t);
    }
  }

  function Scale(k: real, xs: seq<real>): seq<real> { seq(|xs|, i requires 0 <= i < |xs| => Times(k, xs[i])) }

  lemma Distribute(k: real, a: real, b: real)
    ensures Times(k, a + b) == Times(k, a) + Times(k, b)
  {
  }

  lemma TimesZeroOne(k: real)
    ensures Times(k, 0.0) == 0.0 && Times(k, 1.0) == k
  {
  }

  lemma SumOfScaled(k: real, xs: seq<real>, n: nat)
    requires n <= |xs|
    ensures Sum(Scale(k, xs), n) == Times(k, Sum(xs, n))
  {
    hide Times;
    if n == 0 {
      TimesZeroOne(k);
    } else {
      SumOfScaled(k, xs, n - 1);
      Distribute(k, Sum(xs, n - 1), xs[n - 1]);
    }
  }

  // ---- Weights -------------------------------------------------------------------------------

  function ByWeight(dims: seq<Dimension>): seq<real> {
    seq(|dims|, i requires 0 <= i < |dims| => Pos(dims[i].weight))
  }

  function Equal(dims: seq<Dimension>): seq<real> { seq(|dims|, i requires 0 <= i < |dims| => 1.0) }

  /** The entries of one category, zero elsewhere. */
  function Of(dims: seq<Dimension>, xs: seq<real>, c: Category): seq<real>
    requires |xs| == |dims|
  {
    seq(|dims|, i requires 0 <= i < |dims| => if dims[i].category == c then xs[i] else 0.0)
  }

  /** The competency weight inside a category, and the number of its members. */
  function Inside(dims: seq<Dimension>, c: Category): real { Total(Of(dims, ByWeight(dims), c)) }

  function Members(dims: seq<Dimension>, c: Category): real { Total(Of(dims, Equal(dims), c)) }

  /** A dimension's share of its category: by weight, or equal when nothing there is weighted. */
  function Share(d: Dimension, inside: real, members: real): real {
    if inside > 0.0 then Over(Pos(d.weight), inside) else if members > 0.0 then Over(1.0, members) else 0.0
  }

  function ShareAt(dims: seq<Dimension>, i: nat): real
    requires i < |dims|
  {
    Share(dims[i], Inside(dims, dims[i].category), Members(dims, dims[i].category))
  }

  function Shares(dims: seq<Dimension>): seq<real> { seq(|dims|, i requires 0 <= i < |dims| => ShareAt(dims, i)) }

  function CategoryWeight(cw: CategoryWeights, c: Category): real { if c in cw then Pos(cw[c]) else 0.0 }

  function RawAt(dims: seq<Dimension>, cw: CategoryWeights, i: nat): real
    requires i < |dims|
  {
    Times(CategoryWeight(cw, dims[i].category), ShareAt(dims, i))
  }

  function ByCategory(dims: seq<Dimension>, cw: CategoryWeights): seq<real> {
    seq(|dims|, i requires 0 <= i < |dims| => RawAt(dims, cw, i))
  }

  /** The raw weights: by category, else by competency weight alone, else equal. */
  function RawWeights(dims: seq<Dimension>, cw: CategoryWeights): seq<real> {
    if Total(ByCategory(dims, cw)) != 0.0 then ByCategory(dims, cw)
    else if Total(ByWeight(dims)) != 0.0 then ByWeight(dims)
    else Equal(dims)
  }

  function Normalised(raw: seq<real>): seq<real> {
    seq(|raw|, i requires 0 <= i < |raw| => if Total(raw) > 0.0 then Over(raw[i], Total(raw)) else 0.0)
  }

  /** The weight of each dimension, as a part of one. */
  function Weights(dims: seq<Dimension>, cw: CategoryWeights): seq<real> { Normalised(RawWeights(dims, cw)) }

  method AddUp(xs: seq<real>) returns (total: real)
    ensures total == Total(xs)
  {
    total := 0.0;
    var i := 0;
    while i < |xs|
      invariant 0 <= i <= |xs| && total == Sum(xs, i)
    {
      total := total + xs[i];
      i := i + 1;
    }
  }

  method CategoryTotals(dims: seq<Dimension>, c: Category) returns (inside: real, members: real)
    ensures inside == Inside(dims, c) && members == Members(dims, c)
  {
    inside, members := 0.0, 0.0;
    var i := 0;
    while i < |dims|
      invariant 0 <= i <= |dims|
      invariant inside == Sum(Of(dims, ByWeight(dims), c), i) && members == Sum(Of(dims, Equal(dims), c), i)
    {
      if dims[i].category == c { inside, members := inside + Pos(dims[i].weight), members + 1.0; }
      i := i + 1;
    }
  }

  method RawByCategory(dims: seq<Dimension>, cw: CategoryWeights) returns (raw: seq<real>)
    ensures raw == ByCategory(dims, cw)
  {
    hide Times, Over;
    raw := [];
    var i := 0;
    while i < |dims|
      invariant 0 <= i <= |dims| && |raw| == i
      invariant forall k :: 0 <= k < i ==> raw[k] == RawAt(dims, cw, k)
    {
      var inside, members := CategoryTotals(dims, dims[i].category);
      var share := Share(dims[i], inside, members);
      assert share == ShareAt(dims, i);
      raw := raw + [Times(CategoryWeight(cw, dims[i].category), share)];
      i := i + 1;
    }
  }

  method EffectiveWeights(dims: seq<Dimension>, cw: CategoryWeights) returns (weights: seq<real>)
    ensures weights == Weights(dims, cw)
  {
    hide Times, Over;
    var raw := RawByCategory(dims, cw);
    var total := AddUp(raw);
    if total == 0.0 {
      raw := ByWeight(dims);
      total := AddUp(raw);
      if total == 0.0 {
        raw := Equal(dims);
        total := AddUp(raw);
      }
    }
    weights := seq(|raw|, i requires 0 <= i < |raw| => if total > 0.0 then Over(raw[i], total) else 0.0);
  }

  lemma ProductNonNegative(a: real, b: real)
    requires a >= 0.0 && b >= 0.0
    ensures Times(a, b) >= 0.0
  {
  }

  lemma QuotientNonNegative(a: real, b: real)
    requires a >= 0.0 && b > 0.0
    ensures Over(a, b) >= 0.0
  {
  }

  lemma ShareNonNegative(d: Dimension, inside: real, members: real)
    ensures Share(d, inside, members) >= 0.0
  {
    hide Over;
    if inside > 0.0 {
      QuotientNonNegative(Pos(d.weight), inside);
    } else if members > 0.0 {
      QuotientNonNegative(1.0, members);
    }
  }

  lemma RawNonNegative(dims: seq<Dimension>, cw: CategoryWeights)
    ensures var raw := RawWeights(dims, cw);
            |raw| == |dims| && (forall i :: 0 <= i < |raw| ==> raw[i] >= 0.0) && (dims != [] ==> Total(raw) > 0.0)
  {
    hide Times, Over;
    forall i | 0 <= i < |dims| ensures ByCategory(dims, cw)[i] >= 0.0 {
      ShareNonNegative(dims[i], Inside(dims, dims[i].category), Members(dims, dims[i].category));
      ProductNonNegative(CategoryWeight(cw, dims[i].category), ShareAt(dims, i));
    }
    SumNonNegative(ByCategory(dims, cw), |dims|);
    SumNonNegative(ByWeight(dims), |dims|);
    SumNonNegative(Equal(dims), |dims|);
    if dims != [] { assert Equal(dims)[0] == 1.0; }
  }

  /** The weights are shares: not negative, and one in all. */
  lemma WeightsAreShares(dims: seq<Dimension>, cw: CategoryWeights)
    ensures |Weights(dims, cw)| == |dims| && forall w <- Weights(dims, cw) :: w >= 0.0
    ensures dims != [] ==> Total(Weights(dims, cw)) == 1.0
  {
    hide Times, Over;
    RawNonNegative(dims, cw);
    var raw := RawWeights(dims, cw);
    var weights := Weights(dims, cw);
    forall i | 0 <= i < |raw| ensures weights[i] >= 0.0 {
      if Total(raw) > 0.0 { QuotientNonNegative(raw[i], Total(raw)); }
    }
    if dims != [] {
      SumOfQuotients(raw, weights, Total(raw), |raw|);
      SelfQuotient(Total(raw));
    }
  }

  // ---- A category counts for its weight --------------------------------------------------------

  /** Entries that are quotients in one category add up there to the quotient of the sum. */
  lemma CategoryOfQuotients(dims: seq<Dimension>, xs: seq<real>, ys: seq<real>, c: Category, t: real)
    requires |dims| == |xs| == |ys| && t > 0.0
    requires forall i :: 0 <= i < |dims| && dims[i].category == c ==> ys[i] == Over(xs[i], t)
    ensures Total(Of(dims, ys, c)) == Over(Total(Of(dims, xs, c)), t)
  {
    hide Over;
    ZeroQuotient(t);
    SumOfQuotients(Of(dims, xs, c), Of(dims, ys, c), t, |dims|);
  }

  /** The shares inside a covered category add up to one. */
  lemma SharesAreWhole(dims: seq<Dimension>, c: Category)
    requires Members(dims, c) > 0.0
    ensures Total(Of(dims, Shares(dims), c)) == 1.0
  {
    hide Times, Over;
    if Inside(dims, c) > 0.0 {
      CategoryOfQuotients(dims, ByWeight(dims), Shares(dims), c, Inside(dims, c));
      SelfQuotient(Inside(dims, c));
    } else {
      CategoryOfQuotients(dims, Equal(dims), Shares(dims), c, Members(dims, c));
      SelfQuotient(Members(dims, c));
    }
  }

  /** Inside a covered category the raw weights add up to the category's weight, however the blueprint splits it. */
  lemma CategoryGetsItsWeight(dims: seq<Dimension>, cw: CategoryWeights, c: Category)
    requires Members(dims, c) > 0.0
    ensures Total(Of(dims, ByCategory(dims, cw), c)) == CategoryWeight(cw, c)
  {
    hide Times, Over;
    SharesAreWhole(dims, c);
    var k := CategoryWeight(cw, c);
    TimesZeroOne(k);
    assert Of(dims, ByCategory(dims, cw), c) == Scale(k, Of(dims, Shares(dims), c));
    SumOfScaled(k, Of(dims, Shares(dims), c), |dims|);
  }

  /** When some covered category is weighted, each category counts for its weight over the sum of the raw weights. */
  lemma CategoryCountsForItsWeight(dims: seq<Dimension>, cw: CategoryWeights, c: Category)
    requires Total(ByCategory(dims, cw)) != 0.0 && Members(dims, c) > 0.0
    ensures |Weights(dims, cw)| == |dims|
    ensures Total(Of(dims, Weights(dims, cw), c)) == Over(CategoryWeight(cw, c), Total(ByCategory(dims, cw)))
  {
    hide Times, Over;
    RawNonNegative(dims, cw);
    CategoryOfQuotients(dims, ByCategory(dims, cw), Weights(dims, cw), c, Total(ByCategory(dims, cw)));
    CategoryGetsItsWeight(dims, cw, c);
  }

  // ---- The guard on AI scores ------------------------------------------------------------------

  const SCORE_GUARD_BAND := 25

  /** Mean strength (-2 to 2) on a scale of 0 to 100. */
  function StrengthScore(meanStrength: real): int { Round((Clamp(meanStrength, -2.0, 2.0) + 2.0) / 4.0 * 100.0) }

  /** None without evidence. */
  datatype AiScore = Missing | NotFinite | Score(value: real)

  datatype Guarded = Guarded(score: Option<int>, adjusted: bool, fallback: bool)

  function Bounded(x: int, lo: int, hi: int): int {
    var y := if x < lo then lo else x;
    if y > hi then hi else y
  }

  function GuardScore(ai: AiScore, count: nat, meanStrength: Option<real>): Guarded {
    if count == 0 || meanStrength.None? then Guarded(None, false, false)
    else
      var base := StrengthScore(meanStrength.value);
      if !ai.Score? then Guarded(Some(base), false, true)
      else
        var lo := if base - SCORE_GUARD_BAND > 0 then base - SCORE_GUARD_BAND else 0;
        var hi := if base + SCORE_GUARD_BAND < 100 then base + SCORE_GUARD_BAND else 100;
        var score := Bounded(Round(ai.value), lo, hi);
        Guarded(Some(score), score != Round(ai.value), false)
  }

  /** Both or neither, in range, and at most `band` apart. */
  predicate CloseAt(a: Option<int>, b: Option<int>, band: int) {
    && (a.Some? <==> b.Some?)
    && (a.Some? ==> 0 <= a.value <= 100 && 0 <= b.value <= 100 && b.value - band <= a.value <= b.value + band)
  }

  lemma StrengthInRange(meanStrength: real)
    ensures 0 <= StrengthScore(meanStrength) <= 100
  {
    var x := (Clamp(meanStrength, -2.0, 2.0) + 2.0) / 4.0 * 100.0;
    assert 0.0 <= x <= 100.0;
  }

  /** An AI score moves a dimension at most the guard band from what its evidence alone says, and
      makes a score neither appear nor disappear. */
  lemma GuardHolds(ai: AiScore, count: nat, meanStrength: Option<real>)
    ensures CloseAt(GuardScore(ai, count, meanStrength).score, GuardScore(Missing, count, meanStrength).score, SCORE_GUARD_BAND)
    ensures CloseAt(GuardScore(Missing, count, meanStrength).score, GuardScore(ai, count, meanStrength).score, SCORE_GUARD_BAND)
  {
    if meanStrength.Some? { StrengthInRange(meanStrength.value); }
  }

  // ---- Aggregation ---------------------------------------------------------------------------

  function ScoredAt(w: real, s: Option<int>): real { if s.Some? then w else 0.0 }

  function WeightedAt(w: real, s: Option<int>): real {
    if s.Some? then Times(w, Clamp(s.value as real, 0.0, 100.0)) else 0.0
  }

  /** The weights of the scored dimensions, and those weights times the scores. */
  function Scored(weights: seq<real>, scores: seq<Option<int>>): seq<real>
    requires |weights| == |scores|
  {
    seq(|weights|, i requires 0 <= i < |weights| => ScoredAt(weights[i], scores[i]))
  }

  function Weighted(weights: seq<real>, scores: seq<Option<int>>): seq<real>
    requires |weights| == |scores|
  {
    seq(|weights|, i requires 0 <= i < |weights| => WeightedAt(weights[i], scores[i]))
  }

  const EPSILON := 0.0000000000000002220446049250313

  /** To four decimals. */
  function Round4(x: real): real { Round((x + EPSILON) * 10000.0) as real / 10000.0 }

  /** The mean of what was scored, by weight; none when that is less than half of it. */
  function Overall(weights: seq<real>, scores: seq<Option<int>>): Option<int>
    requires |weights| == |scores|
  {
    var scored := Total(Scored(weights, scores));
    if scored > 0.0 && Round4(scored) >= 0.5 then Some(Round(Over(Total(Weighted(weights, scores)), scored))) else None
  }

  method Aggregate(dims: seq<Dimension>, scores: seq<Option<int>>, cw: CategoryWeights)
    returns (overall: Option<int>, assessedWeight: real)
    requires |scores| == |dims|
    ensures |Weights(dims, cw)| == |dims|
    ensures overall == Overall(Weights(dims, cw), scores)
    ensures assessedWeight == Round4(Total(Scored(Weights(dims, cw), scores)))
  {
    hide Times, Over;
    var weights := EffectiveWeights(dims, cw);
    WeightsAreShares(dims, cw);
    var scored, sum := 0.0, 0.0;
    var i := 0;
    while i < |dims|
      invariant 0 <= i <= |dims| == |weights|
      invariant scored == Sum(Scored(weights, scores), i) && sum == Sum(Weighted(weights, scores), i)
    {
      if scores[i].Some? {
        scored := scored + weights[i];
        sum := sum + Times(weights[i], Clamp(scores[i].value as real, 0.0, 100.0));
      }
      i := i + 1;
    }
    assessedWeight := Round4(scored);
    overall := if scored > 0.0 && assessedWeight >= 0.5 then Some(Round(Over(sum, scored))) else None;
  }

  lemma Monotone(w: real, a: real, b: real)
    requires w >= 0.0 && a <= b
    ensures Times(w, a) <= Times(w, b)
  {
  }

  lemma Commutes(a: real, b: real)
    ensures Times(a, b) == Times(b, a)
  {
  }

  predicate Within(scores: seq<Option<int>>, lo: int, hi: int) {
    0 <= lo && hi <= 100 && forall i :: 0 <= i < |scores| && scores[i].Some? ==> lo <= scores[i].value <= hi
  }

  lemma EntryAbove(w: real, s: Option<int>, k: real)
    requires w >= 0.0 && (s.Some? ==> 0 <= s.value <= 100 && k <= s.value as real)
    ensures Times(k, ScoredAt(w, s)) <= WeightedAt(w, s)
  {
    hide Times;
    TimesZeroOne(k);
    if s.Some? {
      assert Clamp(s.value as real, 0.0, 100.0) == s.value as real;
      Monotone(w, k, s.value as real);
      Commutes(k, w);
    }
  }

  lemma EntryBelow(w: real, s: Option<int>, k: real)
    requires w >= 0.0 && (s.Some? ==> 0 <= s.value <= 100 && s.value as real <= k)
    ensures WeightedAt(w, s) <= Times(k, ScoredAt(w, s))
  {
    hide Times;
    TimesZeroOne(k);
    if s.Some? {
      assert Clamp(s.value as real, 0.0, 100.0) == s.value as real;
      Monotone(w, s.value as real, k);
      Commutes(k, w);
    }
  }

  /** Scores above a bound have a weighted sum above the bound times the scored weight. */
  lemma SumAbove(weights: seq<real>, scores: seq<Option<int>>, lo: int, hi: int)
    requires |weights| == |scores| && (forall i :: 0 <= i < |weights| ==> weights[i] >= 0.0) && Within(scores, lo, hi)
    ensures Times(lo as real, Total(Scored(weights, scores))) <= Total(Weighted(weights, scores))
  {
    hide Times, Over;
    var k, n := lo as real, |weights|;
    forall i | 0 <= i < n ensures Scale(k, Scored(weights, scores))[i] <= Weighted(weights, scores)[i] {
      EntryAbove(weights[i], scores[i], k);
    }
    SumMonotone(Scale(k, Scored(weights, scores)), Weighted(weights, scores), n);
    SumOfScaled(k, Scored(weights, scores), n);
  }

  lemma SumBelow(weights: seq<real>, scores: seq<Option<int>>, lo: int, hi: int)
    requires |weights| == |scores| && (forall i :: 0 <= i < |weights| ==> weights[i] >= 0.0) && Within(scores, lo, hi)
    ensures Total(Weighted(weights, scores)) <= Times(hi as real, Total(Scored(weights, scores)))
  {
    hide Times, Over;
    var k, n := hi as real, |weights|;
    forall i | 0 <= i < n ensures Weighted(weights, scores)[i] <= Scale(k, Scored(weights, scores))[i] {
      EntryBelow(weights[i], scores[i], k);
    }
    SumMonotone(Weighted(weights, scores), Scale(k, Scored(weights, scores)), n);
    SumOfScaled(k, Scored(weights, scores), n);
  }

  lemma QuotientAbove(sum: real, t: real, lo: real)
    requires t > 0.0 && Times(lo, t) <= sum
    ensures lo <= Over(sum, t)
  {
    hide Times, Over;
    QuotientOfSum(Times(lo, t), sum - Times(lo, t), t);
    QuotientNonNegative(sum - Times(lo, t), t);
    ProductQuotient(lo, t);
  }

  lemma ProductQuotient(k: real, t: real)
    requires t > 0.0
    ensures Over(Times(k, t), t) == k
  {
  }

  lemma QuotientBelow(sum: real, t: real, hi: real)
    requires t > 0.0 && sum <= Times(hi, t)
    ensures Over(sum, t) <= hi
  {
    hide Times, Over;
    QuotientOfSum(sum, Times(hi, t) - sum, t);
    QuotientNonNegative(Times(hi, t) - sum, t);
    ProductQuotient(hi, t);
  }

  /** The overall score lies between the lowest and the highest scored dimension. */
  lemma OverallBetween(dims: seq<Dimension>, scores: seq<Option<int>>, cw: CategoryWeights, lo: int, hi: int)
    requires |scores| == |dims| && Within(scores, lo, hi)
    ensures |Weights(dims, cw)| == |dims|
    ensures var overall := Overall(Weights(dims, cw), scores);
            overall.Some? ==> lo <= overall.value <= hi
  {
    hide Times, Over;
    WeightsAreShares(dims, cw);
    var weights := Weights(dims, cw);
    if Overall(weights, scores).Some? {
      assert forall i :: 0 <= i < |weights| ==> weights[i] in weights;
      SumAbove(weights, scores, lo, hi);
      SumBelow(weights, scores, lo, hi);
      QuotientAbove(Total(Weighted(weights, scores)), Total(Scored(weights, scores)), lo as real);
      QuotientBelow(Total(Weighted(weights, scores)), Total(Scored(weights, scores)), hi as real);
    }
  }

  predicate Close(a: seq<Option<int>>, b: seq<Option<int>>, band: int) {
    |a| == |b| && forall i :: 0 <= i < |a| ==> CloseAt(a[i], b[i], band)
  }

  lemma EntryClose(w: real, a: Option<int>, b: Option<int>, band: int)
    requires w >= 0.0 && CloseAt(a, b, band)
    ensures WeightedAt(w, a) <= WeightedAt(w, b) + Times(band as real, ScoredAt(w, b))
  {
    hide Times;
    TimesZeroOne(band as real);
    if a.Some? {
      var x, y, k := a.value as real, b.value as real, band as real;
      assert Clamp(x, 0.0, 100.0) == x && Clamp(y, 0.0, 100.0) == y;
      Monotone(w, x, y + k);
      Distribute(w, y, k);
      Commutes(k, w);
    }
  }

  /** Scores that differ by at most `band` in each dimension have weighted sums that differ by at most that much of the weight. */
  lemma SumsClose(weights: seq<real>, a: seq<Option<int>>, b: seq<Option<int>>, band: int)
    requires |weights| == |a| && (forall i :: 0 <= i < |weights| ==> weights[i] >= 0.0) && Close(a, b, band)
    ensures Scored(weights, a) == Scored(weights, b)
    ensures Total(Weighted(weights, a)) <= Total(Weighted(weights, b)) + Times(band as real, Total(Scored(weights, b)))
  {
    hide Times, Over;
    var k, n := band as real, |weights|;
    forall i | 0 <= i < n ensures Weighted(weights, a)[i] <= Weighted(weights, b)[i] + Scale(k, Scored(weights, b))[i] {
      EntryClose(weights[i], a[i], b[i], band);
    }
    SumOfSums(Weighted(weights, a), Weighted(weights, b), Scale(k, Scored(weights, b)), n);
    SumOfScaled(k, Scored(weights, b), n);
  }

  lemma RoundClose(x: real, y: real, band: int)
    requires x <= y + band as real
    ensures Round(x) <= Round(y) + band
  {
  }

  lemma MeansClose(a: real, b: real, t: real, band: real)
    requires t > 0.0 && a <= b + Times(band, t)
    ensures Over(a, t) <= Over(b, t) + band
  {
    hide Times, Over;
    QuotientBelow(a - b, t, band);
    QuotientOfSum(a - b, b, t);
  }

  lemma OverallClose(weights: seq<real>, a: seq<Option<int>>, b: seq<Option<int>>, band: int)
    requires |weights| == |a| && (forall i :: 0 <= i < |weights| ==> weights[i] >= 0.0) && Close(a, b, band)
    ensures Overall(weights, a).None? <==> Overall(weights, b).None?
    ensures Overall(weights, a).Some? ==> Overall(weights, a).value <= Overall(weights, b).value + band
  {
    hide Times, Over;
    SumsClose(weights, a, b, band);
    var t := Total(Scored(weights, b));
    if Overall(weights, a).Some? {
      MeansClose(Total(Weighted(weights, a)), Total(Weighted(weights, b)), t, band as real);
      RoundClose(Over(Total(Weighted(weights, a)), t), Over(Total(Weighted(weights, b)), t), band);
    }
  }

  /** The evidence for one dimension: how many items, and their mean strength. */
  datatype Evidence = Evidence(count: nat, meanStrength: Option<real>)

  function GuardedScores(ai: seq<AiScore>, evidence: seq<Evidence>): seq<Option<int>>
    requires |ai| == |evidence|
  {
    seq(|ai|, i requires 0 <= i < |ai| => GuardScore(ai[i], evidence[i].count, evidence[i].meanStrength).score)
  }

  function EvidenceScores(evidence: seq<Evidence>): seq<Option<int>> {
    seq(|evidence|, i requires 0 <= i < |evidence| => GuardScore(Missing, evidence[i].count, evidence[i].meanStrength).score)
  }

  lemma ScoresClose(ai: seq<AiScore>, evidence: seq<Evidence>)
    requires |ai| == |evidence|
    ensures Close(GuardedScores(ai, evidence), EvidenceScores(evidence), SCORE_GUARD_BAND)
    ensures Close(EvidenceScores(evidence), GuardedScores(ai, evidence), SCORE_GUARD_BAND)
  {
    forall i | 0 <= i < |ai|
      ensures CloseAt(GuardedScores(ai, evidence)[i], EvidenceScores(evidence)[i], SCORE_GUARD_BAND)
      ensures CloseAt(EvidenceScores(evidence)[i], GuardedScores(ai, evidence)[i], SCORE_GUARD_BAND)
    {
      GuardHolds(ai[i], evidence[i].count, evidence[i].meanStrength);
    }
  }

  /** Whatever scores the AI gives, there is an overall score exactly when the evidence alone gives
      one, and it differs from that by at most the guard band. */
  lemma AiMovesOverallLittle(dims: seq<Dimension>, cw: CategoryWeights, ai: seq<AiScore>, evidence: seq<Evidence>)
    requires |ai| == |evidence| == |dims|
    ensures |Weights(dims, cw)| == |dims|
    ensures var guarded, alone := Overall(Weights(dims, cw), GuardedScores(ai, evidence)), Overall(Weights(dims, cw), EvidenceScores(evidence));
            && (guarded.None? <==> alone.None?)
            && (guarded.Some? ==> alone.value - SCORE_GUARD_BAND <= guarded.value <= alone.value + SCORE_GUARD_BAND)
  {
    hide Times, Over;
    WeightsAreShares(dims, cw);
    var a, b := GuardedScores(ai, evidence), EvidenceScores(evidence);
    ScoresClose(ai, evidence);
    assert forall i :: 0 <= i < |dims| ==> Weights(dims, cw)[i] in Weights(dims, cw);
    OverallClose(Weights(dims, cw), a, b, SCORE_GUARD_BAND);
    OverallClose(Weights(dims, cw), b, a, SCORE_GUARD_BAND);
  }

  /** An AI score within the band stands as it is; one outside is moved to the nearer end of the band
      and marked; one that is missing gives way to the evidence. */
  lemma AiScoreStandsInBand(x: real, count: nat, meanStrength: real)
    requires count > 0
    ensures var alone := GuardScore(Missing, count, Some(meanStrength)).score.value;
            var g := GuardScore(Score(x), count, Some(meanStrength));
            var nearest := if Round(x) < alone then alone - SCORE_GUARD_BAND else alone + SCORE_GUARD_BAND;
            && g.score.Some? && !g.fallback
            && (g.adjusted <==> g.score.value != Round(x))
            && (alone - SCORE_GUARD_BAND <= Round(x) <= alone + SCORE_GUARD_BAND && 0 <= Round(x) <= 100 ==> !g.adjusted)
            && (!(alone - SCORE_GUARD_BAND <= Round(x) <= alone + SCORE_GUARD_BAND) ==>
                  g.score.value == if nearest < 0 then 0 else if nearest > 100 then 100 else nearest)
            && GuardScore(Missing, count, Some(meanStrength)).fallback
  {
    StrengthInRange(meanStrength);
  }

  /** Stronger evidence never lowers a score, and the scale runs from 0 at -2 over 50 at 0 to 100 at 2. */
  lemma StrengthScale(a: real, b: real)
    requires a <= b
    ensures StrengthScore(a) <= StrengthScore(b)
    ensures StrengthScore(-2.0) == 0 && StrengthScore(0.0) == 50 && StrengthScore(2.0) == 100
  {
    var x, y := (Clamp(a, -2.0, 2.0) + 2.0) / 4.0 * 100.0, (Clamp(b, -2.0, 2.0) + 2.0) / 4.0 * 100.0;
    assert x <= y;
    assert (x + 0.5).Floor <= (y + 0.5).Floor;
    assert (0.0 + 0.5).Floor == 0 && (50.0 + 0.5).Floor == 50 && (100.0 + 0.5).Floor == 100;
  }

  /** Half the weight scored is enough for an overall score, and less, but for rounding, is not. */
  lemma HalfTheWeightIsEnough(dims: seq<Dimension>, scores: seq<Option<int>>, cw: CategoryWeights)
    requires |scores| == |dims|
    ensures |Weights(dims, cw)| == |dims|
    ensures var scored := Total(Scored(Weights(dims, cw), scores));
            && (scored >= 0.5 ==> Overall(Weights(dims, cw), scores).Some?)
            && (scored < 0.4999 ==> Overall(Weights(dims, cw), scores).None?)
  {
    var scored := Total(Scored(Weights(dims, cw), scores));
    if scored >= 0.5 { assert ((scored + EPSILON) * 10000.0 + 0.5).Floor >= 5000; }
    if scored < 0.4999 { assert ((scored + EPSILON) * 10000.0 + 0.5).Floor < 5000; }
  }
}
