/** What the overall score and the weights amount to: a weighted mean, by shares in proportion. */
module ScoringMeans {
  import opened Wrappers
  import opened Scoring

  // ---- The overall score -------------------------------------------------------------------------

  /** A score as it counts: from 0 to 100. */
  function InRange(score: int): real { if score < 0 then 0.0 else if score > 100 then 100.0 else score as real }

  /** The weight of the scored dimensions among the first `n`. */
  function WeightScored(weights: seq<real>, scores: seq<Option<int>>, n: nat): real
    requires n <= |weights| == |scores|
  {
    if n == 0 then 0.0 else WeightScored(weights, scores, n - 1) + if scores[n - 1].Some? then weights[n - 1] else 0.0
  }

  /** How far the scored dimensions among the first `n` lie above `x`, each times its weight. */
  function Above(weights: seq<real>, scores: seq<Option<int>>, x: real, n: nat): real
    requires n <= |weights| == |scores|
  {
    if n == 0 then 0.0
    else Above(weights, scores, x, n - 1) + if scores[n - 1].Some? then Times(weights[n - 1], InRange(scores[n - 1].value) - x) else 0.0
  }

  lemma TimesDifference(w: real, a: real, x: real)
    ensures Times(w, a - x) == Times(w, a) - Times(x, w)
  {
  }

  lemma {:induction false} AboveIs(weights: seq<real>, scores: seq<Option<int>>, x: real, n: nat)
    requires n <= |weights| == |scores|
    ensures WeightScored(weights, scores, n) == Sum(Scored(weights, scores), n)
    ensures Above(weights, scores, x, n) == Sum(Weighted(weights, scores), n) - Times(x, WeightScored(weights, scores, n))
  {
    hide Times;
    if n == 0 {
      TimesZeroOne(x);
    } else {
      AboveIs(weights, scores, x, n - 1);
      Distribute(x, WeightScored(weights, scores, n - 1), if scores[n - 1].Some? then weights[n - 1] else 0.0);
      if scores[n - 1].Some? {
        TimesDifference(weights[n - 1], InRange(scores[n - 1].value), x);
      } else {
        TimesZeroOne(x);
      }
    }
  }

  lemma RoundedMean(sum: real, t: real)
    requires t > 0.0
    ensures var x := Round(Over(sum, t)) as real;
            Times(-0.5, t) <= sum - Times(x, t) < Times(0.5, t)
  {
    assert sum == Times(Over(sum, t), t);
    hide Over;
    NearMultiple(Over(sum, t), Round(Over(sum, t)) as real, t);
  }

  lemma NearMultiple(m: real, x: real, t: real)
    requires t > 0.0 && -0.5 <= m - x < 0.5
    ensures Times(-0.5, t) <= Times(m, t) - Times(x, t) < Times(0.5, t)
  {
    hide Times;
    Difference(m, x, t);
    Lower(m - x, -0.5, t);
    Higher(0.5, m - x, t);
  }

  lemma Difference(a: real, b: real, t: real)
    ensures Times(a - b, t) == Times(a, t) - Times(b, t)
  {
  }

  lemma Lower(a: real, b: real, t: real)
    requires t > 0.0 && a >= b
    ensures Times(a, t) >= Times(b, t)
  {
    Difference(a, b, t);
    ProductNonNegative(a - b, t);
  }

  lemma Higher(a: real, b: real, t: real)
    requires t > 0.0 && a > b
    ensures Times(a, t) > Times(b, t)
  {
    Difference(a, b, t);
    assert Times(a - b, t) > 0.0;
  }

  /** The scores balance around the overall one, by weight and up to rounding to the nearest whole score,
      halves up: what some lie above it makes up for what others lie below. */
  lemma OverallIsMean(dims: seq<Dimension>, scores: seq<Option<int>>, cw: CategoryWeights)
    requires |scores| == |dims|
    ensures |Weights(dims, cw)| == |dims|
    ensures var weights, overall := Weights(dims, cw), Overall(Weights(dims, cw), scores);
            overall.Some? ==>
              var half := Times(0.5, WeightScored(weights, scores, |dims|));
              -half <= Above(weights, scores, overall.value as real, |dims|) < half
  {
    hide Times, Over, Round4;
    WeightsAreShares(dims, cw);
    var weights, overall := Weights(dims, cw), Overall(Weights(dims, cw), scores);
    if overall.Some? {
      var t := WeightScored(weights, scores, |dims|);
      AboveIs(weights, scores, overall.value as real, |dims|);
      RoundedMean(Total(Weighted(weights, scores)), t);
      NegativeHalf(t);
    }
  }

  lemma NegativeHalf(t: real)
    ensures Times(-0.5, t) == -Times(0.5, t)
  {
  }

  /** There is an overall score exactly when half of the weight is scored, up to the rounding of that weight
      to four decimals. */
  lemma OverallIff(dims: seq<Dimension>, scores: seq<Option<int>>, cw: CategoryWeights)
    requires |scores| == |dims|
    ensures |Weights(dims, cw)| == |dims|
    ensures Overall(Weights(dims, cw), scores).Some? <==> WeightScored(Weights(dims, cw), scores, |dims|) + EPSILON >= 0.49995
  {
    WeightsAreShares(dims, cw);
    var t := WeightScored(Weights(dims, cw), scores, |dims|);
    AboveIs(Weights(dims, cw), scores, 0.0, |dims|);
    hide WeightScored, Above;
    assert ((t + EPSILON) * 10000.0 + 0.5).Floor >= 5000 <==> t + EPSILON >= 0.49995;
  }

  // ---- Weights -----------------------------------------------------------------------------------

  lemma CrossQuotients(a: real, b: real, x: real, y: real, t: real)
    requires t > 0.0 && Times(a, y) == Times(b, x)
    ensures Times(Over(a, t), y) == Times(Over(b, t), x)
  {
    assert a / t * y == (a * y) / t && b / t * x == (b * x) / t;
  }

  lemma CrossProducts(k: real, a: real, b: real, x: real, y: real)
    requires Times(a, y) == Times(b, x)
    ensures Times(Times(k, a), y) == Times(Times(k, b), x)
  {
    assert k * a * y == k * (a * y) && k * b * x == k * (b * x);
  }

  /** Two dimensions have weights in proportion to what the blueprint gives them. */
  ghost predicate InProportion(dims: seq<Dimension>, xs: seq<real>, i: nat, j: nat)
    requires i < |dims| == |xs| && j < |dims|
  {
    Times(xs[i], Pos(dims[j].weight)) == Times(xs[j], Pos(dims[i].weight))
  }

  lemma InsideZero(dims: seq<Dimension>, i: nat)
    requires i < |dims| && Inside(dims, dims[i].category) <= 0.0
    ensures Pos(dims[i].weight) == 0.0
  {
    SumNonNegative(Of(dims, ByWeight(dims), dims[i].category), |dims|);
    assert Of(dims, ByWeight(dims), dims[i].category)[i] == Pos(dims[i].weight);
  }

  lemma SharesInProportion(dims: seq<Dimension>, i: nat, j: nat)
    requires i < |dims| && j < |dims| && dims[i].category == dims[j].category
    ensures Times(ShareAt(dims, i), Pos(dims[j].weight)) == Times(ShareAt(dims, j), Pos(dims[i].weight))
    ensures Pos(dims[i].weight) == Pos(dims[j].weight) ==> ShareAt(dims, i) == ShareAt(dims, j)
  {
    hide Times, Over;
    var inside := Inside(dims, dims[i].category);
    if inside > 0.0 {
      Commutes(Pos(dims[i].weight), Pos(dims[j].weight));
      CrossQuotients(Pos(dims[i].weight), Pos(dims[j].weight), Pos(dims[i].weight), Pos(dims[j].weight), inside);
    } else {
      InsideZero(dims, i);
      InsideZero(dims, j);
    }
  }

  lemma RawInProportion(dims: seq<Dimension>, cw: CategoryWeights, i: nat, j: nat)
    requires i < |dims| && j < |dims|
    requires dims[i].category == dims[j].category || Total(ByCategory(dims, cw)) == 0.0
    ensures |RawWeights(dims, cw)| == |dims| && InProportion(dims, RawWeights(dims, cw), i, j)
    ensures Pos(dims[i].weight) == Pos(dims[j].weight) ==> RawWeights(dims, cw)[i] == RawWeights(dims, cw)[j]
  {
    hide Times, Over;
    Commutes(Pos(dims[i].weight), Pos(dims[j].weight));
    if Total(ByCategory(dims, cw)) != 0.0 {
      SharesInProportion(dims, i, j);
      CrossProducts(CategoryWeight(cw, dims[i].category), ShareAt(dims, i), ShareAt(dims, j), Pos(dims[i].weight), Pos(dims[j].weight));
    } else if Total(ByWeight(dims)) == 0.0 {
      SumNonNegative(ByWeight(dims), |dims|);
      assert ByWeight(dims)[i] == 0.0 && ByWeight(dims)[j] == 0.0;
    }
  }

  /** No covered category is weighted exactly when the weights by category come to nothing. */
  lemma UnweightedIff(dims: seq<Dimension>, cw: CategoryWeights)
    ensures Total(ByCategory(dims, cw)) == 0.0 <==> forall d <- dims :: CategoryWeight(cw, d.category) == 0.0
  {
    hide Times, Over;
    forall i | 0 <= i < |dims| ensures ByCategory(dims, cw)[i] >= 0.0 {
      ShareNonNegative(dims[i], Inside(dims, dims[i].category), Members(dims, dims[i].category));
      ProductNonNegative(CategoryWeight(cw, dims[i].category), ShareAt(dims, i));
    }
    SumNonNegative(ByCategory(dims, cw), |dims|);
    if Total(ByCategory(dims, cw)) == 0.0 {
      forall d | d in dims ensures CategoryWeight(cw, d.category) == 0.0 { CoveredWeight(dims, cw, d); }
    } else {
      SomeWeight(dims, cw, |dims|);
    }
  }

  lemma CoveredWeight(dims: seq<Dimension>, cw: CategoryWeights, d: Dimension)
    requires d in dims && forall i :: 0 <= i < |dims| ==> ByCategory(dims, cw)[i] == 0.0
    ensures CategoryWeight(cw, d.category) == 0.0
  {
    hide Times, Over;
    var i :| 0 <= i < |dims| && dims[i] == d;
    var ones := Of(dims, Equal(dims), d.category);
    SumNonNegative(ones, |dims|);
    assert ones[i] == 1.0;
    CategoryGetsItsWeight(dims, cw, d.category);
    SumNonNegative(Of(dims, ByCategory(dims, cw), d.category), |dims|);
    AllZero(Of(dims, ByCategory(dims, cw), d.category), |dims|);
  }

  lemma AllZero(xs: seq<real>, n: nat)
    requires n <= |xs| && forall i :: 0 <= i < |xs| ==> xs[i] == 0.0
    ensures Sum(xs, n) == 0.0
  {
  }

  lemma {:induction false} SomeWeight(dims: seq<Dimension>, cw: CategoryWeights, n: nat)
    requires n <= |dims| && Sum(ByCategory(dims, cw), n) != 0.0
    ensures exists d <- dims :: CategoryWeight(cw, d.category) != 0.0
  {
    hide Times, Over;
    if CategoryWeight(cw, dims[n - 1].category) == 0.0 {
      Commutes(0.0, ShareAt(dims, n - 1));
      TimesZeroOne(ShareAt(dims, n - 1));
      SomeWeight(dims, cw, n - 1);
    } else {
      assert dims[n - 1] in dims;
    }
  }

  /** Inside a category, and everywhere when no covered category is weighted, weights are in proportion to
      the blueprint's; where the blueprint weighs alike, they are equal. */
  lemma WeightsInProportion(dims: seq<Dimension>, cw: CategoryWeights, i: nat, j: nat)
    requires i < |dims| && j < |dims|
    requires dims[i].category == dims[j].category || forall d <- dims :: Given(cw, d.category) == 0.0
    ensures |Weights(dims, cw)| == |dims| && InProportion(dims, Weights(dims, cw), i, j)
    ensures Pos(dims[i].weight) == Pos(dims[j].weight) ==> Weights(dims, cw)[i] == Weights(dims, cw)[j]
  {
    hide Times, Over;
    UnweightedIff(dims, cw);
    RawInProportion(dims, cw, i, j);
    RawNonNegative(dims, cw);
    var raw := RawWeights(dims, cw);
    CrossQuotients(raw[i], raw[j], Pos(dims[i].weight), Pos(dims[j].weight), Total(raw));
  }

  /** What a template gives a category: nothing when it does not name it, or gives it less than nothing. */
  function Given(cw: CategoryWeights, c: Category): real { if c in cw && cw[c] > 0.0 then cw[c] else 0.0 }

  lemma CrossRatio(a: real, b: real, t: real)
    requires t > 0.0
    ensures Times(Over(a, t), b) == Times(Over(b, t), a)
  {
    assert a / t * b == (a * b) / t && b / t * a == (b * a) / t;
  }

  /** When a covered category is weighted at all, covered categories count in proportion to what the template
      gives them; as all weights together are one, this says what each counts for. */
  lemma CategoriesInProportion(dims: seq<Dimension>, cw: CategoryWeights, a: nat, b: nat)
    requires a < |dims| && b < |dims| && exists d <- dims :: Given(cw, d.category) > 0.0
    ensures |Weights(dims, cw)| == |dims|
    ensures var w, c, d := Weights(dims, cw), dims[a].category, dims[b].category;
            Times(Total(Of(dims, w, c)), Given(cw, d)) == Times(Total(Of(dims, w, d)), Given(cw, c))
  {
    hide Times, Over, Given, CategoryWeight, Weights, Of, Total, ByCategory, Members, RawWeights;
    SomethingWeighted(dims, cw);
    var c, d := dims[a].category, dims[b].category;
    Covered(dims, a);
    Covered(dims, b);
    CategoryCountsForItsWeight(dims, cw, c);
    CategoryCountsForItsWeight(dims, cw, d);
    GivenIs(cw, c);
    GivenIs(cw, d);
    CrossRatio(Given(cw, c), Given(cw, d), Total(ByCategory(dims, cw)));
  }

  lemma GivenIs(cw: CategoryWeights, c: Category)
    ensures CategoryWeight(cw, c) == Given(cw, c)
  {
  }

  lemma SomethingWeighted(dims: seq<Dimension>, cw: CategoryWeights)
    requires exists d <- dims :: Given(cw, d.category) > 0.0
    ensures Total(ByCategory(dims, cw)) > 0.0
  {
    hide Times, Over, Given, CategoryWeight, Of;
    UnweightedIff(dims, cw);
    RawNonNegative(dims, cw);
    var d :| d in dims && Given(cw, d.category) > 0.0;
    GivenIs(cw, d.category);
  }

  lemma Covered(dims: seq<Dimension>, i: nat)
    requires i < |dims|
    ensures Members(dims, dims[i].category) > 0.0
  {
    var ones := Of(dims, Equal(dims), dims[i].category);
    SumNonNegative(ones, |dims|);
    assert ones[i] == 1.0;
  }

  /** The evidence score is 25 points for each unit of strength around 50, to the nearest whole score. */
  lemma StrengthIsLinear(x: real)
    ensures var s := if x < -2.0 then -2.0 else if x > 2.0 then 2.0 else x;
            25.0 * s + 49.5 < StrengthScore(x) as real <= 25.0 * s + 50.5
  {
  }

  /** Without evidence there is no score, whatever the AI says; with evidence there always is one, and where
      the AI gives none it is the evidence's own. */
  lemma ScoreIffEvidence(ai: AiScore, count: nat, meanStrength: Option<real>)
    ensures GuardScore(ai, count, meanStrength).score.Some? <==> count > 0 && meanStrength.Some?
    ensures count > 0 && meanStrength.Some? && !ai.Score? ==>
              var g := GuardScore(ai, count, meanStrength); g.fallback && g.score == Some(StrengthScore(meanStrength.value))
    ensures ai.Score? ==> !GuardScore(ai, count, meanStrength).fallback
  {
  }
}
