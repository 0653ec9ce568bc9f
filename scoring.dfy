/**
 * The scoring engine of the Next.js prediction route (`makePrediction`):
 * ten fixed threshold rules add fixed weights to a risk score, the score
 * decides the label, and a clamped linear function of the score gives the
 * confidence percentage and the two class probabilities.
 */
module Scoring {
  import opened JsValues

  /** One rule of the engine: `feature > threshold` adds `weight` to the risk score. */
  datatype Rule = Rule(feature: string, threshold: real, weight: real)

  /** The ten rules, in the order the route applies them. */
  const ScoreRules: seq<Rule> := [
    Rule("radius_mean", 15.0, 2.0),
    Rule("texture_mean", 20.0, 1.5),
    Rule("perimeter_mean", 100.0, 2.0),
    Rule("area_mean", 800.0, 2.5),
    Rule("smoothness_mean", 0.12, 1.0),
    Rule("compactness_mean", 0.15, 1.5),
    Rule("concavity_mean", 0.15, 2.0),
    Rule("concave_points_mean", 0.08, 1.5),
    Rule("symmetry_mean", 0.2, 1.0),
    Rule("fractal_dimension_mean", 0.07, 1.0)
  ]

  /**
   * `measurements.<feature> > threshold` on the numeric dictionary: an absent
   * key reads as `undefined` and a NaN value compares false, so neither fires.
   */
  predicate Exceeds(m: map<string, Num>, feature: string, threshold: real)
  {
    feature in m && GreaterThan(m[feature], threshold)
  }

  predicate Fires(rule: Rule, m: map<string, Num>)
  {
    Exceeds(m, rule.feature, rule.threshold)
  }

  function Contribution(rule: Rule, m: map<string, Num>): real
  {
    if Fires(rule, m) then rule.weight else 0.0
  }

  /** The sum of the contributions of the first `k` rules. */
  function ScoreUpTo(rules: seq<Rule>, m: map<string, Num>, k: nat): real
    requires k <= |rules|
  {
    if k == 0 then 0.0 else ScoreUpTo(rules, m, k - 1) + Contribution(rules[k - 1], m)
  }

  /** The sum of the weights of the first `k` rules: the score when all of them fire. */
  function WeightUpTo(rules: seq<Rule>, k: nat): real
    requires k <= |rules|
  {
    if k == 0 then 0.0 else WeightUpTo(rules, k - 1) + rules[k - 1].weight
  }

  /** Every weight is a non-negative multiple of one half. */
  predicate HalfStepWeights(rules: seq<Rule>)
  {
    forall i :: 0 <= i < |rules| ==> rules[i].weight >= 0.0 && IsWhole(2.0 * rules[i].weight)
  }

  predicate DistinctFeatures(rules: seq<Rule>)
  {
    forall i, j :: 0 <= i < j < |rules| ==> rules[i].feature != rules[j].feature
  }

  lemma WholeSum(a: real, b: real)
    requires IsWhole(a) && IsWhole(b)
    ensures IsWhole(a + b)
  {
    var n := a.Floor + b.Floor;
    assert a + b == n as real;
  }

  /** A partial score lies between 0 and the partial weight total and is a multiple of one half. */
  lemma {:induction false} ScoreBounds(rules: seq<Rule>, m: map<string, Num>, k: nat)
    requires k <= |rules| && HalfStepWeights(rules)
    ensures 0.0 <= ScoreUpTo(rules, m, k) <= WeightUpTo(rules, k)
    ensures IsWhole(2.0 * ScoreUpTo(rules, m, k))
  {
    if k > 0 {
      ScoreBounds(rules, m, k - 1);
      var c := Contribution(rules[k - 1], m);
      assert IsWhole(2.0 * c);
      WholeSum(2.0 * ScoreUpTo(rules, m, k - 1), 2.0 * c);
      assert 2.0 * ScoreUpTo(rules, m, k) == 2.0 * ScoreUpTo(rules, m, k - 1) + 2.0 * c;
    }
  }

  /**
   * Two dictionaries on which every rule but the `j`-th fires alike have scores
   * that differ by exactly the difference of the `j`-th rule's contributions.
   */
  lemma {:induction false} ScoreDiffersOnlyAt(rules: seq<Rule>, m: map<string, Num>, m': map<string, Num>, j: nat, k: nat)
    requires k <= |rules|
    requires forall i :: 0 <= i < k && i != j ==> (Fires(rules[i], m) <==> Fires(rules[i], m'))
    ensures ScoreUpTo(rules, m', k) - ScoreUpTo(rules, m, k)
         == if j < k then Contribution(rules[j], m') - Contribution(rules[j], m) else 0.0
  {
    if k > 0 {
      ScoreDiffersOnlyAt(rules, m, m', j, k - 1);
    }
  }

  /** If every rule that fires on `m` also fires on `m'`, the score of `m'` is at least that of `m`. */
  lemma {:induction false} ScoreMonotone(rules: seq<Rule>, m: map<string, Num>, m': map<string, Num>, k: nat)
    requires k <= |rules| && HalfStepWeights(rules)
    requires forall i :: 0 <= i < k ==> Fires(rules[i], m) ==> Fires(rules[i], m')
    ensures ScoreUpTo(rules, m, k) <= ScoreUpTo(rules, m', k)
  {
    if k > 0 {
      ScoreMonotone(rules, m, m', k - 1);
    }
  }

  lemma ScoreRulesWellFormed()
    ensures |ScoreRules| == 10
    ensures HalfStepWeights(ScoreRules) && DistinctFeatures(ScoreRules)
    ensures WeightUpTo(ScoreRules, 10) == 16.0
  {
    assert WeightUpTo(ScoreRules, 5) == 9.0 by {
      assert WeightUpTo(ScoreRules, 1) == 2.0;
      assert WeightUpTo(ScoreRules, 2) == 3.5;
      assert WeightUpTo(ScoreRules, 3) == 5.5;
      assert WeightUpTo(ScoreRules, 4) == 8.0;
    }
    assert WeightUpTo(ScoreRules, 6) == 10.5;
    assert WeightUpTo(ScoreRules, 7) == 12.5;
    assert WeightUpTo(ScoreRules, 8) == 14.0;
    assert WeightUpTo(ScoreRules, 9) == 15.0;
    forall i | 0 <= i < |ScoreRules|
      ensures IsWhole(2.0 * ScoreRules[i].weight)
    {
      var w := ScoreRules[i].weight;
      assert 2.0 * w == (2.0 * w).Floor as real by {
        assert w in {2.0, 1.5, 2.5, 1.0};
        if w == 1.5 { assert 2.0 * w == 3 as real; }
        else if w == 2.5 { assert 2.0 * w == 5 as real; }
        else if w == 2.0 { assert 2.0 * w == 4 as real; }
        else { assert 2.0 * w == 2 as real; }
      }
    }
  }

  /**
   * The risk score of a numeric measurement dictionary: the sum of the
   * weights of the rules whose feature strictly exceeds its threshold.
   */
  function RiskScore(m: map<string, Num>): (score: real)
    ensures 0.0 <= score <= 16.0
    ensures IsWhole(2.0 * score)
  {
    assert HalfStepWeights(ScoreRules) && WeightUpTo(ScoreRules, 10) == 16.0 by {
      ScoreRulesWellFormed();
    }
    assert 0.0 <= ScoreUpTo(ScoreRules, m, 10) <= 16.0 && IsWhole(2.0 * ScoreUpTo(ScoreRules, m, 10)) by {
      ScoreBounds(ScoreRules, m, 10);
    }
    ScoreUpTo(ScoreRules, m, |ScoreRules|)
  }

  /** Raising one finite feature value never lowers the risk score. */
  lemma RaisingFeatureNeverLowersScore(m: map<string, Num>, feature: string, x: real, y: real)
    requires feature in m && m[feature] == Finite(x) && x <= y
    ensures RiskScore(m) <= RiskScore(m[feature := Finite(y)])
  {
    ScoreRulesWellFormed();
    ScoreMonotone(ScoreRules, m, m[feature := Finite(y)], 10);
  }

  /**
   * Moving the `j`-th rule's feature from a value that does not exceed its
   * threshold (or from absent) to one that does adds exactly that rule's weight.
   */
  lemma CrossingThresholdAddsWeight(m: map<string, Num>, j: nat, y: real)
    requires j < |ScoreRules|
    requires !Fires(ScoreRules[j], m) && y > ScoreRules[j].threshold
    ensures RiskScore(m[ScoreRules[j].feature := Finite(y)]) == RiskScore(m) + ScoreRules[j].weight
  {
    ScoreRulesWellFormed();
    var m' := m[ScoreRules[j].feature := Finite(y)];
    ScoreDiffersOnlyAt(ScoreRules, m, m', j, 10);
  }

  /** A value equal to its threshold contributes nothing: it scores as if the feature were absent. */
  lemma ValueAtThresholdAddsNothing(m: map<string, Num>, j: nat)
    requires j < |ScoreRules|
    ensures RiskScore(m[ScoreRules[j].feature := Finite(ScoreRules[j].threshold)])
         == RiskScore(m - {ScoreRules[j].feature})
  {
    ScoreRulesWellFormed();
    var f := ScoreRules[j].feature;
    ScoreDiffersOnlyAt(ScoreRules, m - {f}, m[f := Finite(ScoreRules[j].threshold)], j, 10);
  }

  /** The result of `makePrediction`: label "M" or "B", rounded confidence, raw score, class probabilities. */
  datatype Prediction = Prediction(prediction: string, confidence: int, riskScore: real, malignant: real, benign: real)

  /** The unrounded confidence percentage: `75 + 2 * score` clamped to [75, 95]. */
  function Confidence(score: real): (c: real)
    ensures 75.0 <= c <= 95.0
    ensures score >= 0.0 ==> c == Min(95.0, 75.0 + 2.0 * score)
  {
    Min(95.0, Max(75.0, 75.0 + score * 2.0))
  }

  lemma ConfidenceMonotone(s: real, s': real)
    requires s <= s'
    ensures Confidence(s) <= Confidence(s')
  {
  }

  /** On a score that is a multiple of one half the confidence is a whole number, so rounding keeps it. */
  lemma ConfidenceIsWhole(score: real)
    requires IsWhole(2.0 * score)
    ensures IsWhole(Confidence(score))
    ensures JsRound(Confidence(score)) as real == Confidence(score)
  {
    var n := (2.0 * score).Floor;
    var raw := 75.0 + score * 2.0;
    assert raw == (75 + n) as real;
    assert IsWhole(raw);
    RoundWhole(Confidence(score));
  }

  /**
   * The label threshold splits the confidence range: a malignant score is at
   * least 6.5 and gives a confidence of at least 88; a benign one gives at most 87.
   */
  lemma LabelSeparatesConfidence(score: real)
    requires 0.0 <= score && IsWhole(2.0 * score)
    ensures score > 6.0 ==> score >= 6.5 && Confidence(score) >= 88.0
    ensures score <= 6.0 ==> Confidence(score) <= 87.0
  {
    var n := (2.0 * score).Floor;
    assert 2.0 * score == n as real;
    if score > 6.0 {
      assert n > 12;
    }
  }

  /** A benign result has a rounded confidence below 85 exactly when the score is below 5. */
  lemma LowConfidenceIffScoreBelowFive(score: real)
    requires 0.0 <= score <= 6.0 && IsWhole(2.0 * score)
    ensures JsRound(Confidence(score)) < 85 <==> score < 5.0
  {
    ConfidenceIsWhole(score);
  }

  /** The rule table entry by entry, as the route's ten `if` statements spell it out. */
  lemma ScoreRulesEntries()
    ensures ScoreRules[0] == Rule("radius_mean", 15.0, 2.0)
    ensures ScoreRules[1] == Rule("texture_mean", 20.0, 1.5)
    ensures ScoreRules[2] == Rule("perimeter_mean", 100.0, 2.0)
    ensures ScoreRules[3] == Rule("area_mean", 800.0, 2.5)
    ensures ScoreRules[4] == Rule("smoothness_mean", 0.12, 1.0)
    ensures ScoreRules[5] == Rule("compactness_mean", 0.15, 1.5)
    ensures ScoreRules[6] == Rule("concavity_mean", 0.15, 2.0)
    ensures ScoreRules[7] == Rule("concave_points_mean", 0.08, 1.5)
    ensures ScoreRules[8] == Rule("symmetry_mean", 0.2, 1.0)
    ensures ScoreRules[9] == Rule("fractal_dimension_mean", 0.07, 1.0)
  {
  }

  /**
   * What `makePrediction` derives from the final score: the label ("M" above 6),
   * the rounded confidence, and the probabilities, the predicted class getting
   * confidence / 100 and the other class the rest.
   */
  function Outcome(riskScore: real): (p: Prediction)
    ensures p.riskScore == riskScore
    ensures p.prediction == (if riskScore > 6.0 then "M" else "B")
    ensures IsWhole(2.0 * riskScore) ==> p.confidence as real == Confidence(riskScore)
    ensures p.prediction == "M" ==>
              p.malignant == Confidence(riskScore) / 100.0 && p.benign == (100.0 - Confidence(riskScore)) / 100.0
    ensures p.prediction == "B" ==>
              p.benign == Confidence(riskScore) / 100.0 && p.malignant == (100.0 - Confidence(riskScore)) / 100.0
    ensures p.malignant + p.benign == 1.0
  {
    var isMalignant := riskScore > 6.0;
    var confidence := Min(95.0, Max(75.0, 75.0 + riskScore * 2.0));
    assert IsWhole(2.0 * riskScore) ==> JsRound(confidence) as real == confidence by {
      if IsWhole(2.0 * riskScore) {
        ConfidenceIsWhole(riskScore);
      }
    }
    Prediction(
      if isMalignant then "M" else "B",
      JsRound(confidence),
      riskScore,
      if isMalignant then confidence / 100.0 else (100.0 - confidence) / 100.0,
      if isMalignant then (100.0 - confidence) / 100.0 else confidence / 100.0)
  }

  /** When each of the first `k` rules fires, the partial score is the partial weight total. */
  lemma {:induction false} AllFireScoresTotal(rules: seq<Rule>, m: map<string, Num>, k: nat)
    requires k <= |rules|
    requires forall i :: 0 <= i < k ==> Fires(rules[i], m)
    ensures ScoreUpTo(rules, m, k) == WeightUpTo(rules, k)
  {
    if k > 0 {
      AllFireScoresTotal(rules, m, k - 1);
    }
  }

  /** When none of the first `k` rules fires, the partial score is 0. */
  lemma {:induction false} NoneFireScoresZero(rules: seq<Rule>, m: map<string, Num>, k: nat)
    requires k <= |rules|
    requires forall i :: 0 <= i < k ==> !Fires(rules[i], m)
    ensures ScoreUpTo(rules, m, k) == 0.0
  {
    if k > 0 {
      NoneFireScoresZero(rules, m, k - 1);
    }
  }

  /**
   * Every feature above its threshold gives the highest score, 16, the label
   * "M", the clamped confidence 95 and the probabilities 0.95 and 0.05.
   */
  lemma EveryFeatureHighIsMaximal(m: map<string, Num>)
    requires forall i :: 0 <= i < |ScoreRules| ==> Fires(ScoreRules[i], m)
    ensures RiskScore(m) == 16.0
    ensures Outcome(RiskScore(m)) == Prediction("M", 95, 16.0, 0.95, 0.05)
  {
    ScoreRulesWellFormed();
    AllFireScoresTotal(ScoreRules, m, 10);
    RoundWhole(95.0);
  }

  /**
   * No feature above its threshold gives the score 0, the label "B", the
   * confidence 75 and the probabilities 0.25 and 0.75.
   */
  lemma NoFeatureHighIsMinimal(m: map<string, Num>)
    requires forall i :: 0 <= i < |ScoreRules| ==> !Fires(ScoreRules[i], m)
    ensures RiskScore(m) == 0.0
    ensures Outcome(RiskScore(m)) == Prediction("B", 75, 0.0, 0.25, 0.75)
  {
    ScoreRulesWellFormed();
    NoneFireScoresZero(ScoreRules, m, 10);
    RoundWhole(75.0);
  }

  /**
   * The first half of `makePrediction`: the ten rules are applied one after
   * the other to a mutable score that starts at 0.
   */
  method AccumulateRiskScore(m: map<string, Num>) returns (riskScore: real)
    ensures riskScore == RiskScore(m)
    ensures 0.0 <= riskScore <= 16.0 && IsWhole(2.0 * riskScore)
  {
    ScoreRulesEntries();
    riskScore := 0.0;
    if Exceeds(m, "radius_mean", 15.0) { riskScore := riskScore + 2.0; }
    assert riskScore == ScoreUpTo(ScoreRules, m, 1);
    if Exceeds(m, "texture_mean", 20.0) { riskScore := riskScore + 1.5; }
    assert riskScore == ScoreUpTo(ScoreRules, m, 2);
    if Exceeds(m, "perimeter_mean", 100.0) { riskScore := riskScore + 2.0; }
    assert riskScore == ScoreUpTo(ScoreRules, m, 3);
    if Exceeds(m, "area_mean", 800.0) { riskScore := riskScore + 2.5; }
    assert riskScore == ScoreUpTo(ScoreRules, m, 4);
    if Exceeds(m, "smoothness_mean", 0.12) { riskScore := riskScore + 1.0; }
    assert riskScore == ScoreUpTo(ScoreRules, m, 5);
    if Exceeds(m, "compactness_mean", 0.15) { riskScore := riskScore + 1.5; }
    assert riskScore == ScoreUpTo(ScoreRules, m, 6);
    if Exceeds(m, "concavity_mean", 0.15) { riskScore := riskScore + 2.0; }
    assert riskScore == ScoreUpTo(ScoreRules, m, 7);
    if Exceeds(m, "concave_points_mean", 0.08) { riskScore := riskScore + 1.5; }
    assert riskScore == ScoreUpTo(ScoreRules, m, 8);
    if Exceeds(m, "symmetry_mean", 0.2) { riskScore := riskScore + 1.0; }
    assert riskScore == ScoreUpTo(ScoreRules, m, 9);
    if Exceeds(m, "fractal_dimension_mean", 0.07) { riskScore := riskScore + 1.0; }
    assert riskScore == ScoreUpTo(ScoreRules, m, 10);
  }

  /**
   * `makePrediction`: accumulate the risk score, then derive the label,
   * the confidence and the probabilities from it.
   */
  method MakePrediction(m: map<string, Num>) returns (p: Prediction)
    ensures p.riskScore == RiskScore(m)
    ensures p.prediction == (if p.riskScore > 6.0 then "M" else "B")
    ensures p.confidence as real == Confidence(p.riskScore)
    ensures 75 <= p.confidence <= 95
    ensures p.prediction == "M" ==>
              p.malignant == p.confidence as real / 100.0 && p.benign == (100 - p.confidence) as real / 100.0
    ensures p.prediction == "B" ==>
              p.benign == p.confidence as real / 100.0 && p.malignant == (100 - p.confidence) as real / 100.0
    ensures p.malignant + p.benign == 1.0
  {
    var riskScore := AccumulateRiskScore(m);
    p := Outcome(riskScore);
  }
}
