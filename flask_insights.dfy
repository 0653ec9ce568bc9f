/**
 * `generate_risk_factors` and `generate_recommendations` of the Flask
 * server: a second, independent version of the route's text derivations,
 * with its own threshold table and its own wording.
 */
module FlaskInsights {
  import opened PyStrings
  import opened FlaskPredict
  import Recommendations

  /** One entry of the server's threshold dictionary, in insertion order. */
  datatype Threshold = Threshold(feature: string, threshold: real)

  /**
   * The dictionary's keys are the scikit-learn feature names, each of them
   * "mean " followed by the name of a measurement.
   */
  const FlaskThresholds: seq<Threshold> := [
    Threshold("mean " + "radius", 14.0),
    Threshold("mean " + "texture", 19.0),
    Threshold("mean " + "perimeter", 92.0),
    Threshold("mean " + "area", 654.0),
    Threshold("mean " + "smoothness", 0.096),
    Threshold("mean " + "compactness", 0.104),
    Threshold("mean " + "concavity", 0.089),
    Threshold("mean " + "concave points", 0.048),
    Threshold("mean " + "symmetry", 0.181),
    Threshold("mean " + "fractal dimension", 0.063)
  ]

  /** The measurement named by each entry, in the same order. */
  const FlaskWords: seq<string> := [
    "radius",
    "texture",
    "perimeter",
    "area",
    "smoothness",
    "compactness",
    "concavity",
    "concave points",
    "symmetry",
    "fractal dimension"
  ]

  const NormalFindings: seq<string> :=
    ["Normal tissue characteristics", "Regular cell structure", "Low risk indicators"]

  const IrregularFindings: seq<string> := ["Some irregular patterns detected"]

  /**
   * `f"Elevated {feature.replace('mean ', '')}"`: always "Elevated " first, and
   * a feature name without "mean " in it is quoted unchanged.
   */
  function ElevatedMessage(feature: string): (message: string)
    ensures |message| >= 9 && message[..9] == "Elevated "
    ensures !Contains(feature, "mean ") ==> message == "Elevated " + feature
  {
    assert !Contains(feature, "mean ") ==> Replace(feature, "mean ", "") == feature by {
      if !Contains(feature, "mean ") {
        ReplaceWithoutOccurrence(feature, "mean ", "");
      }
    }
    "Elevated " + Replace(feature, "mean ", "")
  }

  /** The feature is in the dictionary and strictly above its threshold. */
  predicate Elevated(t: Threshold, m: map<string, real>)
  {
    t.feature in m && m[t.feature] > t.threshold
  }

  /** The messages of the first `k` entries that are elevated, in table order. */
  function ElevatedUpTo(table: seq<Threshold>, m: map<string, real>, k: nat): seq<string>
    requires k <= |table|
  {
    if k == 0 then []
    else ElevatedUpTo(table, m, k - 1) + (if Elevated(table[k - 1], m) then [ElevatedMessage(table[k - 1].feature)] else [])
  }

  predicate DistinctMessages(table: seq<Threshold>)
  {
    forall i, j :: 0 <= i < j < |table| ==> ElevatedMessage(table[i].feature) != ElevatedMessage(table[j].feature)
  }

  /** A message is reported exactly when its entry is among the first `k`, present and above its threshold. */
  lemma {:induction false} ElevatedMembership(table: seq<Threshold>, m: map<string, real>, k: nat, i: nat)
    requires k <= |table| && i < |table| && DistinctMessages(table)
    ensures ElevatedMessage(table[i].feature) in ElevatedUpTo(table, m, k) <==> i < k && Elevated(table[i], m)
  {
    if k > 0 {
      ElevatedMembership(table, m, k - 1, i);
    }
  }

  /** Every reported message starts with "Elevated ". */
  lemma {:induction false} ElevatedPrefix(table: seq<Threshold>, m: map<string, real>, k: nat)
    requires k <= |table|
    ensures forall s :: s in ElevatedUpTo(table, m, k) ==> |s| >= 9 && s[..9] == "Elevated "
  {
    if k > 0 {
      ElevatedPrefix(table, m, k - 1);
      var last := ElevatedMessage(table[k - 1].feature);
      assert last[..9] == "Elevated ";
    }
  }

  /** A feature named "mean " followed by a word without "mean " is reported as "Elevated " and the word. */
  lemma MessageOfMeanFeature(word: string)
    requires !Contains(word, "mean ")
    ensures ElevatedMessage("mean " + word) == "Elevated " + word
  {
    ReplaceLeading("mean ", word);
  }

  lemma WordsWithoutMean(k: nat)
    requires k < |FlaskWords|
    ensures !Contains(FlaskWords[k], "mean ")
  {
    if k == 0 {
      assert NoFirstLastMatch("radius", "mean ");
    } else if k == 1 {
      assert NoFirstLastMatch("texture", "mean ");
    } else if k == 2 {
      assert NoFirstLastMatch("perimeter", "mean ");
    } else if k == 3 {
      assert NoFirstLastMatch("area", "mean ");
    } else if k == 4 {
      assert NoFirstLastMatch("smoothness", "mean ");
    } else if k == 5 {
      assert NoFirstLastMatch("compactness", "mean ");
    } else if k == 6 {
      assert NoFirstLastMatch("concavity", "mean ");
    } else if k == 7 {
      assert NoFirstLastMatch("concave points", "mean ");
    } else if k == 8 {
      assert NoFirstLastMatch("symmetry", "mean ");
    } else {
      assert NoFirstLastMatch("fractal dimension", "mean ");
    }
    NoFirstLastMatchIsAbsence(FlaskWords[k], "mean ");
  }

  /** The message of the `k`-th entry names its measurement without the "mean " prefix. */
  lemma FlaskMessage(k: nat)
    requires k < |FlaskThresholds|
    ensures |FlaskWords| == |FlaskThresholds|
    ensures FlaskThresholds[k].feature == "mean " + FlaskWords[k]
    ensures ElevatedMessage(FlaskThresholds[k].feature) == "Elevated " + FlaskWords[k]
  {
    WordsWithoutMean(k);
    MessageOfMeanFeature(FlaskWords[k]);
  }

  lemma FlaskWordsDistinct()
    ensures forall i, j :: 0 <= i < j < |FlaskWords| ==> FlaskWords[i] != FlaskWords[j]
  {
  }

  /** Messages with the same "Elevated " prefix differ when the words after it differ. */
  lemma PrefixedDistinct(prefix: string, a: string, b: string)
    requires a != b
    ensures prefix + a != prefix + b
  {
    assert (prefix + a)[|prefix|..] == a;
    assert (prefix + b)[|prefix|..] == b;
  }

  /** The ten messages are pairwise different. */
  lemma FlaskMessagesDistinct()
    ensures DistinctMessages(FlaskThresholds)
  {
    FlaskWordsDistinct();
    forall i, j | 0 <= i < j < |FlaskThresholds|
      ensures ElevatedMessage(FlaskThresholds[i].feature) != ElevatedMessage(FlaskThresholds[j].feature)
    {
      FlaskMessage(i);
      FlaskMessage(j);
      PrefixedDistinct("Elevated ", FlaskWords[i], FlaskWords[j]);
    }
  }

  /**
   * `prediction_proba[1]` is read only when nothing is elevated, so only then
   * must there be a second class probability.
   */
  predicate BenignProbabilityReadable(m: map<string, real>, proba: seq<real>)
  {
    |proba| >= 2 || ElevatedUpTo(FlaskThresholds, m, |FlaskThresholds|) != []
  }

  /**
   * The risk factors for a dictionary and the class probabilities: the
   * elevated features, or, when none is, the normal findings if the benign
   * probability exceeds 0.7 and the irregular-pattern finding otherwise.
   */
  function FlaskRiskFactorsFor(m: map<string, real>, proba: seq<real>): (r: seq<string>)
    requires BenignProbabilityReadable(m, proba)
    ensures |r| > 0
  {
    var found := ElevatedUpTo(FlaskThresholds, m, |FlaskThresholds|);
    if found != [] then found
    else if proba[1] > 0.7 then NormalFindings
    else IrregularFindings
  }

  /** Each measurement is reported exactly when its feature is present and above its threshold. */
  lemma FlaskRiskFactorMessage(m: map<string, real>, proba: seq<real>, k: nat)
    requires BenignProbabilityReadable(m, proba) && k < |FlaskThresholds|
    ensures "Elevated " + FlaskWords[k] in FlaskRiskFactorsFor(m, proba) <==> Elevated(FlaskThresholds[k], m)
  {
    FlaskMessage(k);
    FlaskMessagesDistinct();
    ElevatedMembership(FlaskThresholds, m, |FlaskThresholds|, k);
    var found := ElevatedUpTo(FlaskThresholds, m, |FlaskThresholds|);
    if found == [] {
      var message := "Elevated " + FlaskWords[k];
      assert message[0] == 'E';
      assert message !in NormalFindings + IrregularFindings;
    }
  }

  /** Nothing is reported from the first `k` entries exactly when none of them is elevated. */
  lemma {:induction false} NothingElevated(table: seq<Threshold>, m: map<string, real>, k: nat)
    requires k <= |table|
    ensures ElevatedUpTo(table, m, k) == [] <==> forall i :: 0 <= i < k ==> !Elevated(table[i], m)
  {
    if k > 0 {
      NothingElevated(table, m, k - 1);
    }
  }

  /** A non-empty list of reported messages is never one of the fallbacks. */
  lemma FindingsAreNotElevated(table: seq<Threshold>, m: map<string, real>, k: nat)
    requires k <= |table|
    ensures ElevatedUpTo(table, m, k) != NormalFindings
    ensures ElevatedUpTo(table, m, k) != IrregularFindings
  {
    var found := ElevatedUpTo(table, m, k);
    if found != [] {
      ElevatedPrefix(table, m, k);
      var first := found[0];
      assert first in found;
      assert first[..9][0] == 'E';
      assert first != NormalFindings[0] && first != IrregularFindings[0];
    }
  }

  /** The fallbacks are reported exactly when nothing is elevated, chosen by the benign probability. */
  lemma FlaskFallbackIffNothingElevated(m: map<string, real>, proba: seq<real>)
    requires BenignProbabilityReadable(m, proba)
    ensures FlaskRiskFactorsFor(m, proba) == NormalFindings
            <==> (forall k :: 0 <= k < |FlaskThresholds| ==> !Elevated(FlaskThresholds[k], m))
                 && |proba| >= 2 && proba[1] > 0.7
    ensures FlaskRiskFactorsFor(m, proba) == IrregularFindings
            <==> (forall k :: 0 <= k < |FlaskThresholds| ==> !Elevated(FlaskThresholds[k], m))
                 && |proba| >= 2 && proba[1] <= 0.7
  {
    NothingElevated(FlaskThresholds, m, |FlaskThresholds|);
    FindingsAreNotElevated(FlaskThresholds, m, |FlaskThresholds|);
  }

  /**
   * `generate_risk_factors`: a loop over the threshold dictionary that
   * appends the message of each feature present and above its threshold,
   * then replaces an empty list by a fallback.
   */
  method GenerateRiskFactors(measurements: map<string, real>, proba: seq<real>) returns (riskFactors: seq<string>)
    requires BenignProbabilityReadable(measurements, proba)
    ensures riskFactors == FlaskRiskFactorsFor(measurements, proba)
  {
    riskFactors := [];
    for i := 0 to |FlaskThresholds|
      invariant riskFactors == ElevatedUpTo(FlaskThresholds, measurements, i)
    {
      var feature := FlaskThresholds[i].feature;
      var threshold := FlaskThresholds[i].threshold;
      if feature in measurements {
        if measurements[feature] > threshold {
          riskFactors := riskFactors + [ElevatedMessage(feature)];
        }
      }
    }
    if |riskFactors| == 0 {
      if proba[1] > 0.7 {
        riskFactors := NormalFindings;
      } else {
        riskFactors := IrregularFindings;
      }
    }
  }

  /** The benign monitoring plan, whose third item is worded differently from the route's. */
  const FlaskMonitoringPlan: seq<string> := [
    "Regular monitoring recommended",
    "Follow-up imaging in 6 months",
    "Consider additional diagnostic tests if symptoms persist",
    "Maintain healthy lifestyle"
  ]

  /**
   * `generate_recommendations`: class 0 (malignant) gets the specialist
   * plan; any other class gets the monitoring plan below a confidence of 85
   * and the routine plan from 85 on.
   */
  function GenerateRecommendations(prediction: int, confidence: real): (r: seq<string>)
    ensures |r| == 4
    ensures r == Recommendations.SpecialistPlan <==> prediction == 0
    ensures r == FlaskMonitoringPlan <==> prediction != 0 && confidence < 85.0
    ensures r == Recommendations.RoutinePlan <==> prediction != 0 && confidence >= 85.0
  {
    if prediction == 0 then Recommendations.SpecialistPlan
    else if confidence < 85.0 then FlaskMonitoringPlan
    else Recommendations.RoutinePlan
  }

  /**
   * The server's plans are the route's, with class 0 for "M": the same list
   * except for the third item of the monitoring plan.
   */
  lemma PlansMatchRoute(prediction: int, confidence: real)
    ensures var route := Recommendations.GenerateRecommendations(if prediction == 0 then "M" else "B", confidence);
            var flask := GenerateRecommendations(prediction, confidence);
            && |flask| == |route|
            && forall i :: 0 <= i < |flask| && i != 2 ==> flask[i] == route[i]
    ensures var route := Recommendations.GenerateRecommendations(if prediction == 0 then "M" else "B", confidence);
            GenerateRecommendations(prediction, confidence) == route <==> prediction == 0 || confidence >= 85.0
  {
  }

  /**
   * For the two classes the model produces, the label is "Malignant"
   * exactly when the recommendations are the specialist plan.
   */
  lemma LabelMatchesPlan(prediction: int, confidence: real)
    requires prediction == 0 || prediction == 1
    ensures PredictionLabel(prediction) == "Malignant"
            <==> GenerateRecommendations(prediction, confidence) == Recommendations.SpecialistPlan
  {
  }
}
