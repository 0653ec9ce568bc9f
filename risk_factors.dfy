/**
 * `generateRiskFactors` of the Next.js prediction route: six of the scoring
 * features, checked against the same thresholds, each contribute a fixed
 * observation in a fixed order; when none fires, a label-dependent fallback
 * is reported instead.
 */
module RiskFactors {
  import opened JsValues
  import opened Scoring

  /** One observation: `feature > threshold` contributes `message`. */
  datatype Factor = Factor(feature: string, threshold: real, message: string)

  /** The six observations, in the order the route checks them. */
  const FactorRules: seq<Factor> := [
    Factor("radius_mean", 15.0, "Large tumor radius detected"),
    Factor("texture_mean", 20.0, "High texture variation"),
    Factor("perimeter_mean", 100.0, "Irregular tumor perimeter"),
    Factor("area_mean", 800.0, "Large tumor area"),
    Factor("concavity_mean", 0.15, "High concavity values"),
    Factor("compactness_mean", 0.15, "High compactness")
  ]

  /** For each observation, the index of the scoring rule on the same feature. */
  const ScoreRuleOf: seq<nat> := [0, 1, 2, 3, 6, 5]

  const BenignFallback: seq<string> :=
    ["Normal cell structure patterns", "Regular tumor boundaries", "Low asymmetry values"]

  const OtherFallback: seq<string> := ["Multiple risk indicators present"]

  predicate Observed(f: Factor, m: map<string, Num>)
  {
    Exceeds(m, f.feature, f.threshold)
  }

  /** The messages of the first `k` observations that fire, in table order. */
  function Triggered(rules: seq<Factor>, m: map<string, Num>, k: nat): seq<string>
    requires k <= |rules|
  {
    if k == 0 then []
    else Triggered(rules, m, k - 1) + (if Observed(rules[k - 1], m) then [rules[k - 1].message] else [])
  }

  predicate DistinctMessages(rules: seq<Factor>)
  {
    forall i, j :: 0 <= i < j < |rules| ==> rules[i].message != rules[j].message
  }

  /** A message is reported exactly when its observation is among the first `k` and fires. */
  lemma {:induction false} TriggeredMembership(rules: seq<Factor>, m: map<string, Num>, k: nat, i: nat)
    requires k <= |rules| && i < |rules| && DistinctMessages(rules)
    ensures rules[i].message in Triggered(rules, m, k) <==> i < k && Observed(rules[i], m)
  {
    if k > 0 {
      TriggeredMembership(rules, m, k - 1, i);
    }
  }

  /** Everything reported is the message of one of the first `k` observations, and one that fires. */
  lemma {:induction false} TriggeredOnlyObserved(rules: seq<Factor>, m: map<string, Num>, k: nat, s: string)
    requires k <= |rules| && s in Triggered(rules, m, k)
    ensures exists i :: 0 <= i < k && rules[i].message == s && Observed(rules[i], m)
  {
    if s !in Triggered(rules, m, k - 1) {
      assert s == rules[k - 1].message && Observed(rules[k - 1], m);
    } else {
      TriggeredOnlyObserved(rules, m, k - 1, s);
    }
  }

  /** The observation table entry by entry, as the route's six `if` statements spell it out. */
  lemma FactorRulesEntries()
    ensures |FactorRules| == 6
    ensures FactorRules[0] == Factor("radius_mean", 15.0, "Large tumor radius detected")
    ensures FactorRules[1] == Factor("texture_mean", 20.0, "High texture variation")
    ensures FactorRules[2] == Factor("perimeter_mean", 100.0, "Irregular tumor perimeter")
    ensures FactorRules[3] == Factor("area_mean", 800.0, "Large tumor area")
    ensures FactorRules[4] == Factor("concavity_mean", 0.15, "High concavity values")
    ensures FactorRules[5] == Factor("compactness_mean", 0.15, "High compactness")
  {
  }

  /** The observation table reuses the scoring thresholds, feature for feature. */
  lemma FactorRulesMatchScoreRules()
    ensures |FactorRules| == 6 && |ScoreRuleOf| == 6 && DistinctMessages(FactorRules)
    ensures forall i :: 0 <= i < 6 ==>
              ScoreRuleOf[i] < |ScoreRules|
              && FactorRules[i].feature == ScoreRules[ScoreRuleOf[i]].feature
              && FactorRules[i].threshold == ScoreRules[ScoreRuleOf[i]].threshold
    ensures forall i :: 0 <= i < 6 ==> FactorRules[i].message !in BenignFallback + OtherFallback
  {
  }

  /**
   * The risk factors for a dictionary and a predicted label: the observations
   * that fire, or, when none does, the benign statements for "B" and the
   * single generic statement for any other label.
   */
  function RiskFactorsFor(m: map<string, Num>, prediction: string): (r: seq<string>)
    ensures |r| > 0
  {
    var found := Triggered(FactorRules, m, |FactorRules|);
    if found != [] then found
    else if prediction == "B" then BenignFallback
    else OtherFallback
  }

  /**
   * Each observation's message appears exactly when its feature exceeds its
   * threshold, whatever the label.
   */
  lemma RiskFactorMessage(m: map<string, Num>, prediction: string, i: nat)
    requires i < |FactorRules|
    ensures FactorRules[i].message in RiskFactorsFor(m, prediction) <==> Observed(FactorRules[i], m)
  {
    FactorRulesMatchScoreRules();
    TriggeredMembership(FactorRules, m, 6, i);
  }

  /** The fallbacks are reported exactly when no observation fires, chosen by the label. */
  lemma FallbackIffNothingObserved(m: map<string, Num>, prediction: string)
    ensures RiskFactorsFor(m, prediction) == BenignFallback
            <==> prediction == "B" && forall i :: 0 <= i < |FactorRules| ==> !Observed(FactorRules[i], m)
    ensures RiskFactorsFor(m, prediction) == OtherFallback
            <==> prediction != "B" && forall i :: 0 <= i < |FactorRules| ==> !Observed(FactorRules[i], m)
  {
    FactorRulesMatchScoreRules();
    var found := Triggered(FactorRules, m, 6);
    forall i | 0 <= i < 6
      ensures FactorRules[i].message in found <==> Observed(FactorRules[i], m)
    {
      TriggeredMembership(FactorRules, m, 6, i);
    }
    if found != [] {
      TriggeredOnlyObserved(FactorRules, m, 6, found[0]);
      var i :| 0 <= i < 6 && FactorRules[i].message == found[0] && Observed(FactorRules[i], m);
      assert found[0] !in BenignFallback + OtherFallback;
      assert found != BenignFallback by {
        assert BenignFallback[0] in BenignFallback + OtherFallback;
      }
      assert found != OtherFallback by {
        assert OtherFallback[0] in BenignFallback + OtherFallback;
      }
    }
  }

  /**
   * When none of the six observations fires, only the other four scoring
   * rules can contribute, and together they weigh 4.5.
   */
  lemma UnobservedScoreAtMost(m: map<string, Num>)
    requires Triggered(FactorRules, m, |FactorRules|) == []
    ensures RiskScore(m) <= 4.5
  {
    ScoreRulesEntries();
    FactorRulesEntries();
    FactorRulesMatchScoreRules();
    TriggeredMembership(FactorRules, m, 6, 0);
    TriggeredMembership(FactorRules, m, 6, 1);
    TriggeredMembership(FactorRules, m, 6, 2);
    TriggeredMembership(FactorRules, m, 6, 3);
    TriggeredMembership(FactorRules, m, 6, 4);
    TriggeredMembership(FactorRules, m, 6, 5);
    assert !Fires(ScoreRules[0], m) && !Fires(ScoreRules[1], m) && !Fires(ScoreRules[2], m);
    assert !Fires(ScoreRules[3], m) && !Fires(ScoreRules[5], m) && !Fires(ScoreRules[6], m);
    assert ScoreUpTo(ScoreRules, m, 1) == 0.0;
    assert ScoreUpTo(ScoreRules, m, 2) == 0.0;
    assert ScoreUpTo(ScoreRules, m, 3) == 0.0;
    assert ScoreUpTo(ScoreRules, m, 4) == 0.0;
    assert ScoreUpTo(ScoreRules, m, 5) <= 1.0;
    assert ScoreUpTo(ScoreRules, m, 6) <= 1.0;
    assert ScoreUpTo(ScoreRules, m, 7) <= 1.0;
    assert ScoreUpTo(ScoreRules, m, 8) <= 2.5;
    assert ScoreUpTo(ScoreRules, m, 9) <= 3.5;
  }

  /**
   * A score above 6 needs at least one of the six observed features, so a
   * malignant label from the scoring engine never falls back to the generic
   * statement.
   */
  lemma MalignantScoreIsObserved(m: map<string, Num>)
    requires RiskScore(m) > 6.0
    ensures Triggered(FactorRules, m, |FactorRules|) != []
    ensures RiskFactorsFor(m, "M") == Triggered(FactorRules, m, |FactorRules|)
  {
    if Triggered(FactorRules, m, |FactorRules|) == [] {
      UnobservedScoreAtMost(m);
      assert false;
    }
  }

  /**
   * `generateRiskFactors`: each of the six checks pushes its message onto a
   * local list; an empty list then receives the label-dependent fallback.
   */
  method GenerateRiskFactors(m: map<string, Num>, prediction: string) returns (factors: seq<string>)
    ensures factors == RiskFactorsFor(m, prediction)
  {
    FactorRulesEntries();
    factors := [];
    if Exceeds(m, "radius_mean", 15.0) { factors := factors + ["Large tumor radius detected"]; }
    assert factors == Triggered(FactorRules, m, 1);
    if Exceeds(m, "texture_mean", 20.0) { factors := factors + ["High texture variation"]; }
    assert factors == Triggered(FactorRules, m, 2);
    if Exceeds(m, "perimeter_mean", 100.0) { factors := factors + ["Irregular tumor perimeter"]; }
    assert factors == Triggered(FactorRules, m, 3);
    if Exceeds(m, "area_mean", 800.0) { factors := factors + ["Large tumor area"]; }
    assert factors == Triggered(FactorRules, m, 4);
    if Exceeds(m, "concavity_mean", 0.15) { factors := factors + ["High concavity values"]; }
    assert factors == Triggered(FactorRules, m, 5);
    if Exceeds(m, "compactness_mean", 0.15) { factors := factors + ["High compactness"]; }
    assert factors == Triggered(FactorRules, m, 6);

    if |factors| == 0 {
      if prediction == "B" {
        factors := factors + ["Normal cell structure patterns"];
        factors := factors + ["Regular tumor boundaries"];
        factors := factors + ["Low asymmetry values"];
      } else {
        factors := factors + ["Multiple risk indicators present"];
      }
    }
  }
}
