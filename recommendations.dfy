/**
 * `generateRecommendations` of the Next.js prediction route: one of three
 * fixed four-item plans, chosen from the label and the confidence.
 */
module Recommendations {
  import opened JsValues
  import opened Scoring

  const SpecialistPlan: seq<string> := [
    "Immediate consultation with oncologist required",
    "Additional imaging studies recommended",
    "Tissue biopsy confirmation needed",
    "Discuss treatment options with medical team"
  ]

  const MonitoringPlan: seq<string> := [
    "Regular monitoring recommended",
    "Follow-up imaging in 6 months",
    "Consider additional diagnostic tests",
    "Maintain healthy lifestyle"
  ]

  const RoutinePlan: seq<string> := [
    "Continue routine screening schedule",
    "Annual mammography recommended",
    "Maintain healthy lifestyle",
    "Report any changes to physician"
  ]

  /**
   * "M" gets the specialist plan whatever the confidence; any other label gets
   * the monitoring plan below 85 and the routine plan from 85 on.
   */
  function GenerateRecommendations(prediction: string, confidence: real): (r: seq<string>)
    ensures |r| == 4
    ensures r == SpecialistPlan <==> prediction == "M"
    ensures r == MonitoringPlan <==> prediction != "M" && confidence < 85.0
    ensures r == RoutinePlan <==> prediction != "M" && confidence >= 85.0
  {
    if prediction == "M" then SpecialistPlan
    else if confidence < 85.0 then MonitoringPlan
    else RoutinePlan
  }

  /**
   * For the result of the scoring engine, the plan follows the score alone:
   * the specialist plan above 6, the monitoring plan below 5, and the
   * routine plan for 5, 5.5 and 6.
   */
  lemma PlanFollowsScore(score: real)
    requires 0.0 <= score && IsWhole(2.0 * score)
    ensures var p := Outcome(score);
            var r := GenerateRecommendations(p.prediction, p.confidence as real);
            && (r == SpecialistPlan <==> score > 6.0)
            && (r == MonitoringPlan <==> score < 5.0)
            && (r == RoutinePlan <==> 5.0 <= score <= 6.0)
  {
    if score <= 6.0 {
      LowConfidenceIffScoreBelowFive(score);
      ConfidenceIsWhole(score);
    }
  }
}
