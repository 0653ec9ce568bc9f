/**
 * The POST handler of the prediction route, put together: validate and
 * convert the measurements, score them, derive the risk factors and the
 * recommendations, and answer either with all of them or with a 400 error.
 */
module PredictRoute {
  import opened Wrappers
  import opened JsValues
  import opened Scoring
  import opened RiskFactors
  import opened Recommendations
  import opened Validation

  /** The JSON answer (the timestamp of a successful answer is not modelled). */
  datatype Response =
    | Success(prediction: string, confidence: int, riskFactors: seq<string>,
              recommendations: seq<string>, malignant: real, benign: real)
    | Failure(status: int, error: string)

  method Post(coerce: Coercion, measurements: Option<Value>) returns (resp: Response)
    ensures resp.Failure? <==> Validate(coerce, measurements).Err?
    ensures resp.Failure? ==>
              resp.status == BadRequest && resp.error == ErrorMessage(Validate(coerce, measurements).error)
    ensures resp.Success? ==>
              var m := Validate(coerce, measurements).value;
              var score := RiskScore(m);
              && resp.prediction == (if score > 6.0 then "M" else "B")
              && resp.confidence as real == Confidence(score)
              && resp.riskFactors == RiskFactorsFor(m, resp.prediction)
              && resp.recommendations == GenerateRecommendations(resp.prediction, resp.confidence as real)
    ensures resp.Success? ==>
              && 75 <= resp.confidence <= 95
              && |resp.riskFactors| > 0
              && |resp.recommendations| == 4
              && resp.malignant + resp.benign == 1.0
              && (resp.prediction == "M" ==> resp.malignant == resp.confidence as real / 100.0)
              && (resp.prediction == "B" ==> resp.benign == resp.confidence as real / 100.0)
    ensures resp.Success? && resp.prediction == "M" ==>
              && resp.riskFactors == Triggered(FactorRules, Validate(coerce, measurements).value, |FactorRules|)
              && resp.recommendations == SpecialistPlan
  {
    var checked := ValidateMeasurements(coerce, measurements);
    if checked.Err? {
      return Failure(BadRequest, ErrorMessage(checked.error));
    }
    var numericMeasurements := checked.value;

    var result := MakePrediction(numericMeasurements);
    var riskFactors := GenerateRiskFactors(numericMeasurements, result.prediction);
    var recommendations := GenerateRecommendations(result.prediction, result.confidence as real);

    if result.prediction == "M" {
      MalignantScoreIsObserved(numericMeasurements);
    }
    resp := Success(result.prediction, result.confidence, riskFactors, recommendations,
                    result.malignant, result.benign);
  }
}
