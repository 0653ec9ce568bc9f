# Breast tumour classifier: the prediction rules, modelled in Dafny

This project models the decision logic behind the breast-tumour classifier's prediction endpoints and proves properties about it. The logic comes in two versions.

* **The Next.js prediction route** (`app/api/predict/route.ts`). The `POST` handler checks the `measurements` object in the request body. The object must be truthy and of type `"object"`. Each of ten required fields must be present and convert to a number other than `NaN`. The handler then copies every entry through `Number(...)`, which gives a numeric dictionary.
  * `makePrediction` adds the weights of the features that lie strictly above their thresholds. That sum is the risk score.
  * The label is `"M"` above 6 and `"B"` otherwise.
  * The confidence is `75 + 2·score`, clamped to [75, 95] and rounded. The predicted class gets confidence/100 as its probability and the other class gets the rest.
  * `generateRiskFactors` lists six fixed observations. When none of them fires, it gives a fallback that depends on the label.
  * `generateRecommendations` picks one of three four-item plans from the label and the rounded confidence.
* **The Flask server** (`scripts/flask_server.py`). `predict` builds the feature vector in the model's feature order. Each feature name has its spaces turned into underscores to give the request key. A missing key gives `0.0`, and a value that `float()` rejects ends the handler. The vector is then re-keyed by feature name.
  * `generate_risk_factors` reports `"Elevated <measurement>"` for each entry of its own ten-entry threshold table that is present and strictly above its threshold. When nothing is elevated, it reports a fallback chosen by the benign probability.
  * `generate_recommendations` picks a plan from the class (0 is malignant) and the confidence.
  * `prediction_label` names the class.

Modules:

| file | module | models |
|---|---|---|
| `wrappers.dfy` | `Wrappers` | `Option` and `Result` |
| `js_values.dfy` | `JsValues` | JavaScript numbers: NaN, the two infinities, and finite values as reals. Also decoded JSON values, truthiness, `typeof`, `in`, `Object.entries`, `Math.round`, `Math.min` and `Math.max`. `Number(...)` is a function parameter; `IsJsCoercion` pins the cases the handler relies on. |
| `scoring.dfy` | `Scoring` | `makePrediction` |
| `risk_factors.dfy` | `RiskFactors` | `generateRiskFactors` |
| `recommendations.dfy` | `Recommendations` | `generateRecommendations` |
| `validation.dfy` | `Validation` | the checks and the conversion in `POST` |
| `predict_route.dfy` | `PredictRoute` | `POST` as a whole |
| `py_strings.dfy` | `PyStrings` | Python's `str.replace` |
| `flask_predict.dfy` | `FlaskPredict` | the feature assembly in `predict`, the name-keyed dictionary, and `prediction_label` |
| `flask_insights.dfy` | `FlaskInsights` | `generate_risk_factors` and `generate_recommendations` |

The route's ten weights are 2, 1.5, 2, 2.5, 1, 1.5, 2, 1.5, 1 and 1. They add up to **16**, so 16 is the highest score the code can produce. The model follows the code: `Scoring.RiskScore` is bounded by 16, and `Scoring.EveryFeatureHighIsMaximal` shows that 16 is reached. An input above every threshold is labelled `"M"` with confidence 95 and probabilities 0.95 and 0.05.

## Model

| member | source | states |
|---|---|---|
| JsValues.GreaterThan | app/api/predict/route.ts:26-35 | `x > t` is false for NaN and -Infinity, and compares a finite value as a real. |
| JsValues.Truthy | app/api/predict/route.ts:119 | A JSON value is falsy exactly when it is `null`, `false`, `0` or `""`. |
| JsValues.TypeOf | app/api/predict/route.ts:119 | `typeof` gives one of "boolean", "number", "string" and "object", and gives "object" exactly for `null`, arrays and objects. |
| JsValues.ObjectCheck | app/api/predict/route.ts:119 | The truthiness and `typeof` check lets through exactly objects and arrays. |
| JsValues.Entries | app/api/predict/route.ts:146 | `Object.entries` of an object yields exactly its own fields, each with its value, and yields nothing for other values; its keys are the ones `in` finds. |
| JsValues.JsRound | app/api/predict/route.ts:42 | `Math.round` returns the integer within one half of its argument, with halves going up. |
| JsValues.RoundWhole | app/api/predict/route.ts:42 | Rounding a whole number gives back the same number. |
| JsValues.Min | app/api/predict/route.ts:38 | `Math.min` is one of its arguments and no larger than either. |
| JsValues.Max | app/api/predict/route.ts:38 | `Math.max` is one of its arguments and no smaller than either. |
| Scoring.ScoreBounds | app/api/predict/route.ts:23-35 | Take any table of non-negative half-step weights. A partial score lies between 0 and the partial weight total, and it is a multiple of 0.5. |
| Scoring.ScoreDiffersOnlyAt | app/api/predict/route.ts:23-35 | Suppose two dictionaries fire every rule alike except rule j. Then their scores differ by exactly the difference of rule j's contributions. |
| Scoring.ScoreMonotone | app/api/predict/route.ts:23-35 | If every rule that fires on one dictionary also fires on another, the second score is at least the first. |
| Scoring.ScoreRulesWellFormed | app/api/predict/route.ts:26-35 | The ten features are distinct. Every weight is a non-negative multiple of 0.5. The weights total 16. |
| Scoring.ScoreRulesEntries | app/api/predict/route.ts:26-35 | The rule table holds the route's ten feature, threshold and weight triples, in order. |
| Scoring.RiskScore | app/api/predict/route.ts:23-35 | The risk score is between 0 and 16 and is always a multiple of 0.5. |
| Scoring.RaisingFeatureNeverLowersScore | app/api/predict/route.ts:26-35 | Raising any one finite measurement never lowers the score. |
| Scoring.CrossingThresholdAddsWeight | app/api/predict/route.ts:26-35 | Moving a feature from not above its threshold (or absent, or NaN) to above it adds exactly that rule's weight. |
| Scoring.ValueAtThresholdAddsNothing | app/api/predict/route.ts:26-35 | The comparison is strict: a value equal to its threshold scores the same as an absent feature. |
| Scoring.AllFireScoresTotal | app/api/predict/route.ts:23-35 | When every rule fires, the score is the weight total. |
| Scoring.NoneFireScoresZero | app/api/predict/route.ts:23-35 | When no rule fires, the score is 0. |
| Scoring.EveryFeatureHighIsMaximal | app/api/predict/route.ts:23-48 | Every feature above its threshold gives score 16, label "M", confidence 95, and probabilities 0.95 / 0.05. |
| Scoring.NoFeatureHighIsMinimal | app/api/predict/route.ts:23-48 | No feature above its threshold gives score 0, label "B", confidence 75, and probabilities 0.25 / 0.75. |
| Scoring.Confidence | app/api/predict/route.ts:38 | The unrounded confidence lies in [75, 95]. For a non-negative score it equals min(95, 75 + 2·score). |
| Scoring.ConfidenceMonotone | app/api/predict/route.ts:38 | A higher score never gives a lower confidence. |
| Scoring.ConfidenceIsWhole | app/api/predict/route.ts:38-42 | On a half-step score the confidence is whole, so `Math.round` does not change it. |
| Scoring.LabelSeparatesConfidence | app/api/predict/route.ts:37-38 | A malignant half-step score is at least 6.5, with confidence at least 88. A benign one has confidence at most 87. |
| Scoring.LowConfidenceIffScoreBelowFive | app/api/predict/route.ts:37-42 | A benign half-step score has rounded confidence below 85 exactly when the score is below 5. |
| Scoring.Outcome | app/api/predict/route.ts:37-48 | The label is "M" exactly when the score is above 6. On half-step scores the rounded confidence equals the unrounded one. The predicted class gets confidence/100, the other class the rest, and the two probabilities sum to 1. |
| Scoring.AccumulateRiskScore | app/api/predict/route.ts:23-35 | The ten sequential `if`s compute `RiskScore`, which lies in [0, 16] and is a multiple of 0.5. |
| Scoring.MakePrediction | app/api/predict/route.ts:4-49 | The result carries `RiskScore` of the dictionary and the label "M" iff the score is above 6. The confidence lies in 75..95 and equals the clamped value. The probabilities follow the label and sum to 1. |
| RiskFactors.TriggeredMembership | app/api/predict/route.ts:54-71 | With distinct messages, a message is listed exactly when its observation is among the first k and fires. |
| RiskFactors.TriggeredOnlyObserved | app/api/predict/route.ts:54-71 | Every listed message belongs to an observation that fires. |
| RiskFactors.FactorRulesEntries | app/api/predict/route.ts:54-71 | The observation table holds the route's six feature, threshold and message triples, in order. |
| RiskFactors.FactorRulesMatchScoreRules | app/api/predict/route.ts:54-71 | Each observation uses the same feature and threshold as a scoring rule. The messages are distinct and are not fallback texts. |
| RiskFactors.RiskFactorsFor | app/api/predict/route.ts:51-84 | The risk-factor list is never empty. |
| RiskFactors.RiskFactorMessage | app/api/predict/route.ts:54-71 | For either label, each observation's message appears exactly when its feature exceeds its threshold. |
| RiskFactors.FallbackIffNothingObserved | app/api/predict/route.ts:73-81 | The three benign statements appear exactly when nothing fires and the label is "B". The generic statement appears exactly when nothing fires and the label is anything else. |
| RiskFactors.UnobservedScoreAtMost | app/api/predict/route.ts:26-35 | If none of the six observations fires, the score is at most 4.5. |
| RiskFactors.MalignantScoreIsObserved | app/api/predict/route.ts:37-81 | A score above 6 always fires some observation, so an "M" result never gets the generic fallback. |
| RiskFactors.GenerateRiskFactors | app/api/predict/route.ts:51-84 | The six pushes and the fallback produce `RiskFactorsFor`. |
| Recommendations.GenerateRecommendations | app/api/predict/route.ts:86-111 | There are always four items. It gives the specialist plan iff the label is "M", the monitoring plan iff another label has confidence < 85, and the routine plan iff another label has confidence ≥ 85. |
| Recommendations.PlanFollowsScore | app/api/predict/route.ts:37-111 | Along the scoring engine's output, the plan depends on the score alone: specialist above 6, monitoring below 5, routine for 5 to 6. |
| Validation.ErrorMessage | app/api/predict/route.ts:120-140 | The fixed text belongs exactly to the object error. A field error's text is "Invalid or missing field: " followed by the field name. |
| Validation.ErrorMessageDeterminesRejection | app/api/predict/route.ts:120-140 | Different rejections never produce the same error text. |
| Validation.FirstInvalidFrom | app/api/predict/route.ts:138-142 | The first invalid field is found, if there is one. None means every field from i on is present and non-NaN. |
| Validation.Validate | app/api/predict/route.ts:119-148 | The object error happens exactly for an absent member or a non-object; `null`, primitives and falsy values fall here. Otherwise a field error names the first required field that is missing or converts to NaN. On success the keys are those of the object and every value is `Number(...)` of the original, with all ten required fields present and not NaN. |
| Validation.RejectsFirstInvalidField | app/api/predict/route.ts:138-142 | An invalid required field always causes rejection. When all the fields before it are valid, the rejection names it. |
| Validation.ArrayNamesFirstField | app/api/predict/route.ts:119-142 | An array passes the object check but is rejected with "radius_mean". |
| Validation.EmptyStringsAccepted | app/api/predict/route.ts:138-148 | Empty strings in the ten fields pass validation and read as 0, because `Number("")` is 0. |
| Validation.NestedObjectRejected | app/api/predict/route.ts:138-142 | A required field holding an object without its own "toString" key converts to NaN and is rejected. |
| Validation.FindInvalidField | app/api/predict/route.ts:137-142 | The loop over the required fields returns the first that is missing or converts to NaN, or none. |
| Validation.ConvertEntries | app/api/predict/route.ts:144-148 | The new dictionary has exactly the object's keys, each mapped to `Number(...)` of its value. |
| Validation.ValidateMeasurements | app/api/predict/route.ts:119-148 | The object check, the field loop and the conversion loop together compute `Validate`. |
| PredictRoute.Post | app/api/predict/route.ts:113-166 | A 400 answer comes back exactly when validation fails, with its message. A success ties the label and confidence to `RiskScore`, the factors to `RiskFactorsFor`, and the plan to `GenerateRecommendations` on the rounded confidence. It has 75..95 confidence, non-empty factors, four recommendations and probabilities summing to 1. An "M" answer lists the observations that fired and gets the specialist plan. |
| PyStrings.Replace | scripts/flask_server.py:168 | Replacing the pattern by itself changes nothing. A replacement as long as the pattern keeps the length. |
| PyStrings.ReplaceChar | scripts/flask_server.py:99 | Replacing one character keeps the length and changes exactly the positions holding that character. |
| PyStrings.ReplaceWithoutOccurrence | scripts/flask_server.py:168 | A string in which the pattern occurs at no position is unchanged by `replace`. |
| PyStrings.ReplaceLeading | scripts/flask_server.py:168 | The pattern followed by a string in which it does not occur loses just the leading pattern. |
| PyStrings.NoFirstLastMatchIsAbsence | scripts/flask_server.py:168 | If no position holds the pattern's first character with its last character the right distance further on, the pattern does not occur. |
| FlaskPredict.FeatureKey | scripts/flask_server.py:99 | The request key has the feature name's length, with '_' where the name has a space and the name's character elsewhere. |
| FlaskPredict.AssembleFeatures | scripts/flask_server.py:95-105 | On success there is one value per feature name, in order: the converted request value, or 0.0 for a missing key. On failure the index is the first feature whose conversion fails, and all earlier ones succeed. |
| FlaskPredict.NamedMeasurements | scripts/flask_server.py:122 | The dictionary's keys are exactly the feature names. |
| FlaskPredict.NamedMeasurementsLastWins | scripts/flask_server.py:122 | A name maps to the value at its last occurrence. |
| FlaskPredict.PredictionLabel | scripts/flask_server.py:127-128 | The label is "Benign" exactly for class 1 and "Malignant" for every other class. |
| FlaskInsights.ElevatedMessage | scripts/flask_server.py:168 | Every message starts with "Elevated ". A feature name in which "mean " does not occur is quoted unchanged after it. |
| FlaskInsights.ElevatedMembership | scripts/flask_server.py:165-168 | With distinct messages, an entry's message is listed exactly when the entry is among the first k and its feature is present and strictly above the threshold. An absent feature contributes nothing. |
| FlaskInsights.ElevatedPrefix | scripts/flask_server.py:168 | Every listed message starts with "Elevated ". |
| FlaskInsights.MessageOfMeanFeature | scripts/flask_server.py:168 | For "mean " followed by a word in which "mean " does not occur, the message is "Elevated " followed by the word. |
| FlaskInsights.WordsWithoutMean | scripts/flask_server.py:153-164 | "mean " occurs in none of the ten measurement names. |
| FlaskInsights.FlaskMessage | scripts/flask_server.py:153-168 | Entry k's feature is "mean " plus its measurement name, and its message is "Elevated " plus that name. |
| FlaskInsights.FlaskMessagesDistinct | scripts/flask_server.py:153-168 | The ten messages are pairwise different. |
| FlaskInsights.FlaskRiskFactorsFor | scripts/flask_server.py:147-176 | The risk-factor list is never empty. A second class probability is needed only when nothing is elevated. |
| FlaskInsights.FlaskRiskFactorMessage | scripts/flask_server.py:165-176 | "Elevated <measurement>" is reported exactly when that feature is present and above its threshold, whatever the probabilities. |
| FlaskInsights.NothingElevated | scripts/flask_server.py:165-170 | The elevated list is empty exactly when no entry is elevated. |
| FlaskInsights.FindingsAreNotElevated | scripts/flask_server.py:168-174 | A list of elevated messages is never one of the fallback lists. |
| FlaskInsights.FlaskFallbackIffNothingElevated | scripts/flask_server.py:170-174 | The normal findings appear exactly when nothing is elevated and the benign probability exceeds 0.7. The irregular-pattern finding appears exactly when nothing is elevated and it does not. Neither needs a second probability when something is elevated. |
| FlaskInsights.GenerateRiskFactors | scripts/flask_server.py:147-176 | The loop over the threshold table and the fallback produce `FlaskRiskFactorsFor`. |
| FlaskInsights.GenerateRecommendations | scripts/flask_server.py:178-201 | There are always four items. It gives the specialist plan iff the class is 0, the monitoring plan iff another class has confidence < 85, and the routine plan iff another class has confidence ≥ 85. |
| FlaskInsights.PlansMatchRoute | scripts/flask_server.py:178-201 | Reading class 0 as "M", the server's plan agrees with the route's item by item except the third. It is the same list exactly when the monitoring plan is not chosen. |
| FlaskInsights.LabelMatchesPlan | scripts/flask_server.py:178-181 | For classes 0 and 1, the label is "Malignant" exactly when the specialist plan is given. |

## Left out

- The one-second `setTimeout` delay in `makePrediction` is a timer, so it is not modelled.
- `request.json()`, `NextResponse`, the ISO timestamp of a successful answer and the 500 catch-all are HTTP plumbing. The model takes the parsed `measurements` member as input; an absent member is `None`.
- `Number(...)` on strings is not modelled. Its number grammar (whitespace, hex, exponents, `"Infinity"`) is abstracted as the `coerce` parameter. Only the cases in `IsJsCoercion` are pinned down.
- Numbers are modelled as reals, NaN and the two infinities, not as IEEE-754 doubles. Thresholds such as 0.12 or 0.07 are therefore exact, and rounding in the probabilities (for example 100 - 95 over 100) is not modelled.
- Arrays are modelled as having no own keys, which covers every required field. Their `length` and index keys, and properties inherited through the prototype chain, are not modelled.
- Assigning to `numericMeasurements["__proto__"]` sets no own property in JavaScript, but the model's map keeps it. No rule reads that key.
- The route's `GET` handler, the health endpoints and the UI pages are outside the prediction logic.
- A `Number(...)` that throws is not modelled. For example, an object with its own non-callable "toString" key throws a TypeError, and the route answers 500 (`route.ts` lines 167-169). `IsJsCoercion` leaves such objects unconstrained, and `PredictRoute.Post` answers only 400 or success.
- Several Flask steps are not modelled, because they are I/O or a learned model:
  - loading the model, the scaler and the feature names from pickle files (the default name list is modelled);
  - `scaler.transform`, `model.predict` and `model.predict_proba`;
  - the confidence `max(prediction_proba) * 100`;
  - rounding of the answer to two decimals.

  The class, the probabilities and the confidence are therefore parameters.
- Python `float()` parsing is the `toFloat` parameter. Only the cases in `IsPyFloat` are pinned down. The model does not cover a request body that is not a dictionary.
- FlaskInsights.FlaskRiskFactorsFor: requires a second class probability when nothing is elevated. Without one, `prediction_proba[1]` raises and the handler answers 500; that path is not modelled.
- FlaskInsights.GenerateRiskFactors: the measurements are reals, so a `nan` or `inf` produced by `float()` is not modelled. Python's comparison is false for `nan`.
