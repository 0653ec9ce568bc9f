/**
 * The deterministic parts of the Flask server's `predict` handler: the
 * feature vector is assembled in the model's feature order from the request
 * keys (spaces in a feature name become underscores, a missing key gives
 * 0.0), the vector is re-keyed by feature name for the risk-factor step, and
 * the integer prediction is given its label.
 */
module FlaskPredict {
  import opened Wrappers
  import opened JsValues
  import opened PyStrings

  /** The feature names the server falls back to when none are stored beside the model. */
  const DefaultFeatureNames: seq<string> := [
    "mean radius", "mean texture", "mean perimeter", "mean area",
    "mean smoothness", "mean compactness", "mean concavity",
    "mean concave points", "mean symmetry", "mean fractal dimension",
    "radius error", "texture error", "perimeter error", "area error",
    "smoothness error", "compactness error", "concavity error",
    "concave points error", "symmetry error", "fractal dimension error",
    "worst radius", "worst texture", "worst perimeter", "worst area",
    "worst smoothness", "worst compactness", "worst concavity",
    "worst concave points", "worst symmetry", "worst fractal dimension"
  ]

  /** Python's `float(...)` on a decoded JSON value; `None` stands for the exception it raises. */
  type FloatConversion = Value -> Option<real>

  /** What `float(...)` is known to do apart from parsing strings. */
  ghost predicate IsPyFloat(toFloat: FloatConversion)
  {
    && toFloat(Null) == None
    && toFloat(Bool(false)) == Some(0.0)
    && toFloat(Bool(true)) == Some(1.0)
    && (forall n: real :: toFloat(Number(n)) == Some(n))
    && (forall items: seq<Value> :: toFloat(Array(items)) == None)
    && (forall fs: map<string, Value> :: toFloat(Object(fs)) == None)
  }

  /** The request key of a feature: `feature_name.replace(' ', '_')`. */
  function FeatureKey(name: string): (key: string)
    ensures |key| == |name|
    ensures forall i :: 0 <= i < |name| ==> key[i] == if name[i] == ' ' then '_' else name[i]
  {
    ReplaceChar(name, ' ', '_');
    Replace(name, " ", "_")
  }

  /** What one feature slot receives: the converted request value, or 0.0 when the key is missing. */
  function Slot(data: map<string, Value>, name: string, toFloat: FloatConversion): Option<real>
  {
    var key := FeatureKey(name);
    if key in data then toFloat(data[key]) else Some(0.0)
  }

  /**
   * The assembly loop: one value per feature name, in order. A conversion that
   * raises ends the handler (with a 500 answer); the index of that feature is
   * returned as the error.
   */
  method AssembleFeatures(featureNames: seq<string>, data: map<string, Value>, toFloat: FloatConversion)
    returns (r: Result<seq<real>, nat>)
    ensures r.Ok? ==>
              && |r.value| == |featureNames|
              && forall i :: 0 <= i < |featureNames| ==> Slot(data, featureNames[i], toFloat) == Some(r.value[i])
    ensures r.Err? ==>
              && r.error < |featureNames|
              && Slot(data, featureNames[r.error], toFloat).None?
              && forall j :: 0 <= j < r.error ==> Slot(data, featureNames[j], toFloat).Some?
  {
    var features: seq<real> := [];
    for i := 0 to |featureNames|
      invariant |features| == i
      invariant forall j :: 0 <= j < i ==> Slot(data, featureNames[j], toFloat) == Some(features[j])
    {
      var key := Replace(featureNames[i], " ", "_");
      if key in data {
        var x := toFloat(data[key]);
        if x.None? {
          return Err(i);
        }
        features := features + [x.value];
      } else {
        features := features + [0.0];
      }
    }
    r := Ok(features);
  }

  /**
   * `{feature_names[i]: features[i] for i in range(len(features))}`: a
   * dictionary keyed by feature name, built entry by entry in order.
   */
  function NamedMeasurements(names: seq<string>, values: seq<real>): (m: map<string, real>)
    requires |names| == |values|
    ensures forall name :: name in m <==> name in names
    decreases |names|
  {
    if names == [] then map[]
    else
      var n := |names| - 1;
      assert names == names[..n] + [names[n]];
      NamedMeasurements(names[..n], values[..n])[names[n] := values[n]]
  }

  /** Each name maps to the value at its last occurrence: a repeated name keeps its last value. */
  lemma {:induction false} NamedMeasurementsLastWins(names: seq<string>, values: seq<real>, i: nat)
    requires |names| == |values| && i < |names|
    requires forall j :: i < j < |names| ==> names[j] != names[i]
    ensures NamedMeasurements(names, values)[names[i]] == values[i]
    decreases |names|
  {
    var n := |names| - 1;
    if i < n {
      assert names[..n][i] == names[i];
      NamedMeasurementsLastWins(names[..n], values[..n], i);
    }
  }

  /** `'Benign' if prediction == 1 else 'Malignant'` (the classifier uses 0 for malignant, 1 for benign). */
  function PredictionLabel(prediction: int): (name: string)
    ensures name == "Benign" <==> prediction == 1
    ensures name == "Malignant" <==> prediction != 1
  {
    if prediction == 1 then "Benign" else "Malignant"
  }
}
