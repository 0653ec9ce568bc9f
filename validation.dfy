/**
 * The input checks of the prediction route's POST handler: the
 * `measurements` member must be a truthy object, each of the ten required
 * fields (in a fixed order) must be present and coerce to a number other
 * than NaN, and then every entry is copied through `Number(...)` into a
 * numeric dictionary.
 */
module Validation {
  import opened Wrappers
  import opened JsValues

  /** The required fields, in the order they are checked. */
  const RequiredFields: seq<string> := [
    "radius_mean",
    "texture_mean",
    "perimeter_mean",
    "area_mean",
    "smoothness_mean",
    "compactness_mean",
    "concavity_mean",
    "concave_points_mean",
    "symmetry_mean",
    "fractal_dimension_mean"
  ]

  /** Why a request is answered with status 400. */
  datatype Rejection = InvalidMeasurements | InvalidField(field: string)

  const BadRequest: int := 400

  /** The `error` text of a 400 answer: a fixed text, or a fixed prefix followed by the field name. */
  function ErrorMessage(e: Rejection): (message: string)
    ensures message == "Invalid measurements data" <==> e.InvalidMeasurements?
    ensures e.InvalidField? ==>
              |message| >= 26 && message[..26] == "Invalid or missing field: " && message[26..] == e.field
  {
    match e
    case InvalidMeasurements => "Invalid measurements data"
    case InvalidField(f) =>
      var message := "Invalid or missing field: " + f;
      assert message[8] != "Invalid measurements data"[8];
      message
  }

  /** The error text identifies the rejection: different rejections never share a message. */
  lemma ErrorMessageDeterminesRejection(e: Rejection, e': Rejection)
    requires ErrorMessage(e) == ErrorMessage(e')
    ensures e == e'
  {
    if e.InvalidField? && e'.InvalidField? {
      assert e.field == ErrorMessage(e)[26..] == e'.field;
    }
  }

  /** `!measurements || typeof measurements !== "object"`, with `undefined` for an absent member. */
  predicate NotAnObject(measurements: Option<Value>)
  {
    measurements.None? || !Truthy(measurements.value) || TypeOf(measurements.value) != "object"
  }

  /** `!(field in v) || isNaN(Number(v[field]))` */
  predicate FieldInvalid(coerce: Coercion, v: Value, field: string)
  {
    !HasProperty(v, field) || coerce(Entries(v)[field]).NaN?
  }

  /** The first of `fields[i..]` that is invalid, if any. */
  function FirstInvalidFrom(coerce: Coercion, v: Value, fields: seq<string>, i: nat): (r: Option<string>)
    requires i <= |fields|
    ensures r.None? <==> forall j :: i <= j < |fields| ==> !FieldInvalid(coerce, v, fields[j])
    ensures r.Some? ==> exists j :: i <= j < |fields| && fields[j] == r.value && FieldInvalid(coerce, v, fields[j])
                                    && forall k :: i <= k < j ==> !FieldInvalid(coerce, v, fields[k])
    decreases |fields| - i
  {
    if i == |fields| then None
    else if FieldInvalid(coerce, v, fields[i]) then Some(fields[i])
    else FirstInvalidFrom(coerce, v, fields, i + 1)
  }

  /** Every entry of the object, passed through `Number(...)`. */
  function Convert(coerce: Coercion, entries: map<string, Value>): map<string, Num>
  {
    map k | k in entries :: coerce(entries[k])
  }

  /** The outcome of the checks and the conversion, for the member `measurements` of the body. */
  function Validate(coerce: Coercion, measurements: Option<Value>): (r: Result<map<string, Num>, Rejection>)
    ensures r == Err(InvalidMeasurements)
            <==> measurements.None? || !(measurements.value.Object? || measurements.value.Array?)
    ensures r.Err? && r.error.InvalidField? ==>
              exists i :: 0 <= i < |RequiredFields| && RequiredFields[i] == r.error.field
                          && FieldInvalid(coerce, measurements.value, RequiredFields[i])
                          && forall j :: 0 <= j < i ==> !FieldInvalid(coerce, measurements.value, RequiredFields[j])
    ensures r.Ok? ==>
              && measurements.Some? && measurements.value.Object?
              && r.value.Keys == measurements.value.fields.Keys
              && (forall k :: k in r.value ==> r.value[k] == coerce(measurements.value.fields[k]))
              && (forall i :: 0 <= i < |RequiredFields| ==>
                    RequiredFields[i] in r.value && !r.value[RequiredFields[i]].NaN?)
  {
    if NotAnObject(measurements) then Err(InvalidMeasurements)
    else
      match FirstInvalidFrom(coerce, measurements.value, RequiredFields, 0)
      case Some(field) => Err(InvalidField(field))
      case None =>
        assert !FieldInvalid(coerce, measurements.value, RequiredFields[0]);
        Ok(Convert(coerce, Entries(measurements.value)))
  }

  /**
   * A required field that is absent or coerces to NaN is always rejected, and
   * the rejection names it whenever all the fields before it are valid.
   */
  lemma RejectsFirstInvalidField(coerce: Coercion, measurements: Option<Value>, i: nat)
    requires measurements.Some? && (measurements.value.Object? || measurements.value.Array?)
    requires i < |RequiredFields| && FieldInvalid(coerce, measurements.value, RequiredFields[i])
    ensures Validate(coerce, measurements).Err?
    ensures (forall j :: 0 <= j < i ==> !FieldInvalid(coerce, measurements.value, RequiredFields[j]))
            ==> Validate(coerce, measurements) == Err(InvalidField(RequiredFields[i]))
  {
    var v := measurements.value;
    var first := FirstInvalidFrom(coerce, v, RequiredFields, 0);
    assert first.Some?;
    if forall j :: 0 <= j < i ==> !FieldInvalid(coerce, v, RequiredFields[j]) {
      var j :| 0 <= j < |RequiredFields| && RequiredFields[j] == first.value && FieldInvalid(coerce, v, RequiredFields[j])
               && forall k :: 0 <= k < j ==> !FieldInvalid(coerce, v, RequiredFields[k]);
      assert j == i;
    }
  }

  /**
   * An array passes the object check (`typeof [] === "object"`) but has none
   * of the required fields, so it is rejected naming the first one.
   */
  lemma ArrayNamesFirstField(coerce: Coercion, items: seq<Value>)
    ensures Validate(coerce, Some(Array(items))) == Err(InvalidField("radius_mean"))
  {
    RejectsFirstInvalidField(coerce, Some(Array(items)), 0);
  }

  /**
   * Because `Number("")` is 0, a body whose ten required fields are all empty
   * strings passes validation, and every one of them reads as 0.
   */
  lemma EmptyStringsAccepted(coerce: Coercion, fields: map<string, Value>)
    requires IsJsCoercion(coerce)
    requires forall i :: 0 <= i < |RequiredFields| ==> RequiredFields[i] in fields && fields[RequiredFields[i]] == Str("")
    ensures Validate(coerce, Some(Object(fields))).Ok?
    ensures forall i :: 0 <= i < |RequiredFields| ==>
              Validate(coerce, Some(Object(fields))).value[RequiredFields[i]] == Finite(0.0)
  {
    assert FirstInvalidFrom(coerce, Object(fields), RequiredFields, 0).None?;
  }

  /** A required field holding a nested object coerces to NaN and is reported. */
  lemma NestedObjectRejected(coerce: Coercion, fields: map<string, Value>, i: nat)
    requires IsJsCoercion(coerce)
    requires i < |RequiredFields| && RequiredFields[i] in fields && fields[RequiredFields[i]].Object?
    requires "toString" !in fields[RequiredFields[i]].fields
    ensures Validate(coerce, Some(Object(fields))).Err?
  {
    assert coerce(fields[RequiredFields[i]]) == NaN;
    RejectsFirstInvalidField(coerce, Some(Object(fields)), i);
  }

  /** The conversion loop: every entry of the object, copied through `Number(...)` into a fresh dictionary. */
  method ConvertEntries(coerce: Coercion, entries: map<string, Value>) returns (numericMeasurements: map<string, Num>)
    ensures numericMeasurements.Keys == entries.Keys
    ensures forall k :: k in numericMeasurements ==> numericMeasurements[k] == coerce(entries[k])
  {
    numericMeasurements := map[];
    var pending := entries.Keys;
    while pending != {}
      invariant pending <= entries.Keys
      invariant numericMeasurements.Keys == entries.Keys - pending
      invariant forall k :: k in numericMeasurements ==> numericMeasurements[k] == coerce(entries[k])
      decreases pending
    {
      var key :| key in pending;
      numericMeasurements := numericMeasurements[key := coerce(entries[key])];
      pending := pending - {key};
    }
  }

  /** The loop over the required fields, stopping at the first one that is missing or converts to NaN. */
  method FindInvalidField(coerce: Coercion, v: Value) returns (r: Option<string>)
    ensures r == FirstInvalidFrom(coerce, v, RequiredFields, 0)
  {
    for i := 0 to |RequiredFields|
      invariant FirstInvalidFrom(coerce, v, RequiredFields, 0) == FirstInvalidFrom(coerce, v, RequiredFields, i)
    {
      var field := RequiredFields[i];
      if !HasProperty(v, field) || coerce(Entries(v)[field]).NaN? {
        return Some(field);
      }
    }
    return None;
  }

  /**
   * The validation and conversion steps of the POST handler: the object
   * check, the loop over the required fields, and the conversion loop.
   */
  method ValidateMeasurements(coerce: Coercion, measurements: Option<Value>)
    returns (r: Result<map<string, Num>, Rejection>)
    ensures r == Validate(coerce, measurements)
  {
    if measurements.None? || !Truthy(measurements.value) || TypeOf(measurements.value) != "object" {
      return Err(InvalidMeasurements);
    }
    var v := measurements.value;
    var invalid := FindInvalidField(coerce, v);
    if invalid.Some? {
      return Err(InvalidField(invalid.value));
    }
    var numericMeasurements := ConvertEntries(coerce, Entries(v));
    assert numericMeasurements == Convert(coerce, Entries(v));
    r := Ok(numericMeasurements);
  }
}
