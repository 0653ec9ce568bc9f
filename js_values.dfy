/**
 * The parts of JavaScript's value semantics that the prediction route relies on:
 * numbers (with NaN and the infinities), values decoded from a JSON body,
 * truthiness, `typeof`, the `in` operator, `Number(...)` coercion and `Math.round`.
 */
module JsValues {

  /** A JavaScript number. Finite values are modelled as reals (IEEE-754 rounding is not modelled). */
  datatype Num = NaN | PosInf | NegInf | Finite(r: real)

  /**
   * `x > t` for a finite threshold `t`: every comparison involving NaN is
   * false, -Infinity exceeds nothing, and a finite value compares as a real.
   */
  predicate GreaterThan(x: Num, t: real)
    ensures GreaterThan(x, t) ==> !x.NaN? && !x.NegInf?
    ensures x.Finite? ==> (GreaterThan(x, t) <==> x.r > t)
  {
    match x
    case Finite(r) => r > t
    case PosInf => true
    case _ => false
  }

  /**
   * A value decoded from a JSON request body. Numbers are finite reals: a
   * literal too large for a double (which `JSON.parse` reads as Infinity) is
   * not modelled.
   */
  datatype Value =
    | Null
    | Bool(b: bool)
    | Number(n: real)
    | Str(s: string)
    | Array(items: seq<Value>)
    | Object(fields: map<string, Value>)

  /** JavaScript truthiness: `null`, `false`, `0` and `""` are falsy, every other JSON value is truthy. */
  predicate Truthy(v: Value)
    ensures Truthy(v) <==> v != Null && v != Bool(false) && v != Number(0.0) && v != Str("")
  {
    match v
    case Null => false
    case Bool(b) => b
    case Number(n) => n != 0.0
    case Str(s) => s != ""
    case _ => true
  }

  /** The `typeof` operator; note that `typeof null` and `typeof []` are both "object". */
  function TypeOf(v: Value): (t: string)
    ensures t == "boolean" || t == "number" || t == "string" || t == "object"
    ensures t == "object" <==> v.Null? || v.Array? || v.Object?
  {
    match v
    case Bool(_) => "boolean"
    case Number(_) => "number"
    case Str(_) => "string"
    case _ => "object"
  }

  /**
   * `!v || typeof v !== "object"` fails exactly for objects and arrays: they
   * are always truthy, and `null`, the one falsy value of type "object", is
   * rejected.
   */
  lemma ObjectCheck(v: Value)
    ensures Truthy(v) && TypeOf(v) == "object" <==> v.Object? || v.Array?
  {
  }

  /**
   * `key in v` for a key that is neither an array index, nor "length", nor a
   * property inherited from Object.prototype: only an object's own fields answer true.
   */
  predicate HasProperty(v: Value, key: string)
  {
    v.Object? && key in v.fields
  }

  /** `Object.entries(v)` read as a dictionary (only objects have string-keyed entries here). */
  function Entries(v: Value): (es: map<string, Value>)
    ensures forall k :: HasProperty(v, k) <==> k in es
    ensures v.Object? ==> es == v.fields
    ensures !v.Object? ==> es == map[]
  {
    if v.Object? then v.fields else map[]
  }

  /** `Number(...)` is a parameter of the model: the string-to-number grammar is not modelled. */
  type Coercion = Value -> Num

  /**
   * What `Number(...)` is known to do on the value shapes that do not involve
   * string parsing: null and false give 0, true gives 1, a JSON number gives
   * itself, the empty string gives 0, and an object gives NaN through the
   * inherited `toString`. An object with its own "toString" key makes
   * `Number` throw instead, so it is left unconstrained.
   */
  ghost predicate IsJsCoercion(coerce: Coercion)
  {
    && coerce(Null) == Finite(0.0)
    && coerce(Bool(false)) == Finite(0.0)
    && coerce(Bool(true)) == Finite(1.0)
    && coerce(Str("")) == Finite(0.0)
    && (forall n: real :: coerce(Number(n)) == Finite(n))
    && (forall fs: map<string, Value> :: "toString" !in fs ==> coerce(Object(fs)) == NaN)
  }

  /** `Math.round` on a finite value: the nearest integer, halves rounded towards +infinity. */
  function JsRound(x: real): (n: int)
    ensures x - 0.5 < n as real <= x + 0.5
  {
    (x + 0.5).Floor
  }

  /** A real with no fractional part. */
  predicate IsWhole(x: real)
  {
    x.Floor as real == x
  }

  lemma RoundWhole(x: real)
    requires IsWhole(x)
    ensures JsRound(x) as real == x
  {
    var n := x.Floor;
    var r := JsRound(x);
    assert r as real <= n as real + 0.5;
    assert r <= n;
    assert n as real - 0.5 < r as real;
    assert n - 1 < r;
  }

  function Min(a: real, b: real): (m: real)
    ensures m <= a && m <= b && (m == a || m == b)
  {
    if a <= b then a else b
  }

  function Max(a: real, b: real): (m: real)
    ensures m >= a && m >= b && (m == a || m == b)
  {
    if a >= b then a else b
  }
}
