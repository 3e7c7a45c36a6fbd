/**
 * The fragment of JavaScript value semantics that the log builder relies on:
 * dynamically typed values, truthiness (what `if (x)` and `x || y` test),
 * `typeof`, property reads, and abrupt completions (a thrown TypeError).
 */
module Js {

  datatype Option<+T> = None | Some(value: T)

  /** A JavaScript value. Objects are plain data: a finite, acyclic map of own properties. */
  datatype Value =
    | Undefined
    | Null
    | Bool(b: bool)
    | Num(x: real)
    | NaN
    | Str(s: string)
    | Arr(items: seq<Value>)
    | Obj(props: map<string, Value>)

  /** The answers of `typeof` that these values can give. */
  datatype Type = UndefinedType | ObjectType | BooleanType | NumberType | StringType

  /** The error kinds the modelled code can throw. */
  datatype JsError = TypeError

  /** The completion of an evaluation: a value, or an exception that escapes. */
  datatype Completion<+T> = Normal(value: T) | Throw(error: JsError)

  /**
   * The host's JSON library, which this model does not look inside:
   * `parse` is `JSON.parse` (None when it throws a SyntaxError) and
   * `stringify` is `JSON.stringify` on an acyclic value.
   */
  datatype Json = Json(parse: string -> Option<Value>, stringify: Value -> string)

  /** ToBoolean: what `if (v)` and `v || w` test. */
  predicate Truthy(v: Value)
  {
    match v
    case Undefined => false
    case Null => false
    case Bool(b) => b
    case Num(x) => x != 0.0
    case NaN => false
    case Str(s) => s != ""
    case Arr(_) => true
    case Obj(_) => true
  }

  /** `null` or `undefined`: the values on which a plain property read throws. */
  predicate Nullish(v: Value)
  {
    v.Undefined? || v.Null?
  }

  function TypeOf(v: Value): (t: Type)
    ensures t == StringType <==> v.Str?
    ensures t == ObjectType <==> v.Null? || v.Arr? || v.Obj?
  {
    match v
    case Undefined => UndefinedType
    case Null => ObjectType
    case Bool(_) => BooleanType
    case Num(_) => NumberType
    case NaN => NumberType
    case Str(_) => StringType
    case Arr(_) => ObjectType
    case Obj(_) => ObjectType
  }

  /**
   * `v?.key` for the property names this code reads (`message`, `error`,
   * `headers`, `remoteAddress`, a header name, ...): an own property of an
   * object, and `undefined` for everything else, since no primitive, array
   * or Object.prototype carries a property of those names.
   */
  function Prop(v: Value, key: string): (r: Value)
    ensures !v.Obj? ==> r == Undefined
    ensures v.Obj? && key !in v.props ==> r == Undefined
    ensures v.Obj? && key in v.props ==> r == v.props[key]
  {
    if v.Obj? && key in v.props then v.props[key] else Undefined
  }

  /** `a || b`. */
  function Or(a: Value, b: Value): (r: Value)
    ensures Truthy(a) ==> r == a
    ensures !Truthy(a) ==> r == b
  {
    if Truthy(a) then a else b
  }

  /**
   * `c0 || c1 || ... || fallback`: the first truthy candidate, or the
   * fallback when there is none.
   */
  function FirstTruthy(candidates: seq<Value>, fallback: Value): (r: Value)
    ensures r in candidates || r == fallback
    ensures Truthy(r) || r == fallback
  {
    if |candidates| == 0 then fallback
    else if Truthy(candidates[0]) then candidates[0]
    else FirstTruthy(candidates[1..], fallback)
  }

  /** The candidate at index k wins when it is truthy and every earlier one is falsy. */
  lemma {:induction false} FirstTruthyPicksLeast(candidates: seq<Value>, fallback: Value, k: nat)
    requires k < |candidates| && Truthy(candidates[k])
    requires forall j :: 0 <= j < k ==> !Truthy(candidates[j])
    ensures FirstTruthy(candidates, fallback) == candidates[k]
  {
    if k > 0 {
      FirstTruthyPicksLeast(candidates[1..], fallback, k - 1);
    }
  }

  /** With no truthy candidate the fallback is the result. */
  lemma {:induction false} FirstTruthyAllFalsy(candidates: seq<Value>, fallback: Value)
    requires forall j :: 0 <= j < |candidates| ==> !Truthy(candidates[j])
    ensures FirstTruthy(candidates, fallback) == fallback
  {
    if |candidates| > 0 {
      FirstTruthyAllFalsy(candidates[1..], fallback);
    }
  }
}
