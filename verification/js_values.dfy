/**
 * The slice of JavaScript's value model the request checks and the food-name
 * extraction rely on: values as JSON.parse produces them, truthiness, and
 * property access with the TypeError that `null.x` and `undefined.x` throw.
 */
module JsValues {
  import opened Basics

  /** A JSON-shaped value; `Num` holds a finite number (JSON has no NaN). */
  datatype JsValue =
    | Undefined
    | Null
    | Bool(b: bool)
    | Num(n: real)
    | Str(s: string)
    | Arr(elems: seq<JsValue>)
    | Obj(fields: map<string, JsValue>)

  /** `!!v`: false for undefined, null, false, 0 and the empty string. */
  predicate Truthy(v: JsValue)
  {
    match v
    case Undefined => false
    case Null => false
    case Bool(b) => b
    case Num(n) => n != 0.0
    case Str(s) => s != []
    case Arr(_) => true
    case Obj(_) => true
  }

  /** `typeof v === 'object'`, which includes null and arrays. */
  predicate IsObjectType(v: JsValue)
  {
    v.Null? || v.Arr? || v.Obj?
  }

  /**
   * `v[key]` for the plain data keys this application reads (none of them is
   * an inherited property of objects, arrays, strings or numbers): the field
   * of an object, undefined for any other non-nullish value, and None where
   * JavaScript throws a TypeError (reading a property of null or undefined).
   */
  function Prop(v: JsValue, key: string): (r: Option<JsValue>)
    ensures r.None? <==> v.Undefined? || v.Null?
    ensures r.Some? && !v.Obj? ==> r.value == Undefined
    ensures v.Obj? && key in v.fields ==> r == Some(v.fields[key])
  {
    match v
    case Undefined => None
    case Null => None
    case Obj(fields) => Some(if key in fields then fields[key] else Undefined)
    case _ => Some(Undefined)
  }

  /** `v?.[key]`: optional chaining never throws and yields undefined on nullish values. */
  function OptionalProp(v: JsValue, key: string): (r: JsValue)
    ensures !v.Obj? ==> r == Undefined
  {
    match Prop(v, key)
    case None => Undefined
    case Some(x) => x
  }

  /** `a || b` on values. */
  function Or(a: JsValue, b: JsValue): (r: JsValue)
    ensures Truthy(r) <==> Truthy(a) || Truthy(b)
  {
    if Truthy(a) then a else b
  }
}
