/**
 * JavaScript values as the extension meets them: parsed JSON, plus `undefined`.
 * Numbers are integers here (ids, timestamps, counts); objects are maps from
 * their own property names.
 */
module JsonValues {
  import opened Results
  import opened Text

  datatype Json =
    | Undefined
    | Null
    | Bool(b: bool)
    | Num(n: int)
    | Str(s: string)
    | Arr(items: seq<Json>)
    | Obj(fields: map<string, Json>)

  /** `v == null` in JavaScript's loose sense: null or undefined. */
  predicate Nullish(v: Json) {
    v.Undefined? || v.Null?
  }

  /** JavaScript truthiness: false for undefined, null, false, 0 and the empty string. */
  predicate Truthy(v: Json) {
    match v
    case Undefined => false
    case Null => false
    case Bool(b) => b
    case Num(n) => n != 0
    case Str(s) => s != []
    case Arr(_) => true
    case Obj(_) => true
  }

  /**
   * The property read `v[key]`: a TypeError on null or undefined, the own
   * property of an object, and undefined for every other value.
   */
  function Prop(v: Json, key: string): (r: Result<Json>)
    ensures r.Err? <==> Nullish(v)
    ensures r.Ok? && r.value != Undefined ==> v.Obj? && key in v.fields && v.fields[key] == r.value
  {
    match v
    case Undefined => Err(TypeError)
    case Null => Err(TypeError)
    case Obj(m) => Ok(if key in m then m[key] else Undefined)
    case _ => Ok(Undefined)
  }

  /**
   * `a === b`. Two arrays or objects are never the same object here: every
   * one of them was built by its own JSON.parse or literal.
   */
  predicate StrictEquals(a: Json, b: Json) {
    !a.Arr? && !a.Obj? && a == b
  }

  /** `String(v)`: arrays join their elements with ',' and write null and undefined as "". */
  function JsString(v: Json): string
    decreases v
  {
    match v
    case Undefined => "undefined"
    case Null => "null"
    case Bool(b) => if b then "true" else "false"
    case Num(n) => IntToString(n)
    case Str(s) => s
    case Arr(items) =>
      Join(seq(|items|, i requires 0 <= i < |items| =>
        if Nullish(items[i]) then [] else JsString(items[i])), ',')
    case Obj(_) => "[object Object]"
  }
}
