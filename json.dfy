/** JSON-like values as the handlers see them, with JavaScript's truthiness and string conversion. */
module Json {
  import opened Numbers

  /** `Null` is JSON null; `Undefined` is a key that is present with value `undefined`. */
  datatype Value = Str(text: string) | Bool(flag: bool) | Num(number: Number) | Null | Undefined

  /** A plain object: field name to value. */
  type Record = map<string, Value>

  /** `obj[key]`: an absent key reads as undefined. */
  function Get(r: Record, key: string): Value {
    if key in r then r[key] else Undefined
  }

  /** JavaScript truthiness: '', false, 0, NaN, null and undefined are falsy. */
  predicate Truthy(v: Value) {
    match v
    case Str(t) => t != ""
    case Bool(f) => f
    case Num(n) => n.Int? && n.i != 0
    case Null => false
    case Undefined => false
  }

  /** `String(v ?? '')`. */
  function AsText(v: Value): string {
    match v
    case Str(t) => t
    case Bool(f) => if f then "true" else "false"
    case Num(n) => NumberToString(n)
    case Null => ""
    case Undefined => ""
  }

  /** `${v || fallback}` in a template literal. */
  function OrText(v: Value, fallback: string): (t: string)
    ensures Truthy(v) ==> t == AsText(v) && t != ""
    ensures !Truthy(v) ==> t == fallback
  {
    if Truthy(v) then AsText(v) else fallback
  }

  /** `${v}` in a template literal: unlike `AsText`, null and undefined are spelled out. */
  function TemplateText(v: Value): (t: string)
    ensures v != Null && v != Undefined ==> t == AsText(v)
  {
    match v
    case Null => "null"
    case Undefined => "undefined"
    case _ => AsText(v)
  }
}
