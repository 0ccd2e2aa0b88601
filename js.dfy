/**
 * The parts of JavaScript's value semantics that the portfolio pages rely on:
 * optional values, truthiness, `??`, `||` on optional strings and optional
 * property access (`v?.k`).
 */
module Js {

  datatype Option<+T> = None | Some(value: T)

  /**
   * A JavaScript value as it arrives from the content API. `Nullish` stands
   * for both `null` and `undefined`; numbers are integers (NaN and fractions
   * are not modelled); an object is its map of own properties.
   */
  datatype Value =
    | Nullish
    | Bool(b: bool)
    | Num(n: int)
    | Str(s: string)
    | Arr(items: seq<Value>)
    | Obj(fields: map<string, Value>)

  /** JavaScript truthiness: `null`, `undefined`, `false`, `0` and `''` are falsy. */
  predicate Truthy(v: Value) {
    match v
    case Nullish => false
    case Bool(b) => b
    case Num(n) => n != 0
    case Str(s) => s != ""
    case Arr(_) => true
    case Obj(_) => true
  }

  /** `a ?? b`: the right operand only when the left one is null or undefined. */
  function Coalesce(a: Value, b: Value): Value
  {
    if a.Nullish? then b else a
  }

  /** `v?.k`: a property of an object, undefined for anything else or a missing key. */
  function Field(v: Value, k: string): Value
  {
    if v.Obj? && k in v.fields then v.fields[k] else Nullish
  }

  /** An optional string used as a condition: present and not `''`. */
  predicate Present(o: Option<string>) {
    o.Some? && o.value != ""
  }

  /** `o || d` for an optional string `o` and a string default `d`. */
  function OrElse(o: Option<string>, d: string): string
  {
    if Present(o) then o.value else d
  }

  /** `o || null` for an optional string: an empty string becomes null. */
  function OrNull(o: Option<string>): Option<string>
  {
    if Present(o) then o else None
  }
}
