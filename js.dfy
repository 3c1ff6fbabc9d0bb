/**
 The small part of JavaScript's value semantics that the gateway's handler
 relies on: absent values (`null` / `undefined`), JSON values, truthiness as
 tested by `!x` and `x || y`, and `String.prototype.startsWith`.
 */
module Js {

  /** A value that may be absent: `None` stands for `null` or `undefined`. */
  datatype Option<+T> = None | Some(value: T)

  /** A JSON value, as `request.json()`, `response.json()` or a translator yields it. */
  datatype Json =
    | Null
    | Bool(b: bool)
    | Num(n: real)
    | Str(s: string)
    | Arr(items: seq<Json>)
    | Obj(fields: map<string, Json>)

  /** Truthiness of a `string | null | undefined` value: only a non-empty string is truthy. */
  predicate Truthy(v: Option<string>) {
    v.Some? && v.value != ""
  }

  /** Truthiness of a property read from a JSON object (`None` is `undefined`). */
  predicate JsonTruthy(v: Option<Json>) {
    match v
    case None => false
    case Some(Null) => false
    case Some(Bool(b)) => b
    case Some(Num(n)) => n != 0.0
    case Some(Str(s)) => s != ""
    case Some(Arr(_)) => true
    case Some(Obj(_)) => true
  }

  /** Property access `v.key` on a value other than `null`: `undefined` unless
      `v` is an object holding `key`. On `null` the access throws, so callers
      test for `Null` before reading. */
  function Property(v: Json, key: string): Option<Json> {
    if v.Obj? && key in v.fields then Some(v.fields[key]) else None
  }

  /** `a || fallback` for a string-or-absent `a` and a string `fallback`. */
  function Or(a: Option<string>, fallback: string): string {
    if Truthy(a) then a.value else fallback
  }

  /** `s.startsWith(prefix)`: the first `|prefix|` characters of `s` are `prefix`. */
  predicate StartsWith(s: string, prefix: string) {
    |prefix| <= |s| && s[..|prefix|] == prefix
  }
}
