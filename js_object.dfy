/**
 * Plain JavaScript objects as the issue filter stores see them: records from
 * string keys to a small universe of values, read with `obj[key]` and merged
 * with object spread.
 */
module JsObject {

  /** A value that may be `undefined`. */
  datatype Option<+T> = None | Some(value: T)

  /**
   * The values a filter record holds. `Undefined` is a key explicitly set to
   * `undefined`; reading a key that is absent gives `Undefined` as well.
   * Filter dimensions hold string lists, display filters hold strings, null
   * or booleans, display properties hold booleans.
   */
  datatype Value = Undefined | Null | Bool(b: bool) | Str(s: string) | Strs(items: seq<string>)

  /** A plain object: the keys `Object.keys` would list, with their values. */
  type Rec = map<string, Value>

  /** `obj[key]`: a missing key reads as `undefined`. */
  function Get(r: Rec, key: string): Value
  {
    if key in r then r[key] else Undefined
  }

  /**
   * Object spread `{ ...a, ...b }` is map union with `b` winning on shared
   * keys (`a + b`); writing one key afterwards is the same as spreading a
   * one-key object.
   */
  lemma SpreadThenSet(a: Rec, b: Rec, k: string, v: Value)
    ensures (a + b)[k := v] == a + b[k := v]
    ensures a[k := v] == a + map[k := v]
  {
  }
}
