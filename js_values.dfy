/** The few JavaScript value semantics the screens depend on: absent values,
    truthiness of strings, and `String.prototype.includes`. */
module JsValues {

  /** A value that may be `undefined` or `null` (`None`). */
  datatype Option<+T> = None | Some(value: T)

  /** Truthiness of a string: the empty string is the only falsy string. */
  predicate TruthyText(s: string)
    ensures TruthyText(s) <==> |s| > 0
  {
    s != ""
  }

  /** Truthiness of a possibly absent string: `undefined`, `null` and `""` are falsy. */
  predicate Truthy(o: Option<string>)
    ensures o == None ==> !Truthy(o)
    ensures o == Some("") ==> !Truthy(o)
    ensures Truthy(o) <==> o.Some? && |o.value| > 0
  {
    o.Some? && TruthyText(o.value)
  }

  /** `sub` occurs in `s` starting at index `i`. */
  predicate OccursAt(s: string, sub: string, i: int) {
    0 <= i && i + |sub| <= |s| && s[i..i + |sub|] == sub
  }

  /** `s.includes(sub)`: some index of `s` starts a copy of `sub`. */
  predicate Contains(s: string, sub: string)
    ensures Contains(s, sub) ==> |sub| <= |s|
    ensures OccursAt(s, sub, 0) ==> Contains(s, sub)
  {
    exists i | 0 <= i <= |s| :: OccursAt(s, sub, i)
  }
}
