/** Small shared vocabulary: optional values, the shape of JavaScript's
    number parsing, and distinctness of keys. */
module Common {

  /** A value that may be absent: JavaScript's `undefined`/`null`, or NaN
      where a number was parsed. */
  datatype Option<+T> = None | Some(value: T)

  /** `parseFloat` as the handlers use it: `None` stands for NaN, `Some(x)`
      for the number the longest numeric prefix denotes. Its internals are
      outside the model, so every operation that parses takes it as a
      parameter. */
  type Parser = string -> Option<real>

  /** `!isNaN(parseFloat(s)) && parseFloat(s) > 0`, the refinement the
      server applies to goals and tier amounts. */
  predicate PositiveNumber(s: string, parseFloat: Parser)
  {
    parseFloat(s).Some? && parseFloat(s).value > 0.0
  }

  /** No two positions of `s` hold the same value. */
  predicate Distinct<T(==)>(s: seq<T>)
  {
    forall i, j :: 0 <= i < j < |s| ==> s[i] != s[j]
  }
}
