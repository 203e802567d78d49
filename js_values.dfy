/** JavaScript values as the component sees them: optional numbers and their truthiness. */
module JsValues {

  /** `T | undefined` (or `T | null`): None is the absent value. */
  datatype Option<+T> = None | Some(value: T)

  /** A `number | undefined` is truthy when it is present and not 0 (pixel sizes are
      integers here, so NaN does not arise). */
  predicate Truthy(n: Option<int>) {
    n.Some? && n.value != 0
  }

  /** `n || 0`: the effective previous value used by the grow comparisons. */
  function OrZero(n: Option<int>): int {
    if Truthy(n) then n.value else 0
  }

  /** `a || b` on two `number | undefined` values. */
  function Or(a: Option<int>, b: Option<int>): Option<int> {
    if Truthy(a) then a else b
  }

  /** `s || t` on two numbers. */
  function OrNumber(s: int, t: int): int {
    if s != 0 then s else t
  }
}
