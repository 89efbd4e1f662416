/** The optional-value type used wherever the source returns `None`. */
module Wrappers {

  datatype Option<+T> = None | Some(value: T)

  /** True when an optional reading is absent or not negative. */
  predicate NonNegative(o: Option<real>)
  {
    o.None? || o.value >= 0.0
  }

  function Min(a: real, b: real): (m: real)
    ensures m <= a && m <= b
    ensures m == a || m == b
  {
    if a <= b then a else b
  }

  function Max(a: real, b: real): (m: real)
    ensures m >= a && m >= b
    ensures m == a || m == b
  {
    if a >= b then a else b
  }

  /** Multiplying by a non-negative factor preserves order. */
  lemma ScaleMonotone(a: real, b: real, k: real)
    requires a <= b && k >= 0.0
    ensures a * k <= b * k
  {
  }
}
