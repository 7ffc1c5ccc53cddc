/**
 * The input boundary shared by every stage: the permissive numeric coercion of
 * `to_float` and the "a zero divisor counts as one" rule.
 *
 * A field arrives as the outcome of Python's `float(value)`: `Some(x)` when the
 * field was present and parsed to `x`, `None` when it was missing (a
 * `TypeError` on `None`) or did not parse (a `ValueError`).
 */
module Coercion {
  import opened Wrappers

  /** `to_float`: a parsed value is kept, anything else becomes 0.0. */
  function ToFloat(value: Option<real>): (r: real)
    ensures value.Some? ==> r == value.value
    ensures value.None? ==> r == 0.0
  {
    value.GetOr(0.0)
  }

  /** The volume guard `if v == 0: v = 1` used before a division or a multiplication. */
  function ZeroAsOne(v: real): (r: real)
    ensures r != 0.0
    ensures v != 0.0 ==> r == v
    ensures v == 0.0 ==> r == 1.0
  {
    if v == 0.0 then 1.0 else v
  }

  /** `dict.get(key)` on a parameter store whose values have already been parsed. */
  function Arg<K>(store: map<K, real>, key: K): (r: Option<real>)
    ensures r.Some? <==> key in store
    ensures r.Some? ==> r.value == store[key]
  {
    if key in store then Some(store[key]) else None
  }
}
