/** Small vocabulary shared by every module of the model: an optional value
    (Python's `None` versus a value), absolute value and maximum on reals, and
    Python's `int()` conversion of a float. */
module Base {

  /** A value that may be absent; `None` models Python's `None` result. */
  datatype Option<+T> = None | Some(value: T)

  function Abs(x: real): real
  {
    if x < 0.0 then -x else x
  }

  function Max(a: real, b: real): real
  {
    if a < b then b else a
  }

  function MinNat(a: nat, b: nat): nat
  {
    if a < b then a else b
  }

  /** Python's `int(x)` on a float: truncation toward zero (not the floor). */
  function Trunc(r: real): (t: int)
    ensures 0.0 <= r ==> t as real <= r < t as real + 1.0
    ensures r < 0.0 ==> t as real - 1.0 < r <= t as real
    ensures Abs(t as real) <= Abs(r)
  {
    if r >= 0.0 then r.Floor else -((-r).Floor)
  }
}
