/** Small shared vocabulary: optional values, success/failure results and
    the real-number helpers the tax code relies on (`Math.max`, `Math.abs`). */
module Common {

  /** A value that may be absent, like an optional field of a JavaScript object. */
  datatype Option<+T> = None | Some(value: T)

  /** Either a value or an error, like the `{ success, data?, error? }` objects
      the validator returns. */
  datatype Result<+R, +E> = Success(value: R) | Failure(error: E)

  /** `Math.max(a, b)` on exact reals. */
  function Max(a: real, b: real): (r: real)
    ensures r >= a && r >= b
    ensures r == a || r == b
  {
    if a >= b then a else b
  }

  /** The smaller of two reals. */
  function Min(a: real, b: real): (r: real)
    ensures r <= a && r <= b
    ensures r == a || r == b
  {
    if a <= b then a else b
  }

  /** `Math.abs(x)` on exact reals. */
  function Abs(x: real): (r: real)
    ensures r >= 0.0
    ensures r == x || r == -x
  {
    if x < 0.0 then -x else x
  }
}
