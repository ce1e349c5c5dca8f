/** Values shared by the whole model: optional values, results that carry the
    exceptions the view lets escape, and Kotlin's integer division. */
module Base {

  datatype Option<+T> = None | Some(value: T)

  datatype Result<+T, +E> = Ok(value: T) | Err(error: E)

  /** The exceptions that escape from the view. */
  datatype Failure =
    | AnimationViewException(message: string)
      /** `(first..last).random()` on an empty range (`last < first`). */
    | EmptyRangeRandom(first: int, last: int)

  /** Kotlin's `/` on `Int` and `Long`: the quotient truncated toward zero
      (Dafny's own `/` is Euclidean). Only positive divisors occur here. */
  function Quot(a: int, b: int): (q: int)
    requires b > 0
    ensures a >= 0 ==> 0 <= q * b <= a < q * b + b
    ensures a < 0 ==> q * b - b < a <= q * b <= 0
  {
    if a >= 0 then
      EuclideanBounds(a, b);
      a / b
    else
      EuclideanBounds(-a, b);
      -((-a) / b)
  }

  lemma EuclideanBounds(a: nat, b: int)
    requires b > 0
    ensures 0 <= (a / b) * b <= a < (a / b) * b + b
  {
    assert a == (a / b) * b + a % b;
  }

  /** For a non-negative dividend the truncated quotient is the floor. */
  lemma QuotFloor(a: int, b: int)
    requires a >= 0 && b > 0
    ensures Quot(a, b) * b <= a < (Quot(a, b) + 1) * b
  {
    var q := Quot(a, b);
    assert (q + 1) * b == q * b + b;
  }

  /** Kotlin's `Float.toLong()`: drop the fraction, rounding toward zero. */
  function Truncate(x: real): (n: int)
    ensures x >= 0.0 ==> n as real <= x < n as real + 1.0
    ensures x < 0.0 ==> n as real - 1.0 < x <= n as real
  {
    if x >= 0.0 then x.Floor else -((-x).Floor)
  }
}
