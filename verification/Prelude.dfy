/** Values and small arithmetic facts shared by every module of the model. */
module Prelude {

  datatype Option<+T> = None | Some(value: T)

  function MaxReal(a: real, b: real): real { if a < b then b else a }

  function MinReal(a: real, b: real): real { if a < b then a else b }

  function AbsReal(a: real): real { if a < 0.0 then -a else a }

  /** `x` is a whole multiple of `step`; the exact Decimal test `x % step == 0`. */
  predicate OnGrid(x: real, step: real)
    requires step != 0.0
  {
    (x / step).Floor as real == x / step
  }

  /** On the grid means a whole number of steps, and the floor counts them. */
  lemma OnGridMeans(x: real, step: real, k: int)
    requires step != 0.0
    ensures k as real * step == x ==> OnGrid(x, step)
    ensures OnGrid(x, step) ==> (x / step).Floor as real * step == x
  {
    DivMul(x, step);
    if k as real * step == x {
      DivOfMul(k as real, step);
      assert x / step == k as real;
    }
  }

  lemma DivMul(a: real, b: real)
    requires b != 0.0
    ensures a / b * b == a
  {}

  lemma MulLe(a: real, b: real, c: real)
    requires a <= b && 0.0 <= c
    ensures a * c <= b * c
  {}

  lemma DivLe(a: real, b: real, c: real)
    requires a <= b && 0.0 < c
    ensures a / c <= b / c
  {
    var p, q := a / c, b / c;
    assert p * c == a && q * c == b;
  }

  lemma DivPositive(a: real, b: real)
    requires 0.0 < b
    ensures 0.0 < a ==> 0.0 < a / b
    ensures 0.0 <= a ==> 0.0 <= a / b
  {
    DivMul(a, b);
  }

  /** The quotient that reproduces a product is unique. */
  lemma DivOfMul(k: real, b: real)
    requires b != 0.0
    ensures k * b / b == k
  {
    DivMul(k * b, b);
  }

  lemma CancelLe(a: real, b: real, c: real)
    requires a * c <= b * c && 0.0 < c
    ensures a <= b
  {
    DivLe(a * c, b * c, c);
    DivOfMul(a, c);
    DivOfMul(b, c);
  }
}
