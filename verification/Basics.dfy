// Shared helpers: optional values, bounds on reals, and the arithmetic facts
// about products that the solver needs spelled out.

module Basics {

  datatype Option<+T> = None | Some(value: T)

  function Min(a: real, b: real): real {
    if a <= b then a else b
  }

  function Max(a: real, b: real): real {
    if a >= b then a else b
  }

  // The least integer that is not below x.
  function Ceiling(x: real): int {
    -((-x).Floor)
  }

  lemma MulMonotone(k: real, x: real, y: real)
    requires k >= 0.0 && x <= y
    ensures k * x <= k * y
  {
    assert k * (y - x) >= 0.0;
  }

  lemma MulSplit(k: real, x: real, y: real)
    ensures k * (x + y) == k * x + k * y
  {
  }

  lemma MulStrict(k: real, x: real, y: real)
    requires k > 0.0
    ensures x <= y <==> k * x <= k * y
  {
    if x > y {
      assert k * (x - y) > 0.0;
      assert k * (x - y) == k * x - k * y;
    } else {
      MulMonotone(k, x, y);
    }
  }

  lemma DivBound(k: real, x: real, y: real)
    requires k > 0.0
    ensures x / k <= y <==> x <= k * y
  {
    assert k * (x / k) == x;
    MulStrict(k, x / k, y);
  }

  lemma Associative<T>(a: seq<T>, b: seq<T>, c: seq<T>)
    ensures (a + b) + c == a + (b + c)
  {
  }

  lemma HeadTail<T>(x: T, s: seq<T>)
    ensures ([x] + s)[0] == x && ([x] + s)[1..] == s
  {
  }
}
