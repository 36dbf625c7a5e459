// Cosine similarity, src/cache/semantic.rs lines 206-227, over exact reals. The square
// root is a parameter.

module Similarity {
  import opened Basics

  type Vector = seq<real>

  ghost predicate IsSqrt(sqrt: real -> real) {
    forall x :: x >= 0.0 ==> sqrt(x) >= 0.0 && sqrt(x) * sqrt(x) == x
  }

  function Dot(a: Vector, b: Vector): real
    requires |a| == |b|
  {
    if a == [] then 0.0 else Dot(a[..|a| - 1], b[..|b| - 1]) + a[|a| - 1] * b[|b| - 1]
  }

  function Clamp(x: real): real {
    if x < -1.0 then -1.0 else if x > 1.0 then 1.0 else x
  }

  function Cosine(sqrt: real -> real, a: Vector, b: Vector): real {
    if |a| != |b| || a == [] then 0.0 else Ratio(sqrt, Dot(a, b), Dot(a, a), Dot(b, b))
  }

  function Ratio(sqrt: real -> real, dot: real, normA: real, normB: real): real {
    Quotient(dot, sqrt(normA), sqrt(normB))
  }

  function Quotient(dot: real, s: real, t: real): real {
    Over(dot, s * t)
  }

  function Over(dot: real, denom: real): real {
    if denom > 0.0 then Clamp(dot / denom) else 0.0
  }

  lemma DotEmpty()
    ensures Dot([], []) == 0.0
  {
  }

  lemma DotNext(a: Vector, b: Vector, i: nat)
    requires |a| == |b| && i < |a|
    ensures Dot(a[..i + 1], b[..i + 1]) == Dot(a[..i], b[..i]) + a[i] * b[i]
  {
    assert a[..i + 1][..i] == a[..i] && b[..i + 1][..i] == b[..i];
  }

  method CosineSimilarity(sqrt: real -> real, a: Vector, b: Vector) returns (similarity: real)
    ensures similarity == Cosine(sqrt, a, b)
  {
    hide Dot, Ratio;
    if |a| != |b| || |a| == 0 {
      return 0.0;
    }
    DotEmpty();
    var dot, normA, normB := 0.0, 0.0, 0.0;
    for i := 0 to |a|
      invariant dot == Dot(a[..i], b[..i])
      invariant normA == Dot(a[..i], a[..i]) && normB == Dot(b[..i], b[..i])
    {
      DotNext(a, b, i);
      DotNext(a, a, i);
      DotNext(b, b, i);
      dot := dot + a[i] * b[i];
      normA := normA + a[i] * a[i];
      normB := normB + b[i] * b[i];
    }
    assert a[..|a|] == a && b[..|b|] == b;
    similarity := Ratio(sqrt, dot, normA, normB);
  }

  lemma ProductPositive(x: real, y: real)
    requires x > 0.0 && y > 0.0
    ensures x * y > 0.0
  {
  }

  lemma DifferenceOfSquares(x: real, y: real)
    ensures (y - x) * (y + x) == y * y - x * x
  {
  }

  lemma SquareOfNegative(x: real)
    ensures (-x) * (-x) == x * x
  {
  }

  lemma SquareLess(x: real, y: real)
    requires 0.0 <= x < y
    ensures x * x < y * y
  {
    ProductPositive(y - x, y + x);
    DifferenceOfSquares(x, y);
  }

  lemma SquareZero(x: real)
    requires x * x <= 0.0
    ensures x == 0.0
  {
    SquareBounds(x, 0.0);
  }

  lemma SquareUnique(x: real, y: real)
    requires x >= 0.0 && y >= 0.0 && x * x == y * y
    ensures x == y
  {
    if x < y {
      SquareLess(x, y);
    } else if y < x {
      SquareLess(y, x);
    }
  }

  lemma SquareBounds(x: real, y: real)
    requires y >= 0.0 && x * x <= y * y
    ensures -y <= x <= y
  {
    if x > y {
      SquareLess(y, x);
    }
    if -x > y {
      SquareOfNegative(x);
      SquareLess(y, -x);
    }
  }

  lemma SquareNonNegative(x: real)
    ensures x * x >= 0.0
  {
  }

  lemma {:induction false} NormNonNegative(a: Vector)
    ensures Dot(a, a) >= 0.0
  {
    if a != [] {
      NormNonNegative(a[..|a| - 1]);
      SquareNonNegative(a[|a| - 1]);
    }
  }

  // One turn of the accumulating loop keeps dot^2 <= norm_a * norm_b.
  lemma CauchySchwarzStep(d: real, p: real, q: real, x: real, y: real)
    requires p >= 0.0 && q >= 0.0 && d * d <= p * q
    ensures (d + x * y) * (d + x * y) <= (p + x * x) * (q + y * y)
  {
    var cross := p * (y * y) + q * (x * x) - 2.0 * (d * (x * y));
    assert cross >= 0.0 by { CrossNonNegative(d, p, q, x, y); }
    assert (p + x * x) * (q + y * y) - (d + x * y) * (d + x * y) == (p * q - d * d) + cross;
  }

  lemma CrossNonNegative(d: real, p: real, q: real, x: real, y: real)
    requires p >= 0.0 && q >= 0.0 && d * d <= p * q
    ensures p * (y * y) + q * (x * x) - 2.0 * (d * (x * y)) >= 0.0
  {
    var cross := p * (y * y) + q * (x * x) - 2.0 * (d * (x * y));
    SquareNonNegative(x);
    if p == 0.0 {
      SquareZero(d);
      assert cross == q * (x * x);
      MulMonotone(q, 0.0, x * x);
    } else {
      ScaledCross(d, p, q, x, y);
      SquareNonNegative(p * y - d * x);
      MulMonotone(x * x, 0.0, p * q - d * d);
      MulStrict(p, 0.0, cross);
    }
  }

  // p * cross is a square plus a non-negative multiple of x^2.
  lemma ScaledCross(d: real, p: real, q: real, x: real, y: real)
    ensures
      p * (p * (y * y) + q * (x * x) - 2.0 * (d * (x * y))) ==
      (p * y - d * x) * (p * y - d * x) + (x * x) * (p * q - d * d)
  {
    var u, v := p * y, d * x;
    assert p * (p * (y * y)) == u * u;
    assert p * (d * (x * y)) == u * v;
    assert (d * d) * (x * x) == v * v;
    assert (u - v) * (u - v) == u * u - 2.0 * (u * v) + v * v;
    assert (x * x) * (p * q - d * d) == (x * x) * (p * q) - (d * d) * (x * x);
    assert p * (q * (x * x)) == (x * x) * (p * q);
  }

  lemma {:induction false} CauchySchwarz(a: Vector, b: Vector)
    requires |a| == |b|
    ensures Dot(a, b) * Dot(a, b) <= Dot(a, a) * Dot(b, b)
  {
    if a != [] {
      var a', b' := a[..|a| - 1], b[..|b| - 1];
      CauchySchwarz(a', b');
      NormNonNegative(a');
      NormNonNegative(b');
      CauchySchwarzStep(Dot(a', b'), Dot(a', a'), Dot(b', b'), a[|a| - 1], b[|b| - 1]);
    }
  }

  // ---- What the similarity is -----------------------------------------------------------------

  function Denominator(sqrt: real -> real, a: Vector, b: Vector): real {
    sqrt(Dot(a, a)) * sqrt(Dot(b, b))
  }

  lemma ProductSquare(s: real, t: real)
    ensures (s * t) * (s * t) == (s * s) * (t * t)
  {
  }

  lemma NormIsSquare(sqrt: real -> real, a: Vector)
    requires IsSqrt(sqrt)
    ensures sqrt(Dot(a, a)) >= 0.0 && sqrt(Dot(a, a)) * sqrt(Dot(a, a)) == Dot(a, a)
  {
    NormNonNegative(a);
  }

  lemma QuotientBounds(d: real, m: real)
    requires m > 0.0 && -m <= d <= m
    ensures -1.0 <= d / m <= 1.0
  {
    var q := d / m;
    assert m * q == d;
    MulStrict(m, q, 1.0);
    MulStrict(m, -1.0, q);
  }

  lemma Inside(d: real, s: real, t: real, m: real)
    requires m == s * t && m > 0.0 && -m <= d <= m
    ensures -1.0 <= d / m <= 1.0 && Quotient(d, s, t) == d / m
  {
    QuotientBounds(d, m);
  }

  lemma DotWithin(d: real, s: real, t: real, p: real, q: real)
    requires s >= 0.0 && t >= 0.0 && s * s == p && t * t == q && d * d <= p * q
    ensures -(s * t) <= d <= s * t
  {
    ProductSquare(s, t);
    MulNonNegative(s, t);
    SquareBounds(d, s * t);
  }

  lemma MulNonNegative(x: real, y: real)
    requires x >= 0.0 && y >= 0.0
    ensures x * y >= 0.0
  {
  }

  // The exact quotient lies in [-1, 1], so the clamp never changes it.
  lemma ClampIsIdle(sqrt: real -> real, a: Vector, b: Vector)
    requires IsSqrt(sqrt) && |a| == |b| && a != [] && Denominator(sqrt, a, b) > 0.0
    ensures -1.0 <= Dot(a, b) / Denominator(sqrt, a, b) <= 1.0
    ensures Cosine(sqrt, a, b) == Dot(a, b) / Denominator(sqrt, a, b)
  {
    hide Dot, Quotient;
    CauchySchwarz(a, b);
    NormIsSquare(sqrt, a);
    NormIsSquare(sqrt, b);
    var s, t, d := sqrt(Dot(a, a)), sqrt(Dot(b, b)), Dot(a, b);
    DotWithin(d, s, t, Dot(a, a), Dot(b, b));
    Inside(d, s, t, Denominator(sqrt, a, b));
  }

  // Vectors of different lengths, and the zero vector, are similar to nothing.
  lemma CosineOfNothing(sqrt: real -> real, a: Vector, b: Vector)
    requires IsSqrt(sqrt)
    ensures |a| != |b| ==> Cosine(sqrt, a, b) == 0.0
    ensures (forall i :: 0 <= i < |a| ==> a[i] == 0.0) ==> Cosine(sqrt, a, b) == 0.0
  {
    if |a| == |b| && forall i :: 0 <= i < |a| ==> a[i] == 0.0 {
      DotZero(a, a);
      NormIsSquare(sqrt, a);
      SquareZero(sqrt(Dot(a, a)));
      assert sqrt(Dot(a, a)) * sqrt(Dot(b, b)) == 0.0;
    }
  }

  lemma {:induction false} DotZero(a: Vector, b: Vector)
    requires |a| == |b| && forall i :: 0 <= i < |a| ==> a[i] == 0.0
    ensures Dot(a, b) == 0.0
  {
    if a != [] {
      DotZero(a[..|a| - 1], b[..|b| - 1]);
    }
  }

  lemma {:induction false} DotSymmetric(a: Vector, b: Vector)
    requires |a| == |b|
    ensures Dot(a, b) == Dot(b, a)
  {
    if a != [] {
      DotSymmetric(a[..|a| - 1], b[..|b| - 1]);
    }
  }

  lemma CosineSymmetric(sqrt: real -> real, a: Vector, b: Vector)
    ensures Cosine(sqrt, a, b) == Cosine(sqrt, b, a)
  {
    hide Dot;
    if |a| == |b| {
      DotSymmetric(a, b);
      assert sqrt(Dot(a, a)) * sqrt(Dot(b, b)) == sqrt(Dot(b, b)) * sqrt(Dot(a, a));
    }
  }

  function Scale(k: real, a: Vector): (r: Vector)
    ensures |r| == |a|
  {
    if a == [] then [] else Scale(k, a[..|a| - 1]) + [k * a[|a| - 1]]
  }

  lemma {:induction false} DotScale(k: real, a: Vector, b: Vector)
    requires |a| == |b|
    ensures Dot(Scale(k, a), b) == k * Dot(a, b)
  {
    if a != [] {
      var n := |a| - 1;
      DotScale(k, a[..n], b[..n]);
      assert Scale(k, a)[..n] == Scale(k, a[..n]);
      assert (k * a[n]) * b[n] == k * (a[n] * b[n]);
      MulSplit(k, Dot(a[..n], b[..n]), a[n] * b[n]);
    }
  }

  // Scaling by k > 0 scales the norm by k, and so leaves the similarity alone.
  lemma CosineScaleInvariant(sqrt: real -> real, k: real, a: Vector, b: Vector)
    requires IsSqrt(sqrt) && k > 0.0
    ensures Cosine(sqrt, Scale(k, a), b) == Cosine(sqrt, a, b)
  {
    hide Dot, Quotient, Scale;
    var ka := Scale(k, a);
    if |a| == |b| && a != [] {
      assert Cosine(sqrt, a, b) == Quotient(Dot(a, b), sqrt(Dot(a, a)), sqrt(Dot(b, b)));
      assert Cosine(sqrt, ka, b) == Quotient(Dot(ka, b), sqrt(Dot(ka, ka)), sqrt(Dot(b, b)));
      DotScale(k, a, b);
      NormScale(sqrt, k, a);
      NormIsSquare(sqrt, a);
      NormIsSquare(sqrt, b);
      QuotientScale(k, Dot(a, b), sqrt(Dot(a, a)), sqrt(Dot(b, b)), Dot(ka, b), sqrt(Dot(ka, ka)));
    }
  }

  lemma NormScale(sqrt: real -> real, k: real, a: Vector)
    requires IsSqrt(sqrt) && k > 0.0
    ensures sqrt(Dot(Scale(k, a), Scale(k, a))) == k * sqrt(Dot(a, a))
  {
    hide Dot;
    var ka, s := Scale(k, a), sqrt(Dot(a, a));
    DotScale(k, a, ka);
    DotSymmetric(a, ka);
    DotScale(k, a, a);
    NormIsSquare(sqrt, a);
    NormIsSquare(sqrt, ka);
    MulMonotone(k, 0.0, s);
    ProductSquare(k, s);
    assert (k * k) * Dot(a, a) == k * (k * Dot(a, a));
    SquareUnique(sqrt(Dot(ka, ka)), k * s);
  }

  lemma QuotientIs(d: real, s: real, t: real, m: real)
    requires m == s * t
    ensures Quotient(d, s, t) == Over(d, m)
  {
  }

  lemma QuotientScale(k: real, d: real, s: real, t: real, kd: real, ks: real)
    requires k > 0.0 && kd == k * d && ks == k * s
    ensures Quotient(kd, ks, t) == Quotient(d, s, t)
  {
    hide Over, Quotient;
    var m := s * t;
    var km := k * m;
    assert ks * t == km;
    QuotientIs(d, s, t, m);
    QuotientIs(kd, ks, t, km);
    OverScale(k, d, m, kd, km);
  }

  lemma OverScale(k: real, d: real, m: real, kd: real, km: real)
    requires k > 0.0 && kd == k * d && km == k * m
    ensures Over(kd, km) == Over(d, m)
  {
    MulStrict(k, m, 0.0);
    if m > 0.0 {
      var q := d / m;
      assert m * q == d;
      assert km * q == k * (m * q);
      DivUnique(kd, km, q);
    }
  }

  lemma DivUnique(x: real, y: real, q: real)
    requires y > 0.0 && y * q == x
    ensures x / y == q
  {
    var r := x / y;
    assert y * r == x;
    MulStrict(y, q, r);
    MulStrict(y, r, q);
  }

  lemma QuotientOfEqual(x: real, s: real)
    requires s * s == x && x > 0.0
    ensures Quotient(x, s, s) == 1.0
  {
    DivUnique(x, x, 1.0);
    assert Over(x, x) == 1.0;
    hide Over;
  }

  lemma {:induction false} NormPositive(a: Vector, i: nat)
    requires i < |a| && a[i] != 0.0
    ensures Dot(a, a) > 0.0
  {
    var n := |a| - 1;
    var square := a[n] * a[n];
    assert Dot(a, a) == Dot(a[..n], a[..n]) + square;
    hide Dot;
    SquareSign(a[n], square);
    if i == n {
      NormNonNegative(a[..n]);
    } else {
      NormPositive(a[..n], i);
    }
  }

  lemma SquareSign(x: real, square: real)
    requires square == x * x
    ensures square >= 0.0 && (x != 0.0 ==> square > 0.0)
  {
    SquareNonNegative(x);
    if square <= 0.0 {
      SquareZero(x);
    }
  }

  // A vector with a component that is not zero has similarity 1 with itself.
  lemma CosineOfSelf(sqrt: real -> real, a: Vector, i: nat)
    requires IsSqrt(sqrt) && i < |a| && a[i] != 0.0
    ensures Cosine(sqrt, a, a) == 1.0
  {
    hide Dot, Quotient;
    NormPositive(a, i);
    NormIsSquare(sqrt, a);
    QuotientOfEqual(Dot(a, a), sqrt(Dot(a, a)));
  }
}
