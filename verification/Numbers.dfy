/** Arithmetic shared by the models. */
module Numbers {

  function Min(a: real, b: real): real {
    if a <= b then a else b
  }

  function Max(a: real, b: real): real {
    if a <= b then b else a
  }

  /** Python's `int`: truncation toward zero. */
  function Trunc(x: real): int {
    if x >= 0.0 then x.Floor else -((-x).Floor)
  }

  /** `k` is the greatest integer that is at most `x`. */
  predicate RoundsDownTo(x: real, k: int) {
    k as real <= x < (k + 1) as real
  }

  /** On what is not negative this is rounding down; below 0 it is at most 0. */
  lemma TruncIsFloor(x: real, k: int)
    requires RoundsDownTo(x, k)
    ensures x >= 0.0 ==> Trunc(x) == k
    ensures x < 0.0 ==> k < 0 && Trunc(x) <= 0 && Trunc(x) == if x == k as real then k else k + 1
  {
  }

  lemma ProductNonNegative(a: real, b: real)
    requires a >= 0.0 && b >= 0.0
    ensures a * b >= 0.0
  {
  }

  lemma ScaleMonotone(f: real, a: real, b: real)
    requires f >= 0.0 && a <= b
    ensures f * a <= f * b
  {
    ProductNonNegative(f, b - a);
    assert f * (b - a) == f * b - f * a;
  }

  lemma ProductAssociative(a: real, b: real, c: real)
    ensures a * (b * c) == a * b * c
  {
  }

  lemma CompareScaled(f: real, k: real, a: real, b: real)
    requires f > 0.0 && k > 0.0
    ensures f * b * k > f * a * k <==> b > a
  {
    var g := f * k;
    assert g > 0.0 && f * a * k == g * a && f * b * k == g * b;
    if b > a {
      assert g * (b - a) > 0.0;
    } else {
      ScaleMonotone(g, b, a);
    }
  }

  lemma ProductNonPositive(f: real, a: real)
    requires f <= 0.0 && a >= 0.0
    ensures f * a <= 0.0
  {
    ProductNonNegative(-f, a);
    assert -f * a == -(f * a);
  }
}
