/** Squares and products of reals, and the few laws of an ordered field that
    the sizing proofs need.  A square is a function of its own so that the
    solver meets it as one term rather than as a power. */
module Reals {

  function Product(x: real, y: real): (p: real)
    ensures x > 0.0 && y > 0.0 ==> p > 0.0
    ensures x == 0.0 || y == 0.0 ==> p == 0.0
    ensures x < 0.0 && y < 0.0 ==> p > 0.0
  {
    x * y
  }

  function Square(x: real): (s: real)
    ensures s >= 0.0
    ensures s == 0.0 <==> x == 0.0
  {
    Product(x, x)
  }

  lemma ProductSum(a: real, b: real, c: real, d: real)
    ensures Product(a + b, c + d) == Product(a, c) + Product(a, d) + Product(b, c) + Product(b, d)
  {
  }

  lemma SquareDifference(a: real, b: real)
    ensures Square(b) - Square(a) == Product(b - a, b + a)
  {
    ProductSum(b, -a, b, a);
    assert Product(-a, b) == -Product(b, a) && Product(-a, a) == -Product(a, a);
  }

  lemma SquareMonotone(a: real, b: real)
    requires a >= 0.0 && b >= 0.0
    ensures a <= b <==> Square(a) <= Square(b)
    ensures a == b <==> Square(a) == Square(b)
  {
    SquareDifference(a, b);
    SquareDifference(b, a);
  }

  lemma SquareOfProduct(a: real, b: real)
    ensures Square(a * b) == Square(a) * Square(b)
  {
    assert a * b * (a * b) == a * a * (b * b);
  }

  /** Scaling by a positive number keeps every comparison. */
  lemma Scale(a: real, b: real, c: real)
    requires c > 0.0
    ensures a <= b <==> a * c <= b * c
    ensures a == b <==> a * c == b * c
  {
    if a < b {
      assert (b - a) * c > 0.0;
    } else if b < a {
      assert (a - b) * c > 0.0;
    }
  }

  lemma DivMul(x: real, y: real)
    requires y != 0.0
    ensures x / y * y == x
  {
  }

  lemma DivPositive(x: real, y: real)
    requires x > 0.0 && y > 0.0
    ensures x / y > 0.0
  {
    DivMul(x, y);
  }

  /** A quotient is the only solution of its defining product. */
  lemma DivUnique(q: real, x: real, y: real)
    requires y > 0.0 && q * y == x
    ensures q == x / y
  {
    DivMul(x, y);
    Scale(q, x / y, y);
  }

  lemma DivMonotone(x: real, y: real, d: real)
    requires d > 0.0
    ensures x / d <= y / d <==> x <= y
  {
    DivMul(x, d);
    DivMul(y, d);
    Scale(x / d, y / d, d);
  }

  lemma NonnegativeProduct(a: real, b: real)
    requires a >= 0.0 && b >= 0.0
    ensures a * b >= 0.0
  {
    assert Product(a, b) == a * b;
  }
}
