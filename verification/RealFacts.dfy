/** Small facts about products and quotients of reals, each cheap for the solver on its own. */
module RealFacts {

  lemma ProductSign(x: real, y: real)
    ensures x >= 0.0 && y >= 0.0 ==> x * y >= 0.0
    ensures x <= 0.0 && y >= 0.0 ==> x * y <= 0.0
    ensures x > 0.0 && y > 0.0 ==> x * y > 0.0
    ensures x < 0.0 && y > 0.0 ==> x * y < 0.0
  {
  }

  lemma SquareNonNegative(x: real)
    ensures x * x >= 0.0
    ensures x != 0.0 ==> x * x > 0.0
  {
    if x >= 0.0 {
      ProductSign(x, x);
    } else {
      ProductSign(-x, -x);
      assert (-x) * (-x) == x * x;
    }
  }

  lemma SquareZero(x: real)
    requires x * x <= 0.0
    ensures x == 0.0
  {
    NotPositive(x, x);
    if x < 0.0 {
      assert (-x) * (-x) == x * x;
      NotPositive(-x, -x);
    }
  }

  lemma NotPositive(x: real, y: real)
    requires x * y <= 0.0
    ensures x <= 0.0 || y <= 0.0
  {
    ProductSign(x, y);
  }

  lemma ZeroTimes(z: real, k: real)
    requires z == 0.0
    ensures z * k == 0.0 && k * z == 0.0
  {
  }

  lemma MulMonotone(x: real, y: real, k: real)
    requires x <= y && k >= 0.0
    ensures x * k <= y * k
  {
    ProductSign(y - x, k);
    assert (y - x) * k == y * k - x * k;
  }

  lemma CancelFactor(x: real, y: real, k: real)
    requires x * k <= y * k && k > 0.0
    ensures x <= y
  {
    ProductSign(x - y, k);
    assert (x - y) * k == x * k - y * k;
  }

  lemma SquaresOrder(x: real, y: real)
    requires x * x <= y * y && y >= 0.0
    ensures x <= y
  {
    ProductSign(x - y, x);
    ProductSign(x - y, y);
    assert (x - y) * x == x * x - x * y;
    assert (x - y) * y == x * y - y * y;
  }

  lemma Quotient(x: real, y: real)
    requires y != 0.0
    ensures (x / y) * y == x
  {
  }

  lemma QuotientUnique(q: real, x: real, y: real)
    requires y != 0.0 && q * y == x
    ensures x / y == q
  {
    var p := x / y;
    Quotient(x, y);
    assert (q - p) * y == q * y - p * y;
    if q != p {
      NonZeroProduct(q - p, y);
    }
  }

  lemma NonZeroProduct(x: real, y: real)
    requires x != 0.0 && y != 0.0
    ensures x * y != 0.0
  {
    if x > 0.0 && y > 0.0 { ProductSign(x, y); }
    else if x > 0.0 { ProductSign(x, -y); assert x * (-y) == -(x * y); }
    else if y > 0.0 { ProductSign(-x, y); assert (-x) * y == -(x * y); }
    else { ProductSign(-x, -y); assert (-x) * (-y) == x * y; }
  }

  lemma QuotientSign(x: real, y: real)
    requires x >= 0.0 && y > 0.0
    ensures x / y >= 0.0
  {
    var q := x / y;
    Quotient(x, y);
    ProductSign(q, y);
  }

  lemma QuotientOfSum(x: real, y: real, k: real)
    requires k != 0.0
    ensures x / k + y / k == (x + y) / k
  {
    Quotient(x, k);
    Quotient(y, k);
    assert (x / k + y / k) * k == (x / k) * k + (y / k) * k;
    QuotientUnique(x / k + y / k, x + y, k);
  }

  lemma QuotientOfProduct(x: real, y: real, k: real)
    requires k != 0.0
    ensures (x / k) * y == (x * y) / k
  {
    Quotient(x, k);
    assert ((x / k) * y) * k == ((x / k) * k) * y;
    QuotientUnique((x / k) * y, x * y, k);
  }

  lemma QuotientTwice(x: real, y: real, z: real)
    requires y != 0.0 && z != 0.0
    ensures y * z != 0.0 && (x / y) / z == x / (y * z)
  {
    NonZeroProduct(y, z);
    var q := (x / y) / z;
    Quotient(x / y, z);
    Quotient(x, y);
    assert q * (y * z) == (q * z) * y;
    QuotientUnique(q, x, y * z);
  }

  /** a / p <= b / q from the cross-multiplied inequality. */
  lemma CrossDivide(a: real, p: real, b: real, q: real)
    requires p > 0.0 && q > 0.0 && a * q <= b * p
    ensures a / p <= b / q
  {
    var x, y := a / p, b / q;
    Quotient(a, p);
    Quotient(b, q);
    assert x * (p * q) == (x * p) * q;
    assert y * (p * q) == (y * q) * p;
    ProductSign(p, q);
    CancelFactor(x, y, p * q);
  }
}
