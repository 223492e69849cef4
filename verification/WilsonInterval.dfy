/** The Wilson interval of a bin (engine/src/calibrate-internal-scores.ts), in exact reals. */
module WilsonInterval {

  const Z: real := 1.96

  /** `z * z / n`. */
  function Weight(n: int): (a: real)
    requires n >= 1
  {
    Z * Z / n as real
  }

  function Agreement(correct: int, n: int): (p: real)
    requires 1 <= n && 0 <= correct <= n
    ensures 0.0 <= p <= 1.0 && p * n as real == correct as real
  {
    AgreementInRange(correct, n);
    correct as real / n as real
  }

  lemma AgreementInRange(correct: int, n: int)
    requires 1 <= n && 0 <= correct <= n
    ensures 0.0 <= correct as real / n as real <= 1.0
  {
    DivideLess(0.0, correct as real, n as real);
    DivideLess(correct as real, n as real, n as real);
  }

  lemma DivideLess(x: real, y: real, d: real)
    requires d > 0.0
    ensures x <= y <==> x / d <= y / d
  {
    var u, v := x / d, y / d;
    assert x == u * d && y == v * d;
    if u <= v {
      assert (v - u) * d >= 0.0;
    } else {
      assert (u - v) * d > 0.0;
    }
  }

  /** The argument of the square root. */
  function Spread(p: real, n: int): real
    requires n >= 1
  {
    p * (1.0 - p) / n as real + Z * Z / (4 * n * n) as real
  }

  /** `root` is the non-negative square root of `x`. */
  predicate IsRoot(root: real, x: real) { root >= 0.0 && root * root == x }

  function Center(p: real, n: int): real
    requires n >= 1
  {
    (p + Z * Z / (2 * n) as real) / (1.0 + Weight(n))
  }

  function Margin(root: real, n: int): real
    requires n >= 1
  {
    Z * root / (1.0 + Weight(n))
  }

  // ---------------------------------------------------------------- the algebra behind it

  lemma WeightPositive(n: int)
    requires n >= 1
    ensures Weight(n) > 0.0 && Z * Z / (2 * n) as real == Weight(n) / 2.0
  {
    var a, d := Weight(n), n as real;
    assert a * d == Z * Z;
    var h := Z * Z / (2 * n) as real;
    assert (2 * n) as real == 2.0 * d;
    assert h * (2.0 * d) == Z * Z;
    assert (h * 2.0 - a) * d == 0.0;
  }

  /** `(z * root)^2 == a * p * (1 - p) + a^2 / 4`. */
  lemma MarginSquared(p: real, n: int, root: real)
    requires n >= 1 && IsRoot(root, Spread(p, n))
    ensures var a, m := Weight(n), Z * root; m * m == a * p * (1.0 - p) + a * a / 4.0
  {
    var a, d, v := Weight(n), n as real, p * (1.0 - p);
    var first, second := v / d, Z * Z / (4 * n * n) as real;
    assert a * d == Z * Z && first * d == v;
    assert (4 * n * n) as real == 4.0 * d * d by {
      assert (n * n) as real == d * d;
    }
    assert second * (4.0 * d * d) == Z * Z;
    assert Z * Z * first == a * v by {
      assert Z * Z * first == a * d * first == a * (d * first);
    }
    assert Z * Z * second == a * a / 4.0 by {
      assert (4.0 * (Z * Z * second) - a * a) * (d * d) == Z * Z * (second * (4.0 * d * d)) - (a * d) * (a * d) == 0.0;
    }
    assert (Z * root) * (Z * root) == Z * Z * (root * root) == Z * Z * first + Z * Z * second;
    assert a * v == a * p * (1.0 - p);
  }

  lemma Product(x: real, y: real)
    ensures x > 0.0 && y > 0.0 ==> x * y > 0.0
    ensures x >= 0.0 && y >= 0.0 ==> x * y >= 0.0
    ensures x < 0.0 && y > 0.0 ==> x * y < 0.0
  {
  }

  lemma SquareNonNegative(x: real)
    ensures x * x >= 0.0
  {
    Product(x, x);
    Product(-x, -x);
    assert (-x) * (-x) == x * x;
  }

  lemma LeqBySquares(x: real, m: real)
    requires m >= 0.0
    ensures -m <= x <= m <==> x * x <= m * m
  {
    if x > m {
      var u, v := x - m, x + m;
      Product(u, v);
      assert u * v == x * x - m * m;
    } else if x < -m {
      var u, v := -x - m, -x + m;
      Product(u, v);
      assert u * v == x * x - m * m;
    } else {
      var u, v := m - x, m + x;
      Product(u, v);
      assert u * v == m * m - x * x;
    }
  }

  lemma Scale(x: real, y: real, d: real)
    requires d > 0.0
    ensures x <= y <==> d * x <= d * y
  {
    assert d * (y - x) == d * y - d * x && d * (x - y) == d * x - d * y;
    Product(d, y - x);
    Product(d, x - y);
  }

  /** The square that decides membership, completed. */
  lemma CompletedSquare(p: real, a: real, q: real, m: real)
    requires m * m == a * p * (1.0 - p) + a * a / 4.0
    ensures var x := (1.0 + a) * q - (p + a / 2.0);
            x * x - m * m == (1.0 + a) * ((q - p) * (q - p) - a * q * (1.0 - q))
  {
    var d, b := 1.0 + a, p + a / 2.0;
    var x := d * q - b;
    assert x * x == d * d * q * q - 2.0 * d * q * b + b * b;
    assert b * b == p * p + a * p + a * a / 4.0;
    assert b * b - m * m == p * p * d by {
      assert a * p * (1.0 - p) == a * p - a * p * p;
    }
    assert (q - p) * (q - p) - a * q * (1.0 - q) == d * q * q - 2.0 * q * b + p * p by {
      assert (q - p) * (q - p) == q * q - 2.0 * q * p + p * p;
      assert a * q * (1.0 - q) == a * q - a * q * q;
      assert d * q * q == q * q + a * q * q;
      assert 2.0 * q * b == 2.0 * q * p + a * q;
    }
    assert d * (d * q * q - 2.0 * q * b + p * p) == d * d * q * q - 2.0 * d * q * b + p * p * d;
  }

  // ---------------------------------------------------------------- the interval

  /** A rate `q` that the observed agreement does not contradict: its squared distance is within z^2 variances. */
  predicate Plausible(p: real, n: int, q: real)
    requires n >= 1
  {
    CloseEnough(p, Weight(n), q)
  }

  predicate CloseEnough(p: real, a: real, q: real) { (q - p) * (q - p) <= a * q * (1.0 - q) }

  /** The unclamped interval is exactly the set of plausible rates. */
  lemma WilsonExactly(p: real, n: int, root: real, q: real)
    requires n >= 1 && IsRoot(root, Spread(p, n))
    ensures Center(p, n) - Margin(root, n) <= q <= Center(p, n) + Margin(root, n) <==> Plausible(p, n, q)
  {
    Unscaled(p, n, root, q);
    UnscaledIsPlausible(p, n, root, q);
  }

  lemma UnscaledIsPlausible(p: real, n: int, root: real, q: real)
    requires n >= 1 && IsRoot(root, Spread(p, n))
    ensures Near((1.0 + Weight(n)) * q, p + Weight(n) / 2.0, Z * root) <==> Plausible(p, n, q)
  {
    MarginBalanced(p, n, root);
    Membership(p, Weight(n), q, Z * root);
  }

  predicate Balanced(p: real, a: real, m: real) { a > 0.0 && m >= 0.0 && m * m == a * p * (1.0 - p) + a * a / 4.0 }

  lemma MarginBalanced(p: real, n: int, root: real)
    requires n >= 1 && IsRoot(root, Spread(p, n))
    ensures Balanced(p, Weight(n), Z * root)
  {
    WeightPositive(n);
    MarginSquared(p, n, root);
  }

  predicate Near(x: real, y: real, distance: real) { -distance <= x - y <= distance }

  lemma Membership(p: real, a: real, q: real, m: real)
    requires Balanced(p, a, m)
    ensures Near((1.0 + a) * q, p + a / 2.0, m) <==> CloseEnough(p, a, q)
  {
    CompletedSquare(p, a, q, m);
    Decide((1.0 + a) * q - (p + a / 2.0), m, 1.0 + a, (q - p) * (q - p) - a * q * (1.0 - q));
  }

  lemma Decide(x: real, m: real, d: real, e: real)
    requires m >= 0.0 && d > 0.0 && x * x - m * m == d * e
    ensures -m <= x <= m <==> e <= 0.0
  {
    LeqBySquares(x, m);
    Scale(e, 0.0, d);
  }

  /** Membership, multiplied by the denominator. */
  lemma Unscaled(p: real, n: int, root: real, q: real)
    requires n >= 1
    ensures Center(p, n) - Margin(root, n) <= q <= Center(p, n) + Margin(root, n) <==>
            Near((1.0 + Weight(n)) * q, p + Weight(n) / 2.0, Z * root)
  {
    WeightPositive(n);
    var d, c, g := 1.0 + Weight(n), Center(p, n), Margin(root, n);
    assert d * c == p + Weight(n) / 2.0 && d * g == Z * root;
    assert d * (q - c) == d * q - d * c && d * (-g) == -(d * g);
    Scale(q - c, g, d);
    Scale(-g, q - c, d);
  }

  lemma PlausibleIsRate(p: real, n: int, q: real)
    requires n >= 1
    ensures Plausible(p, n, q) ==> 0.0 <= q <= 1.0
  {
    WeightPositive(n);
    var a := Weight(n);
    assert a * q * (1.0 - q) == a * (q * (1.0 - q));
    SquareNonNegative(q - p);
    Product(q, 1.0 - q);
    Product(1.0 - q, q);
    var v := q * (1.0 - q);
    assert q < 0.0 || q > 1.0 ==> v < 0.0;
    Product(v, a);
    assert v * a == a * v;
  }

  /** The unclamped interval lies in [0, 1] and contains the observed agreement. */
  lemma WilsonInUnit(correct: int, n: int, root: real)
    requires 1 <= n && 0 <= correct <= n && IsRoot(root, Spread(Agreement(correct, n), n))
    ensures var p := Agreement(correct, n);
            0.0 <= Center(p, n) - Margin(root, n) <= p <= Center(p, n) + Margin(root, n) <= 1.0
  {
    var p := Agreement(correct, n);
    var c, g := Center(p, n), Margin(root, n);
    WeightPositive(n);
    assert g >= 0.0 by {
      DivideLess(0.0, Z * root, 1.0 + Weight(n));
    }
    WilsonExactly(p, n, root, c - g);
    WilsonExactly(p, n, root, c + g);
    PlausibleIsRate(p, n, c - g);
    PlausibleIsRate(p, n, c + g);
    assert Plausible(p, n, p) by {
      Product(Weight(n), p);
      Product(Weight(n) * p, 1.0 - p);
    }
    WilsonExactly(p, n, root, p);
  }
}
