/**
 * Divisibility over the integers, and the greatest common divisor as a
 * specification: the common divisors of two numbers are exactly the
 * divisors of their gcd.
 */
module Divisibility {

  function Abs(x: int): nat { if x < 0 then -x else x }

  /** `c` is a positive divisor of `x`. */
  predicate Divides(c: int, x: int) { c > 0 && x % c == 0 }

  /** `g` is the non-negative greatest common divisor of `a` and `b`. */
  ghost predicate IsGcd(g: int, a: int, b: int) {
    g >= 0 && forall c :: Divides(c, g) <==> Divides(c, a) && Divides(c, b)
  }

  /** `a` and `b` have no common divisor but 1. */
  ghost predicate Coprime(a: int, b: int) {
    forall c :: Divides(c, a) && Divides(c, b) ==> c == 1
  }

  /** Euclid's algorithm on natural numbers, as a reference definition. */
  function Gcd(a: nat, b: nat): (g: nat)
    ensures a > 0 || b > 0 ==> g > 0
    decreases b
  {
    if b == 0 then a else Gcd(b, a % b)
  }

  lemma MulMonotone(c: int, a: int, b: int)
    requires c >= 0 && a <= b
    ensures c * a <= c * b
  {
    assert c * b - c * a == c * (b - a);
  }

  /** Euclidean division is unique: a quotient and remainder in range are the ones `/` and `%` give. */
  lemma DivModUnique(x: int, c: int, q: int, r: int)
    requires c > 0 && 0 <= r < c && x == c * q + r
    ensures x / c == q && x % c == r
  {
    var q', r' := x / c, x % c;
    assert x == c * q' + r';
    assert c * (q - q') == r' - r;
    if q - q' >= 1 {
      MulMonotone(c, 1, q - q');
    } else if q' - q >= 1 {
      MulMonotone(c, 1, q' - q);
    }
  }

  lemma ModAddMultiple(x: int, c: int, k: int)
    requires c > 0
    ensures (x + c * k) % c == x % c
  {
    assert x + c * k == c * (x / c + k) + x % c;
    DivModUnique(x + c * k, c, x / c + k, x % c);
  }

  lemma DividesProduct(c: int, m: int)
    requires c > 0
    ensures Divides(c, c * m)
  {
    DivModUnique(c * m, c, m, 0);
  }

  lemma DividesNegation(c: int, x: int)
    ensures Divides(c, -x) <==> Divides(c, x)
  {
    if c > 0 {
      if x % c == 0 {
        assert -x == c * -(x / c);
        DividesProduct(c, -(x / c));
      }
      if (-x) % c == 0 {
        assert x == c * -((-x) / c);
        DividesProduct(c, -((-x) / c));
      }
    }
  }

  /** Subtracting a multiple of `b` from `a` keeps the common divisors of `a` and `b`. */
  lemma DividesLinear(c: int, a: int, b: int, q: int)
    requires Divides(c, b)
    ensures Divides(c, a - q * b) <==> Divides(c, a)
  {
    var m := b / c;
    assert b == c * m;
    assert a - q * b == a + c * (-(q * m));
    ModAddMultiple(a, c, -(q * m));
  }

  /** A positive divisor of a positive number is no larger than it. */
  lemma DividesBound(c: int, x: int)
    requires Divides(c, x) && x > 0
    ensures c <= x
  {
    var q := x / c;
    assert x == c * q;
    if q < 1 {
      MulMonotone(c, q, 0);
    }
    MulMonotone(c, 1, q);
  }

  lemma DividesZero(c: int)
    requires c > 0
    ensures Divides(c, 0)
  {
  }

  /** Only the number itself and nothing else has every positive number as a divisor: zero. */
  lemma AllDivideOnlyZero(x: int)
    requires forall c :: c > 0 ==> Divides(c, x)
    ensures x == 0
  {
    var c := Abs(x) + 1;
    assert Divides(c, x);
    if x > 0 {
      DividesBound(c, x);
    } else if x < 0 {
      DividesNegation(c, x);
      DividesBound(c, -x);
    }
  }

  lemma {:induction false} GcdIsGcd(a: nat, b: nat)
    ensures IsGcd(Gcd(a, b), a, b)
    decreases b
  {
    if b != 0 {
      GcdIsGcd(b, a % b);
      forall c | c > 0
        ensures Divides(c, a % b) && Divides(c, b) <==> Divides(c, a) && Divides(c, b)
      {
        assert a % b == a - (a / b) * b;
        if Divides(c, b) {
          DividesLinear(c, a, b, a / b);
        }
      }
    }
  }

  /** The gcd specification determines its value. */
  lemma GcdUnique(g1: int, g2: int, a: int, b: int)
    requires IsGcd(g1, a, b) && IsGcd(g2, a, b)
    ensures g1 == g2
  {
    if g1 == 0 || g2 == 0 {
      var o := if g1 == 0 then g2 else g1;
      forall c | c > 0 ensures Divides(c, o) {
        DividesZero(c);
      }
      AllDivideOnlyZero(o);
    } else {
      DividesProduct(g1, 1);
      DividesProduct(g2, 1);
      assert Divides(g1, g2) && Divides(g2, g1);
      DividesBound(g1, g2);
      DividesBound(g2, g1);
    }
  }

  /** The gcd is zero exactly when both numbers are, and is otherwise a common divisor no smaller than any other. */
  lemma GcdIsGreatest(g: int, a: int, b: int)
    requires IsGcd(g, a, b)
    ensures g == 0 <==> a == 0 && b == 0
    ensures g > 0 ==> Divides(g, a) && Divides(g, b)
    ensures g > 0 ==> forall c :: Divides(c, a) && Divides(c, b) ==> c <= g
  {
    if g == 0 {
      forall c | c > 0 ensures Divides(c, a) && Divides(c, b) {
        DividesZero(c);
      }
      AllDivideOnlyZero(a);
      AllDivideOnlyZero(b);
    } else {
      DividesProduct(g, 1);
      forall c | Divides(c, a) && Divides(c, b) ensures c <= g {
        DividesBound(c, g);
      }
    }
    if a == 0 && b == 0 {
      forall c | c > 0 ensures Divides(c, g) {
        DividesZero(c);
      }
      AllDivideOnlyZero(g);
    }
  }

  /** Dividing two numbers by their gcd leaves them coprime. */
  lemma QuotientsByGcdCoprime(g: int, a: int, b: int)
    requires IsGcd(g, a, b) && g > 0
    ensures Divides(g, a) && Divides(g, b)
    ensures IsGcd(1, a / g, b / g)
  {
    GcdIsGreatest(g, a, b);
    var a', b' := a / g, b / g;
    assert a == g * a' && b == g * b';
    forall c
      ensures Divides(c, 1) <==> Divides(c, a') && Divides(c, b')
    {
      if c == 1 {
        DividesProduct(1, a');
        DividesProduct(1, b');
      }
      if Divides(c, a') && Divides(c, b') {
        var m, n := a' / c, b' / c;
        assert a == (c * g) * m && b == (c * g) * n;
        DividesProduct(c * g, m);
        DividesProduct(c * g, n);
        assert Divides(c * g, g);
        DividesBound(c * g, g);
        assert c * g <= 1 * g;
      }
    }
  }
}
