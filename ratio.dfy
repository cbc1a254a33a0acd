/**
 * `getRatio(width, height)`: the aspect ratio of a window size, printed as
 * "w:h" after dividing both sides by their greatest common divisor, which an
 * inner recursive `gcd` computes with Euclid's algorithm.
 */
module Ratio {
  import Decimal

  /** `d` divides `n` (only positive divisors are considered). */
  predicate Divides(d: nat, n: nat) {
    d > 0 && n % d == 0
  }

  /** The inner `gcd` (src/utils.ts:14): Euclid's algorithm on non-negative whole numbers, stopping when the second argument is zero. */
  function Gcd(a: nat, b: nat): (r: nat)
    ensures r == 0 <==> a == 0 && b == 0
    ensures b > 0 ==> r <= b
    decreases b
  {
    if b == 0 then a else Gcd(b, a % b)
  }

  function Quotient(n: nat, d: nat): nat
    requires d > 0
  {
    n / d
  }

  /** `getRatio`: both sides divided by their gcd; JavaScript prints 0/0 as NaN. */
  function GetRatio(width: nat, height: nat): string {
    var r := Gcd(width, height);
    if r == 0 then "NaN:NaN" else Decimal.Show(Quotient(width, r)) + ":" + Decimal.Show(Quotient(height, r))
  }

  // ---------------------------------------------------------------------
  // Arithmetic helpers

  lemma MulAtLeast(d: int, t: int)
    requires d > 0 && t >= 1
    ensures d * t >= d
  {
    assert d * t == d * (t - 1) + d;
    assert d * (t - 1) >= 0;
  }

  /** Quotient and remainder are the only ones: `n = d * q + r`, `0 <= r < d`. */
  lemma DivModUnique(n: int, d: int, q: int, r: int)
    requires d > 0 && n == d * q + r && 0 <= r < d
    ensures n / d == q && n % d == r
  {
    var q', r' := n / d, n % d;
    assert d * q' + r' == d * q + r;
    assert d * (q - q') == r' - r;
    if q - q' >= 1 {
      MulAtLeast(d, q - q');
    } else if q' - q >= 1 {
      MulAtLeast(d, q' - q);
    }
  }

  lemma MulDivides(d: nat, k: nat)
    requires d > 0
    ensures Divides(d, d * k) && (d * k) / d == k
  {
    DivModUnique(d * k, d, k, 0);
  }

  lemma DividesExact(d: nat, n: nat)
    requires Divides(d, n)
    ensures n == d * (n / d)
  {
  }

  /** Divisibility through Euclid's step: `a = b * (a / b) + a % b`. */
  lemma DividesEuclidStep(d: nat, a: nat, b: nat)
    requires b > 0 && Divides(d, b)
    ensures Divides(d, a % b) <==> Divides(d, a)
  {
    var x := b / d;
    DividesExact(d, b);
    var m := a / b;
    assert a == b * m + a % b;
    assert b * m == d * (x * m) by {
      assert b * m == (d * x) * m;
    }
    if Divides(d, a % b) {
      var y := (a % b) / d;
      DividesExact(d, a % b);
      assert a == d * (x * m + y);
      MulDivides(d, x * m + y);
    }
    if Divides(d, a) {
      var z := a / d;
      DividesExact(d, a);
      assert a % b == d * (z - x * m);
      DivModUnique(a % b, d, z - x * m, 0);
    }
  }

  lemma DividesLe(d: nat, n: nat)
    requires Divides(d, n) && n > 0
    ensures d <= n
  {
    DividesExact(d, n);
    var k := n / d;
    assert d * k >= d * 1;
  }

  // ---------------------------------------------------------------------
  // gcd is the greatest common divisor

  /** The inner `gcd` is zero only for (0, 0) and otherwise divides both sides. */
  lemma {:induction false} GcdDivides(a: nat, b: nat)
    ensures Gcd(a, b) == 0 <==> a == 0 && b == 0
    ensures Gcd(a, b) > 0 ==> Divides(Gcd(a, b), a) && Divides(Gcd(a, b), b)
    decreases b
  {
    if b > 0 {
      GcdDivides(b, a % b);
      DividesEuclidStep(Gcd(a, b), a, b);
    }
  }

  /** Every common divisor of the two sides divides their gcd. */
  lemma {:induction false} GcdGreatest(a: nat, b: nat, d: nat)
    requires Divides(d, a) && Divides(d, b)
    ensures Divides(d, Gcd(a, b))
    decreases b
  {
    if b > 0 {
      DividesEuclidStep(d, a, b);
      GcdGreatest(b, a % b, d);
    }
  }

  /** The base case: gcd(a, 0) = a; and for equal sides the gcd is the side. */
  lemma GcdBase(a: nat)
    ensures Gcd(a, 0) == a && Gcd(a, a) == a
  {
    if a > 0 {
      assert a % a == 0;
      assert Gcd(a, a) == Gcd(a, 0);
    }
  }

  /** gcd(k * a, k * b) = k * gcd(a, b): scaling both sides scales the gcd. */
  lemma {:induction false} GcdScale(k: nat, a: nat, b: nat)
    ensures Gcd(k * a, k * b) == k * Gcd(a, b)
    decreases b
  {
    if b > 0 && k > 0 {
      var m, r := a / b, a % b;
      assert k * a == (k * b) * m + k * r;
      MulAtLeast(k, b - r);
      DivModUnique(k * a, k * b, m, k * r);
      GcdScale(k, b, r);
    }
  }

  // ---------------------------------------------------------------------
  // What getRatio prints

  /** Dividing by the gcd is exact: both printed parts are whole and scale back to the sides. */
  lemma ReducedExact(width: nat, height: nat)
    requires width > 0 || height > 0
    ensures Gcd(width, height) > 0
    ensures var g := Gcd(width, height);
      width == g * Quotient(width, g) && height == g * Quotient(height, g)
  {
    GcdDivides(width, height);
  }

  /** If `c` divides `x`, then `g * c` divides `g * x`. */
  lemma ScaleDivides(g: nat, c: nat, x: nat)
    requires g > 0 && Divides(c, x)
    ensures Divides(g * c, g * x)
  {
    var k := x / c;
    DividesExact(c, x);
    assert g * x == (g * c) * k;
    MulDivides(g * c, k);
  }

  lemma OnlyUnitKeepsSize(g: nat, c: nat)
    requires g > 0 && c > 0 && g * c <= g
    ensures c == 1
  {
    if c > 1 {
      MulAtLeast(g, c - 1);
    }
  }

  /** The two printed parts are coprime. */
  lemma ReducedCoprime(width: nat, height: nat)
    requires width > 0 || height > 0
    ensures var g := Gcd(width, height);
      g > 0 && Gcd(Quotient(width, g), Quotient(height, g)) == 1
  {
    ReducedExact(width, height);
    var g := Gcd(width, height);
    var p, q := Quotient(width, g), Quotient(height, g);
    assert width == g * p && height == g * q;
    GcdDivides(p, q);
    var c := Gcd(p, q);
    ScaleDivides(g, c, p);
    ScaleDivides(g, c, q);
    GcdGreatest(width, height, g * c);
    DividesLe(g * c, g);
    OnlyUnitKeepsSize(g, c);
    assert Gcd(p, q) == 1;
  }

  /** The printed parts keep the proportion of the sides: p * height == q * width. */
  lemma ReducedProportional(width: nat, height: nat)
    requires width > 0 || height > 0
    ensures var g := Gcd(width, height);
      g > 0 && Quotient(width, g) * height == Quotient(height, g) * width
  {
    ReducedExact(width, height);
    var g := Gcd(width, height);
    ScaledProportion(width, height, g, Quotient(width, g), Quotient(height, g));
  }

  lemma ScaledProportion(width: nat, height: nat, g: nat, p: nat, q: nat)
    requires width == g * p && height == g * q
    ensures p * height == q * width
  {
    assert p * (g * q) == q * (g * p);
  }

  lemma CancelLeft(g: int, x: int, y: int)
    requires g > 0 && g * x == g * y
    ensures x == y
  {
    if x < y {
      MulAtLeast(g, y - x);
    } else if y < x {
      MulAtLeast(g, x - y);
    }
  }

  /** Euclid's lemma: if p divides n * q and p, q are coprime, p divides n. */
  lemma CoprimeDivides(p: nat, q: nat, n: nat)
    requires p > 0 && Gcd(p, q) == 1 && Divides(p, n * q)
    ensures Divides(p, n)
  {
    MulDivides(p, n);
    var np, nq := n * p, n * q;
    assert Divides(p, np) && Divides(p, nq);
    GcdGreatest(np, nq, p);
    GcdScale(n, p, q);
    assert Gcd(np, nq) == n;
  }

  /** Cancelling the common factor `g` from a proportion between `g * p : g * q` and `p' : q'`. */
  lemma CrossCancel(width: nat, height: nat, g: nat, p: nat, q: nat, p': nat, q': nat)
    requires g > 0 && width == g * p && height == g * q
    requires p' * height == q' * width
    ensures p' * q == q' * p
  {
    assert g * (p' * q) == g * (q' * p) by {
      assert p' * height == g * (p' * q);
      assert q' * width == g * (q' * p);
    }
    CancelLeft(g, p' * q, q' * p);
  }

  /** Two coprime pairs in the same proportion are the same pair. */
  lemma CoprimePairsEqual(p: nat, q: nat, p': nat, q': nat)
    requires p > 0 && p' > 0
    requires Gcd(p, q) == 1 && Gcd(p', q') == 1 && p' * q == q' * p
    ensures p == p' && q == q'
  {
    MulDivides(p, q');
    assert p * q' == p' * q;
    CoprimeDivides(p, q, p');
    MulDivides(p', q);
    assert p' * q == p * q';
    CoprimeDivides(p', q', p);
    DividesLe(p, p');
    DividesLe(p', p);
    CancelLeft(p, q, q');
  }

  lemma LowestTermsCore(width: nat, height: nat, g: nat, p: nat, q: nat, p': nat, q': nat)
    requires width > 0 && g > 0 && width == g * p && height == g * q
    requires Gcd(p, q) == 1 && p' > 0 && Gcd(p', q') == 1
    requires p' * height == q' * width
    ensures p == p' && q == q'
  {
    CrossCancel(width, height, g, p, q, p', q');
    CoprimePairsEqual(p, q, p', q');
  }

  /**
   * The printed ratio is THE lowest-terms form: any coprime positive pair in
   * the proportion of the sides is the one `getRatio` prints.
   */
  lemma LowestTermsUnique(width: nat, height: nat, p': nat, q': nat)
    requires width > 0 && height > 0 && p' > 0
    requires Gcd(p', q') == 1 && p' * height == q' * width
    ensures var g := Gcd(width, height);
      g > 0 && p' == Quotient(width, g) && q' == Quotient(height, g)
  {
    ReducedExact(width, height);
    ReducedCoprime(width, height);
    var g := Gcd(width, height);
    LowestTermsCore(width, height, g, Quotient(width, g), Quotient(height, g), p', q');
  }

  /** For positive sides `getRatio` prints the reduced parts, as decimal numerals. */
  lemma GetRatioParts(width: nat, height: nat)
    requires width > 0 && height > 0
    ensures var g := Gcd(width, height);
      g > 0 && GetRatio(width, height) == Decimal.Show(Quotient(width, g)) + ":" + Decimal.Show(Quotient(height, g))
  {
    GcdDivides(width, height);
  }

  /** "p:q" text determines p and q. */
  lemma RatioTextInjective(p1: nat, q1: nat, p2: nat, q2: nat)
    requires Decimal.Show(p1) + ":" + Decimal.Show(q1) == Decimal.Show(p2) + ":" + Decimal.Show(q2)
    ensures p1 == p2 && q1 == q2
  {
    var s1, s2 := Decimal.Show(p1), Decimal.Show(p2);
    var t1, t2 := ":" + Decimal.Show(q1), ":" + Decimal.Show(q2);
    Decimal.ConcatAssoc(s1, ":", Decimal.Show(q1));
    Decimal.ConcatAssoc(s2, ":", Decimal.Show(q2));
    assert s1 + t1 == s2 + t2;
    Decimal.ShowCanonical(p1);
    Decimal.ShowCanonical(p2);
    Decimal.DigitsPrefix(s1, t1, s2, t2);
    assert Decimal.Show(q1) == t1[1..] == t2[1..] == Decimal.Show(q2);
    Decimal.ShowInjective(p1, p2);
    Decimal.ShowInjective(q1, q2);
  }

  lemma Rearrange(a: int, b: int, c: int, d: int)
    ensures (a * b) * (c * d) == (a * c) * (b * d)
  {
  }

  lemma ScaledSameProportion(w1: nat, h1: nat, g1: nat, w2: nat, h2: nat, g2: nat, p: nat, q: nat)
    requires w1 == g1 * p && h1 == g1 * q && w2 == g2 * p && h2 == g2 * q
    ensures w1 * h2 == w2 * h1
  {
    Rearrange(g1, p, g2, q);
    Rearrange(g2, p, g1, q);
    assert g2 * g1 == g1 * g2 && q * p == p * q;
  }

  lemma SameProportionSameParts(w1: nat, h1: nat, g1: nat, p1: nat, q1: nat,
                                w2: nat, h2: nat, g2: nat, p2: nat, q2: nat)
    requires g1 > 0 && g2 > 0 && p1 > 0 && p2 > 0
    requires w1 == g1 * p1 && h1 == g1 * q1 && w2 == g2 * p2 && h2 == g2 * q2
    requires Gcd(p1, q1) == 1 && Gcd(p2, q2) == 1
    requires w1 * h2 == w2 * h1
    ensures p1 == p2 && q1 == q2
  {
    assert w1 * h2 == (g1 * p1) * (g2 * q2);
    Rearrange(g1, p1, g2, q2);
    assert w2 * h1 == (g2 * p2) * (g1 * q1);
    Rearrange(g2, p2, g1, q1);
    assert g2 * g1 == g1 * g2;
    MulAtLeast(g1, g2);
    CancelLeft(g1 * g2, p1 * q2, p2 * q1);
    CoprimePairsEqual(p2, q2, p1, q1);
  }

  /** Two sizes get the same ratio text exactly when they have the same proportions. */
  lemma SameRatioText(w1: nat, h1: nat, w2: nat, h2: nat)
    requires w1 > 0 && h1 > 0 && w2 > 0 && h2 > 0
    ensures GetRatio(w1, h1) == GetRatio(w2, h2) <==> w1 * h2 == w2 * h1
  {
    GetRatioParts(w1, h1);
    GetRatioParts(w2, h2);
    ReducedExact(w1, h1);
    ReducedExact(w2, h2);
    ReducedCoprime(w1, h1);
    ReducedCoprime(w2, h2);
    var g1, g2 := Gcd(w1, h1), Gcd(w2, h2);
    var p1, q1 := Quotient(w1, g1), Quotient(h1, g1);
    var p2, q2 := Quotient(w2, g2), Quotient(h2, g2);
    if GetRatio(w1, h1) == GetRatio(w2, h2) {
      RatioTextInjective(p1, q1, p2, q2);
      ScaledSameProportion(w1, h1, g1, w2, h2, g2, p1, q1);
    }
    if w1 * h2 == w2 * h1 {
      PositivePart(w1, g1, p1);
      PositivePart(w2, g2, p2);
      SameProportionSameParts(w1, h1, g1, p1, q1, w2, h2, g2, p2, q2);
    }
  }

  lemma PositivePart(width: nat, g: nat, p: nat)
    requires width > 0 && width == g * p
    ensures p > 0
  {
  }

  /** Edge cases as JavaScript computes them: equal sides, a zero side, both zero. */
  lemma GetRatioEdges(a: nat)
    ensures a > 0 ==> GetRatio(a, a) == "1:1"
    ensures a > 0 ==> GetRatio(a, 0) == "1:0" && GetRatio(0, a) == "0:1"
    ensures GetRatio(0, 0) == "NaN:NaN"
  {
    GcdBase(a);
    if a > 0 {
      assert Gcd(0, a) == Gcd(a, 0);
      MulDivides(a, 1);
      MulDivides(a, 0);
    }
  }
}
