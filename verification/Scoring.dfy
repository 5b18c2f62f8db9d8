/** Cosine similarity over the reals, in any dimension.

    The square root is a parameter: any function that is one on the non-negative reals. */
module Scoring {

  type Vector = seq<real>

  function Dot(a: Vector, b: Vector): real
    requires |a| == |b|
  {
    if a == [] then 0.0 else a[0] * b[0] + Dot(a[1..], b[1..])
  }

  ghost predicate IsSquareRoot(sqrt: real -> real) {
    forall x: real :: 0.0 <= x ==> 0.0 <= sqrt(x) && sqrt(x) * sqrt(x) == x
  }

  /** Vectors that cannot be compared, and vectors without length, score 0. */
  function Cosine(a: Vector, b: Vector, sqrt: real -> real): real {
    if |a| != |b| || a == [] then 0.0
    else
      var normA := sqrt(Dot(a, a));
      var normB := sqrt(Dot(b, b));
      Quotient(Dot(a, b), normA, normB)
  }

  /** A dot product over two norms. */
  function Quotient(d: real, x: real, y: real): real {
    if x == 0.0 || y == 0.0 then 0.0 else d / (x * y)
  }

  function Scale(k: real, a: Vector): Vector
    ensures |Scale(k, a)| == |a|
  {
    if a == [] then [] else [k * a[0]] + Scale(k, a[1..])
  }

  // ----- Sums of products -----

  lemma {:induction false} DotIsSymmetric(a: Vector, b: Vector)
    requires |a| == |b|
    ensures Dot(a, b) == Dot(b, a)
  {
    if a != [] {
      DotIsSymmetric(a[1..], b[1..]);
    }
  }

  lemma {:induction false} DotScales(k: real, a: Vector, b: Vector)
    requires |a| == |b|
    ensures Dot(Scale(k, a), b) == k * Dot(a, b)
  {
    if a != [] {
      assert Scale(k, a)[1..] == Scale(k, a[1..]);
      DotScales(k, a[1..], b[1..]);
      Distribute(k, a[0], b[0], Dot(a[1..], b[1..]));
    }
  }

  lemma Distribute(k: real, x: real, y: real, rest: real)
    ensures (k * x) * y + k * rest == k * (x * y + rest)
  {
  }

  lemma {:induction false} DotWithSelf(a: Vector)
    ensures 0.0 <= Dot(a, a)
    ensures Dot(a, a) == 0.0 <==> (forall i :: 0 <= i < |a| ==> a[i] == 0.0)
  {
    if a != [] {
      DotWithSelf(a[1..]);
      SumWithSquare(a[0], a[0] * a[0], Dot(a[1..], a[1..]));
      assert a == [a[0]] + a[1..];
    }
  }

  lemma SumWithSquare(x: real, square: real, rest: real)
    requires square == x * x && 0.0 <= rest
    ensures 0.0 <= square + rest
    ensures square + rest == 0.0 <==> x == 0.0 && rest == 0.0
  {
    SquareSign(x, square);
  }

  lemma SquareSign(x: real, square: real)
    requires square == x * x
    ensures 0.0 <= square
    ensures square == 0.0 <==> x == 0.0
  {
    if 0.0 < x {
      PositiveTimesPositive(x, x, square);
    } else if x < 0.0 {
      assert square == (-x) * (-x);
      PositiveTimesPositive(-x, -x, square);
    } else {
      SquareOfZero(x);
    }
  }

  lemma PositiveTimesPositive(x: real, y: real, product: real)
    requires 0.0 < x && 0.0 < y && product == x * y
    ensures 0.0 < product
  {
  }

  lemma SquareOfZero(x: real)
    requires x == 0.0
    ensures x * x == 0.0
  {
  }

  lemma SquareIsNatural(x: real)
    ensures 0.0 <= x * x
  {
  }

  lemma PositiveProduct(x: real, y: real)
    ensures 0.0 < x && 0.0 < y ==> 0.0 < x * y
  {
  }

  /** The sum of the squares of `t * a[i] - b[i]`, multiplied out. */
  function Quadratic(t: real, aa: real, ab: real, bb: real): real {
    t * (t * aa) - 2.0 * (t * ab) + bb
  }

  lemma {:induction false} QuadraticIsNatural(a: Vector, b: Vector, t: real)
    requires |a| == |b|
    ensures 0.0 <= Quadratic(t, Dot(a, a), Dot(a, b), Dot(b, b))
  {
    if a == [] {
      QuadraticAtZero(t);
    } else {
      hide Quadratic;
      QuadraticIsNatural(a[1..], b[1..], t);
      QuadraticStep(a[0], b[0], t, Dot(a[1..], a[1..]), Dot(a[1..], b[1..]), Dot(b[1..], b[1..]));
      assert Dot(a, a) == a[0] * a[0] + Dot(a[1..], a[1..]);
      assert Dot(a, b) == a[0] * b[0] + Dot(a[1..], b[1..]);
      assert Dot(b, b) == b[0] * b[0] + Dot(b[1..], b[1..]);
    }
  }

  lemma QuadraticAtZero(t: real)
    ensures Quadratic(t, 0.0, 0.0, 0.0) == 0.0
  {
  }

  lemma QuadraticStep(x: real, y: real, t: real, aa: real, ab: real, bb: real)
    ensures Quadratic(t, aa, ab, bb) <= Quadratic(t, x * x + aa, x * y + ab, y * y + bb)
  {
    var xx, xy := x * x, x * y;
    SquareOfLinear(t, x, y);
    TimesSum(t, xx, aa);
    TimesSum(t, t * xx, t * aa);
    TimesSum(t, xy, ab);
  }

  lemma TimesSum(c: real, x: real, y: real)
    ensures c * (x + y) == c * x + c * y
  {
  }

  lemma SquareOfLinear(t: real, x: real, y: real)
    ensures 0.0 <= t * (t * (x * x)) - 2.0 * (t * (x * y)) + y * y
  {
    var u := t * x;
    SquareIsNatural(u - y);
    SquareOfDifference(u, y);
    Reassociate(t, x, y);
    Reassociate(t, x, u);
    Reassociate(x, t, x);
    assert x * t == u;
    Reassociate(t, x, x);
    assert x * u == u * x;
    assert u * x == t * (x * x);
  }

  lemma Reassociate(x: real, y: real, z: real)
    ensures (x * y) * z == x * (y * z)
  {
  }

  lemma SquareOfDifference(u: real, y: real)
    ensures (u - y) * (u - y) == u * u - 2.0 * (u * y) + y * y
  {
  }

  lemma {:induction false} DotWithZero(a: Vector, b: Vector)
    requires |a| == |b|
    requires forall i :: 0 <= i < |a| ==> a[i] == 0.0
    ensures Dot(a, b) == 0.0
  {
    if a != [] {
      DotWithZero(a[1..], b[1..]);
    }
  }

  lemma CauchySchwarz(a: Vector, b: Vector)
    requires |a| == |b|
    ensures Dot(a, b) * Dot(a, b) <= Dot(a, a) * Dot(b, b)
  {
    var aa, ab, bb := Dot(a, a), Dot(a, b), Dot(b, b);
    DotWithSelf(a);
    if aa == 0.0 {
      DotWithZero(a, b);
    } else {
      var t := ab / aa;
      QuadraticIsNatural(a, b, t);
      Discriminant(aa, ab, bb, t);
    }
  }

  lemma Discriminant(aa: real, ab: real, bb: real, t: real)
    requires 0.0 < aa && t == ab / aa
    requires 0.0 <= Quadratic(t, aa, ab, bb)
    ensures ab * ab <= aa * bb
  {
    assert t * aa == ab;
    var slack := bb - t * ab;
    assert 0.0 <= slack;
    assert 0.0 <= aa * slack;
    TimesSum(aa, slack, t * ab);
    Reassociate(aa, t, ab);
  }

  // ----- Roots and quotients -----

  lemma StrictSquares(x: real, y: real)
    ensures 0.0 <= x < y ==> x * x < y * y
  {
    PositiveProduct(y - x, y + x);
    assert (y - x) * (y + x) == y * y - x * x;
  }

  lemma RootIsUnique(x: real, y: real)
    requires 0.0 <= x && 0.0 <= y && x * x == y * y
    ensures x == y
  {
    StrictSquares(x, y);
    StrictSquares(y, x);
  }

  lemma ProductOfNonZeros(x: real, y: real)
    requires x != 0.0 && y != 0.0
    ensures x * y != 0.0
  {
  }

  lemma BoundedBySquare(d: real, n: real)
    requires 0.0 <= n && d * d <= n * n
    ensures -n <= d <= n
  {
    StrictSquares(n, d);
    StrictSquares(n, -d);
    assert (-d) * (-d) == d * d;
  }

  lemma QuotientInUnit(d: real, n: real)
    requires 0.0 < n && -n <= d <= n
    ensures -1.0 <= d / n <= 1.0
  {
    var q := d / n;
    assert q * n == d;
    PositiveProduct(q - 1.0, n);
    PositiveProduct(-1.0 - q, n);
  }

  lemma SquareOfProduct(x: real, y: real)
    ensures (x * y) * (x * y) == (x * x) * (y * y)
  {
    assert (x * y) * (x * y) == x * (y * (x * y));
    assert y * (x * y) == x * (y * y);
  }

  // ----- The score -----

  lemma QuotientOfRoots(d: real, x: real, y: real, xx: real, yy: real)
    requires 0.0 <= x && 0.0 <= y && x * x == xx && y * y == yy
    requires d * d <= xx * yy
    ensures -1.0 <= Quotient(d, x, y) <= 1.0
  {
    if x != 0.0 && y != 0.0 {
      PositiveProduct(x, y);
      SquareOfProduct(x, y);
      BoundedBySquare(d, x * y);
      QuotientInUnit(d, x * y);
    }
  }

  lemma QuotientIsSymmetric(d: real, x: real, y: real)
    ensures Quotient(d, x, y) == Quotient(d, y, x)
  {
    assert x * y == y * x;
  }

  lemma ScaledQuotient(k: real, d: real, x: real, y: real, sd: real, sx: real)
    requires 0.0 < k && sd == k * d && sx == k * x
    ensures Quotient(sd, sx, y) == Quotient(d, x, y)
  {
    ZeroProduct(k, x);
    if x != 0.0 && y != 0.0 {
      CancelFactor(k, d, x, y);
    }
  }

  lemma WholeByItself(n: real)
    requires n != 0.0
    ensures n / n == 1.0
  {
  }

  lemma QuotientWithSelf(d: real, x: real)
    requires x * x == d
    ensures x == 0.0 ==> Quotient(d, x, x) == 0.0
    ensures x != 0.0 ==> Quotient(d, x, x) == 1.0
  {
    SquareSign(x, d);
    if x != 0.0 {
      WholeByItself(d);
    }
  }

  lemma ScoreIsBounded(a: Vector, b: Vector, sqrt: real -> real)
    requires IsSquareRoot(sqrt)
    ensures -1.0 <= Cosine(a, b, sqrt) <= 1.0
  {
    hide Dot, Quotient;
    if |a| == |b| && a != [] {
      DotWithSelf(a);
      DotWithSelf(b);
      CauchySchwarz(a, b);
      QuotientOfRoots(Dot(a, b), sqrt(Dot(a, a)), sqrt(Dot(b, b)), Dot(a, a), Dot(b, b));
    }
  }

  lemma ScoreIsSymmetric(a: Vector, b: Vector, sqrt: real -> real)
    ensures Cosine(a, b, sqrt) == Cosine(b, a, sqrt)
  {
    hide Dot, Quotient;
    if |a| == |b| && a != [] {
      DotIsSymmetric(a, b);
      QuotientIsSymmetric(Dot(a, b), sqrt(Dot(a, a)), sqrt(Dot(b, b)));
    }
  }

  lemma NormScales(k: real, a: Vector, sqrt: real -> real)
    requires IsSquareRoot(sqrt) && 0.0 < k
    ensures sqrt(Dot(Scale(k, a), Scale(k, a))) == k * sqrt(Dot(a, a))
  {
    hide Dot, Scale;
    var scaled := Scale(k, a);
    DotScales(k, a, scaled);
    DotIsSymmetric(a, scaled);
    DotScales(k, a, a);
    DotWithSelf(a);
    DotWithSelf(scaled);
    RootScales(k, sqrt(Dot(a, a)), sqrt(Dot(scaled, scaled)), Dot(a, a), Dot(scaled, scaled));
  }

  lemma RootScales(k: real, norm: real, scaledNorm: real, square: real, scaledSquare: real)
    requires 0.0 < k && 0.0 <= norm && 0.0 <= scaledNorm
    requires norm * norm == square && scaledNorm * scaledNorm == scaledSquare
    requires scaledSquare == k * (k * square)
    ensures scaledNorm == k * norm
  {
    SquareOfProduct(k, norm);
    Reassociate(k, k, square);
    NaturalProduct(k, norm);
    RootIsUnique(scaledNorm, k * norm);
  }

  lemma NaturalProduct(x: real, y: real)
    requires 0.0 <= x && 0.0 <= y
    ensures 0.0 <= x * y
  {
  }

  lemma CancelFactor(k: real, d: real, x: real, y: real)
    requires 0.0 < k && x != 0.0 && y != 0.0
    ensures k * x != 0.0
    ensures (k * d) / ((k * x) * y) == d / (x * y)
  {
    ProductOfNonZeros(k, x);
    ProductOfNonZeros(x, y);
    ProductOfNonZeros(k * x, y);
    var n := x * y;
    var q := d / n;
    assert q * n == d;
    assert (k * x) * y == k * n;
    assert q * (k * n) == k * d by {
      assert q * (k * n) == k * (q * n);
    }
  }

  /** Scaling a vector by a positive factor leaves every score unchanged, on either side. */
  lemma ScoreIgnoresScale(k: real, a: Vector, b: Vector, sqrt: real -> real)
    requires IsSquareRoot(sqrt) && 0.0 < k
    ensures Cosine(Scale(k, a), b, sqrt) == Cosine(a, b, sqrt)
    ensures Cosine(b, Scale(k, a), sqrt) == Cosine(b, a, sqrt)
  {
    ScoreIgnoresScaleOnLeft(k, a, b, sqrt);
    ScoreIsSymmetric(a, b, sqrt);
    ScoreIsSymmetric(Scale(k, a), b, sqrt);
  }

  lemma ScoreIgnoresScaleOnLeft(k: real, a: Vector, b: Vector, sqrt: real -> real)
    requires IsSquareRoot(sqrt) && 0.0 < k
    ensures Cosine(Scale(k, a), b, sqrt) == Cosine(a, b, sqrt)
  {
    hide Dot, Scale, Quotient;
    if |a| == |b| && a != [] {
      var scaled := Scale(k, a);
      NormScales(k, a, sqrt);
      DotScales(k, a, b);
      ScaledQuotient(k, Dot(a, b), sqrt(Dot(a, a)), sqrt(Dot(b, b)), Dot(scaled, b), sqrt(Dot(scaled, scaled)));
    }
  }

  lemma ZeroProduct(k: real, x: real)
    requires 0.0 < k
    ensures k * x == 0.0 <==> x == 0.0
  {
    if x != 0.0 {
      ProductOfNonZeros(k, x);
    }
  }

  /** A vector scores 1 against itself exactly when it is not zero. */
  lemma ScoreWithSelf(a: Vector, sqrt: real -> real)
    requires IsSquareRoot(sqrt)
    ensures Cosine(a, a, sqrt) == 1.0 <==> (exists i :: 0 <= i < |a| && a[i] != 0.0)
  {
    DotWithSelf(a);
    hide Dot, Quotient;
    if a != [] {
      var norm := sqrt(Dot(a, a));
      QuotientWithSelf(Dot(a, a), norm);
      SquareSign(norm, norm * norm);
    }
  }

  // ----- What the score is -----

  /** Every coordinate counts alike: the dot product is the sum of the products. */
  lemma {:induction false} DotAppend(a: Vector, b: Vector, x: real, y: real)
    requires |a| == |b|
    ensures Dot([], []) == 0.0
    ensures Dot(a + [x], b + [y]) == Dot(a, b) + x * y
  {
    if a == [] {
      assert a + [x] == [x] && b + [y] == [y];
    } else {
      DotAppend(a[1..], b[1..], x, y);
      assert (a + [x])[1..] == a[1..] + [x] && (b + [y])[1..] == b[1..] + [y];
    }
  }

  /** The score of comparable vectors times their lengths is their dot product; vectors that cannot be compared, and
      vectors without length, score nothing. */
  lemma ScoreMeaning(a: Vector, b: Vector, sqrt: real -> real)
    requires IsSquareRoot(sqrt)
    ensures |a| == |b| && Dot(a, a) != 0.0 && Dot(b, b) != 0.0 ==>
      Cosine(a, b, sqrt) * (sqrt(Dot(a, a)) * sqrt(Dot(b, b))) == Dot(a, b)
    ensures |a| != |b| ==> Cosine(a, b, sqrt) == 0.0
    ensures |a| == |b| && (Dot(a, a) == 0.0 || Dot(b, b) == 0.0) ==> Cosine(a, b, sqrt) == 0.0
  {
    if |a| == |b| && a != [] {
      RootOfDot(a, sqrt);
      RootOfDot(b, sqrt);
      QuotientMeaning(Dot(a, b), sqrt(Dot(a, a)), sqrt(Dot(b, b)));
      hide Dot, Quotient, IsSquareRoot;
    }
  }

  lemma RootOfDot(a: Vector, sqrt: real -> real)
    requires IsSquareRoot(sqrt)
    ensures sqrt(Dot(a, a)) == 0.0 <==> Dot(a, a) == 0.0
  {
    DotWithSelf(a);
    SquareSign(sqrt(Dot(a, a)), Dot(a, a));
  }

  lemma QuotientMeaning(d: real, x: real, y: real)
    ensures x != 0.0 && y != 0.0 ==> Quotient(d, x, y) * (x * y) == d
    ensures x == 0.0 || y == 0.0 ==> Quotient(d, x, y) == 0.0
  {
    if x != 0.0 && y != 0.0 {
      ProductOfNonZeros(x, y);
      TimesQuotient(d, x * y);
    }
  }

  lemma TimesQuotient(d: real, n: real)
    requires n != 0.0
    ensures d / n * n == d
  {
  }

  function Negated(a: Vector): Vector
    ensures |Negated(a)| == |a|
  {
    if a == [] then [] else [-a[0]] + Negated(a[1..])
  }

  lemma {:induction false} DotNegated(a: Vector, b: Vector)
    requires |a| == |b|
    ensures Dot(Negated(a), b) == -Dot(a, b)
    ensures Dot(b, Negated(a)) == -Dot(b, a)
  {
    if a != [] {
      DotNegated(a[1..], b[1..]);
    }
  }

  lemma NegatedQuotient(d: real, x: real, y: real)
    ensures Quotient(-d, x, y) == -Quotient(d, x, y)
  {
  }

  /** Turning a vector around turns the sign of every score. */
  lemma NegationNegates(a: Vector, b: Vector, sqrt: real -> real)
    ensures Cosine(Negated(a), b, sqrt) == -Cosine(a, b, sqrt)
  {
    if |a| == |b| && a != [] {
      var n := Negated(a);
      DotNegated(a, b);
      DotNegated(a, a);
      DotNegated(a, n);
      assert Dot(n, n) == Dot(a, a);
      NegatedQuotient(Dot(a, b), sqrt(Dot(a, a)), sqrt(Dot(b, b)));
      hide Dot, Negated, Quotient;
    }
  }
}
