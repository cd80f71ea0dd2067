/**
 The reference group: affine points of y^2 = x^3 + 7 over a prime field with the chord-and-tangent
 law of SEC 1 v2.0 section 2.2.1, and k-fold addition. Closure, commutativity and negation are
 proved; associativity is the one group axiom taken as a hypothesis (predicate Associative).
 */
module AffineCurve {
  import opened ModArith

  datatype Point = Infinity | Affine(x: int, y: int)

  /** Reduced coordinates that satisfy the curve equation. */
  ghost predicate OnCurve(p: int, q: Point)
    requires p > 0
  {
    q.Affine? ==>
      0 <= q.x < p && 0 <= q.y < p && Cong(p, q.y * q.y, q.x * q.x * q.x + 7)
  }

  function Slope(p: int, a: Point, b: Point): int
    requires p > 2 && a.Affine? && b.Affine?
  {
    if a.x == b.x then 3 * a.x * a.x * PowMod(2 * a.y, p - 2, p) % p
    else (b.y - a.y) * PowMod(b.x - a.x, p - 2, p) % p
  }

  /** SEC 1 v2.0 section 2.2.1: infinity is neutral, opposite points cancel, else chord or tangent. */
  function Add(p: int, a: Point, b: Point): Point
    requires p > 2
  {
    if a.Infinity? then b
    else if b.Infinity? then a
    else if a.x == b.x && (a.y + b.y) % p == 0 then Infinity
    else
      var l := Slope(p, a, b);
      var x := (l * l - a.x - b.x) % p;
      Affine(x, (l * (a.x - x) - a.y) % p)
  }

  function Negate(p: int, a: Point): Point
    requires p > 0
  {
    if a.Infinity? then a else Affine(a.x, (-a.y) % p)
  }

  /** k-fold addition. */
  function Times(p: int, k: nat, q: Point): Point
    requires p > 2
  {
    if k == 0 then Infinity else Add(p, Times(p, k - 1, q), q)
  }

  // ---- the hypotheses ----

  ghost predicate AssociatesAt(p: int, a: Point, b: Point, c: Point)
    requires p > 2
  {
    Add(p, Add(p, a, b), c) == Add(p, a, Add(p, b, c))
  }

  ghost predicate Associative(p: int)
    requires p > 2
  {
    forall a, b, c :: OnCurve(p, a) && OnCurve(p, b) && OnCurve(p, c) ==> AssociatesAt(p, a, b, c)
  }

  /** No affine point has y = 0, so no point is its own opposite. */
  ghost predicate NoTwoTorsion(p: int)
    requires p > 0
  {
    forall q: Point :: OnCurve(p, q) && q.Affine? ==> q.y != 0
  }

  // ---- the slope, without division ----

  lemma SmallNonzero(p: int, a: int)
    requires p > 0 && 0 < a < p
    ensures !Cong(p, a, 0) && !Cong(p, -a, 0)
  {
    DivisionUnique(p, a, 0, a);
    DivisionUnique(p, 0, 0, 0);
    DivisionUnique(p, -a, -1, p - a);
  }

  /** Two points with equal x on the curve are equal or opposite. */
  lemma SameX(p: int, a: Point, b: Point)
    requires Prime(p) && OnCurve(p, a) && OnCurve(p, b) && a.Affine? && b.Affine? && a.x == b.x
    ensures a.y == b.y || (a.y + b.y) % p == 0
  {
    CongAdd(p, a.y * a.y, b.y * b.y, b.y * b.y, b.y * b.y);
    assert (a.y - b.y) * (a.y + b.y) == a.y * a.y - b.y * b.y;
    ZeroProduct(p, a.y - b.y, a.y + b.y);
    DivisionUnique(p, 0, 0, 0);
    if Cong(p, a.y - b.y, 0) {
      CongAdd(p, a.y - b.y, 0, b.y, b.y);
      CongReduced(p, a.y, b.y);
    }
  }

  lemma InverseTimes(p: int, n: int, d: int)
    requires Prime(p) && !Cong(p, d, 0)
    ensures Cong(p, (n * PowMod(d, p - 2, p) % p) * d, n)
  {
    var i := PowMod(d, p - 2, p);
    InverseByPower(p, d);
    CongMod(p, n * i);
    CongMul(p, n * i % p, n * i, d, d);
    CongMul(p, n, n, d * i, 1);
    assert n * i * d == n * (d * i);
  }

  lemma ChordSlope(p: int, a: Point, b: Point)
    requires Prime(p) && p > 3 && OnCurve(p, a) && OnCurve(p, b) && a.Affine? && b.Affine? && a.x != b.x
    ensures Cong(p, Slope(p, a, b) * (b.x - a.x), b.y - a.y)
  {
    SmallNonzero(p, if a.x < b.x then b.x - a.x else a.x - b.x);
    InverseTimes(p, b.y - a.y, b.x - a.x);
  }

  lemma TangentSlope(p: int, a: Point)
    requires Prime(p) && p > 3 && OnCurve(p, a) && a.Affine? && a.y != 0
    ensures Cong(p, Slope(p, a, a) * (2 * a.y), 3 * a.x * a.x)
  {
    SmallNonzero(p, 2);
    SmallNonzero(p, a.y);
    ZeroProduct(p, 2, a.y);
    InverseTimes(p, 3 * a.x * a.x, 2 * a.y);
  }

  // ---- closure: the line meets the cubic in a third point of the curve ----

  /** What is left of x^3 + 7 - (l(x - x1) + y1)^2 after dividing by x - x1. */
  ghost function Quotient(l: int, x1: int, y1: int, x: int): int
  {
    x * x + x * x1 + x1 * x1 - l * l * (x - x1) - 2 * l * y1
  }

  lemma Factors(l: int, x1: int, y1: int, x: int)
    ensures x * x * x + 7 - (l * (x - x1) + y1) * (l * (x - x1) + y1)
         == (x - x1) * Quotient(l, x1, y1, x) + (x1 * x1 * x1 + 7 - y1 * y1)
  {
    var u := x - x1;
    CubeDifference(x, x1);
    LineSquare(l, u, y1);
    assert u * (x * x + x * x1 + x1 * x1) - u * (l * l * u + 2 * l * y1) == u * Quotient(l, x1, y1, x) by {
      assert x * x + x * x1 + x1 * x1 - (l * l * u + 2 * l * y1) == Quotient(l, x1, y1, x);
      Difference(u, x * x + x * x1 + x1 * x1, l * l * u + 2 * l * y1);
    }
  }

  lemma Difference(u: int, a: int, b: int)
    ensures u * a - u * b == u * (a - b)
  {
  }

  lemma CubeDifference(x: int, y: int)
    ensures x * x * x - y * y * y == (x - y) * (x * x + x * y + y * y)
  {
  }

  lemma LineSquare(l: int, u: int, y: int)
    ensures (l * u + y) * (l * u + y) == u * (l * l * u + 2 * l * y) + y * y
  {
    var t := l * u;
    assert (t + y) * (t + y) == t * t + 2 * t * y + y * y;
    assert t * t == u * (l * l * u);
    assert 2 * t * y == u * (2 * l * y);
  }

  lemma QuotientStep(l: int, x1: int, y1: int, x: int, t: int)
    ensures Quotient(l, x1, y1, x) == Quotient(l, x1, y1, t) + (x - t) * (x + t + x1 - l * l)
  {
    assert (x - t) * (x + t) == x * x - t * t;
    assert (x - t) * x1 == x * x1 - t * x1;
    assert (x - t) * (l * l) == l * l * (x - x1) - l * l * (t - x1);
    assert (x - t) * (x + t + x1 - l * l) == (x - t) * (x + t) + (x - t) * x1 - (x - t) * (l * l);
  }

  lemma ThirdPoint(p: int, l: int, x1: int, y1: int, x2: int, x3: int, y3: int)
    requires p > 0
    requires Cong(p, y1 * y1, x1 * x1 * x1 + 7) && Cong(p, Quotient(l, x1, y1, x2), 0)
    requires Cong(p, x3, l * l - x1 - x2) && Cong(p, y3, l * (x1 - x3) - y1)
    ensures Cong(p, y3 * y3, x3 * x3 * x3 + 7)
  {
    QuotientVanishes(p, l, x1, y1, x2, x3);
    CubicOnLine(p, l, x1, y1, x3);
    var line, e := l * (x3 - x1) + y1, l * (x1 - x3) - y1;
    Opposite(l, x1, x3, y1);
    CongAdd(p, x3 * x3 * x3 + 7 - line * line, 0, line * line, line * line);
    CongMul(p, y3, e, y3, e);
  }

  /** The third abscissa is the other root of the quotient. */
  lemma QuotientVanishes(p: int, l: int, x1: int, y1: int, x2: int, x3: int)
    requires p > 0 && Cong(p, Quotient(l, x1, y1, x2), 0) && Cong(p, x3, l * l - x1 - x2)
    ensures Cong(p, Quotient(l, x1, y1, x3), 0)
  {
    var s := l * l - x1 - x2;
    CongAdd(p, x3, s, s, s);
    CongMul(p, x3 - x2, x3 - x2, x3 - s, 0);
    QuotientStep(l, x1, y1, x3, x2);
    CongAdd(p, Quotient(l, x1, y1, x2), 0, (x3 - x2) * (x3 - s), 0);
  }

  /** Where the quotient vanishes, the cubic agrees with the square of the line. */
  lemma CubicOnLine(p: int, l: int, x1: int, y1: int, x: int)
    requires p > 0 && Cong(p, y1 * y1, x1 * x1 * x1 + 7) && Cong(p, Quotient(l, x1, y1, x), 0)
    ensures Cong(p, x * x * x + 7 - (l * (x - x1) + y1) * (l * (x - x1) + y1), 0)
  {
    CongMul(p, x - x1, x - x1, Quotient(l, x1, y1, x), 0);
    CongAdd(p, x1 * x1 * x1 + 7, y1 * y1, y1 * y1, y1 * y1);
    CongAdd(p, (x - x1) * Quotient(l, x1, y1, x), 0, x1 * x1 * x1 + 7 - y1 * y1, 0);
    Factors(l, x1, y1, x);
  }

  lemma Opposite(l: int, x1: int, x3: int, y1: int)
    ensures (l * (x1 - x3) - y1) * (l * (x1 - x3) - y1) == (l * (x3 - x1) + y1) * (l * (x3 - x1) + y1)
  {
    var line, e := l * (x3 - x1) + y1, l * (x1 - x3) - y1;
    assert l * (x1 - x3) == -(l * (x3 - x1));
    SquareOpposite(e, line);
  }

  lemma SquareOpposite(a: int, b: int)
    requires a == -b
    ensures a * a == b * b
  {
  }

  lemma SecantQuotient(p: int, l: int, a: Point, b: Point)
    requires Prime(p) && OnCurve(p, a) && OnCurve(p, b) && a.Affine? && b.Affine? && a.x != b.x
    requires Cong(p, l * (b.x - a.x), b.y - a.y)
    ensures Cong(p, Quotient(l, a.x, a.y, b.x), 0)
  {
    var line := l * (b.x - a.x) + a.y;
    CongAdd(p, l * (b.x - a.x), b.y - a.y, a.y, a.y);
    CongMul(p, line, b.y, line, b.y);
    var fa, fb := a.x * a.x * a.x + 7, b.x * b.x * b.x + 7;
    CongAdd(p, fb, line * line, line * line, line * line);
    CongAdd(p, fa, a.y * a.y, a.y * a.y, a.y * a.y);
    Factors(l, a.x, a.y, b.x);
    CongAdd(p, fb - line * line, 0, fa - a.y * a.y, 0);
    ZeroProduct(p, b.x - a.x, Quotient(l, a.x, a.y, b.x));
    SmallNonzero(p, if a.x < b.x then b.x - a.x else a.x - b.x);
  }

  lemma TangentQuotient(p: int, l: int, a: Point)
    requires p > 0 && a.Affine? && Cong(p, l * (2 * a.y), 3 * a.x * a.x)
    ensures Cong(p, Quotient(l, a.x, a.y, a.x), 0)
  {
    assert Quotient(l, a.x, a.y, a.x) == 3 * a.x * a.x - l * (2 * a.y);
    CongAdd(p, 3 * a.x * a.x, l * (2 * a.y), l * (2 * a.y), l * (2 * a.y));
  }

  /** The sum of two points of the curve is a point of the curve. */
  lemma AddOnCurve(p: int, a: Point, b: Point)
    requires Prime(p) && p > 3 && OnCurve(p, a) && OnCurve(p, b)
    ensures OnCurve(p, Add(p, a, b))
  {
    var c := Add(p, a, b);
    if a.Affine? && b.Affine? && c.Affine? {
      var l := Slope(p, a, b);
      if a.x != b.x {
        ChordSlope(p, a, b);
        SecantQuotient(p, l, a, b);
      } else {
        SameX(p, a, b);
        if a.y == 0 { DivisionUnique(p, 0, 0, 0); }
        TangentSlope(p, a);
        TangentQuotient(p, l, a);
      }
      CongMod(p, l * l - a.x - b.x);
      CongMod(p, l * (a.x - c.x) - a.y);
      ThirdPoint(p, l, a.x, a.y, b.x, c.x, c.y);
    }
  }

  lemma AddCommutes(p: int, a: Point, b: Point)
    requires Prime(p) && p > 3 && OnCurve(p, a) && OnCurve(p, b)
    ensures Add(p, a, b) == Add(p, b, a)
  {
    if a.Affine? && b.Affine? {
      if a.x == b.x {
        SameX(p, a, b);
      } else {
        var l, m := Slope(p, a, b), Slope(p, b, a);
        ChordSlope(p, a, b);
        ChordSlope(p, b, a);
        assert m * (a.x - b.x) == -(m * (b.x - a.x));
        CongAdd(p, 0, 0, m * (a.x - b.x), a.y - b.y);
        assert (b.x - a.x) * l == l * (b.x - a.x) && (b.x - a.x) * m == m * (b.x - a.x);
        SmallNonzero(p, if a.x < b.x then b.x - a.x else a.x - b.x);
        Cancel(p, b.x - a.x, l, m);
        CongReduced(p, l, m);
        var x := (l * l - a.x - b.x) % p;
        SameLine(p, l, a.x, a.y, b.x, b.y, x);
      }
    }
  }

  /** The line through two points has one value at x, from whichever point it is computed. */
  lemma SameLine(p: int, l: int, ax: int, ay: int, bx: int, yb: int, x: int)
    requires p > 0 && Cong(p, l * (bx - ax), yb - ay)
    ensures Cong(p, l * (ax - x) - ay, l * (bx - x) - yb)
  {
    var e, f := l * (bx - ax), yb - ay;
    LineDifference(l, ax, bx, x);
    CongAdd(p, e, f, f, f);
    CongAdd(p, l * (bx - x) - yb, l * (bx - x) - yb, e - f, 0);
  }

  lemma LineDifference(l: int, a: int, b: int, x: int)
    ensures l * (a - x) == l * (b - x) - l * (b - a)
  {
  }

  lemma NegateFacts(p: int, a: Point)
    requires Prime(p) && p > 3 && OnCurve(p, a)
    ensures OnCurve(p, Negate(p, a)) && Negate(p, Negate(p, a)) == a
    ensures Add(p, a, Negate(p, a)) == Infinity
  {
    if a.Affine? {
      var m := (-a.y) % p;
      CongMod(p, -a.y);
      CongMul(p, m, -a.y, m, -a.y);
      SquareOpposite(-a.y, a.y);
      CongAdd(p, 0, 0, m, -a.y);
      CongReduced(p, a.y, (-m) % p) by { CongMod(p, -m); }
      CongAdd(p, a.y, a.y, m, -a.y);
      DivisionUnique(p, 0, 0, 0);
    }
  }

  // ---- k-fold addition under associativity ----

  ghost predicate Group(p: int)
  {
    p > 3 && Prime(p) && Associative(p)
  }

  lemma AddAssociates(p: int, a: Point, b: Point, c: Point)
    requires Group(p) && OnCurve(p, a) && OnCurve(p, b) && OnCurve(p, c)
    ensures Add(p, Add(p, a, b), c) == Add(p, a, Add(p, b, c))
  {
    assert AssociatesAt(p, a, b, c);
  }

  lemma {:induction false} TimesOnCurve(p: int, k: nat, q: Point)
    requires p > 3 && Prime(p) && OnCurve(p, q)
    ensures OnCurve(p, Times(p, k, q))
  {
    if k > 0 {
      TimesOnCurve(p, k - 1, q);
      AddOnCurve(p, Times(p, k - 1, q), q);
    }
  }

  lemma {:induction false} TimesAdd(p: int, j: nat, k: nat, q: Point)
    requires Group(p) && OnCurve(p, q)
    ensures Times(p, j + k, q) == Add(p, Times(p, j, q), Times(p, k, q))
  {
    if k > 0 {
      TimesAdd(p, j, k - 1, q);
      TimesOnCurve(p, j, q);
      TimesOnCurve(p, k - 1, q);
      AddAssociates(p, Times(p, j, q), Times(p, k - 1, q), q);
      assert j + k - 1 == j + (k - 1);
    }
  }

  lemma {:induction false} TimesProduct(p: int, j: nat, k: nat, q: Point)
    requires Group(p) && OnCurve(p, q)
    ensures j * k >= 0 && Times(p, j * k, q) == Times(p, j, Times(p, k, q))
  {
    if j == 0 {
    } else {
      TimesProduct(p, j - 1, k, q);
      assert j * k == (j - 1) * k + k;
      TimesAdd(p, (j - 1) * k, k, q);
    }
  }

  lemma {:induction false} TimesInfinity(p: int, k: nat)
    requires p > 2
    ensures Times(p, k, Infinity) == Infinity
  {
    if k > 0 { TimesInfinity(p, k - 1); }
  }

  /** Multiples of n do not count when n times q vanishes. */
  lemma TimesMultiple(p: int, n: nat, d: nat, r: nat, q: Point)
    requires Group(p) && OnCurve(p, q) && Times(p, n, q) == Infinity
    ensures d * n >= 0 && Times(p, d * n + r, q) == Times(p, r, q)
  {
    TimesProduct(p, d, n, q);
    TimesInfinity(p, d);
    TimesAdd(p, d * n, r, q);
  }

  lemma Division(n: int, k: nat) returns (d: nat, r: nat)
    requires n > 0
    ensures k == d * n + r && r == k % n
  {
    d, r := k / n, k % n;
  }

  /** When n times q vanishes, only the scalar modulo n matters. */
  lemma TimesModulo(p: int, n: int, k: nat, q: Point)
    requires Group(p) && n > 0 && OnCurve(p, q) && Times(p, n, q) == Infinity
    ensures Times(p, k, q) == Times(p, k % n, q)
  {
    var d, r := Division(n, k);
    TimesMultiple(p, n, d, r, q);
  }
}
