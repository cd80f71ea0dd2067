/**
 The Jacobian-coordinate arithmetic of owner-soak-driver/zkdeal_owner_soak.py, over an arbitrary
 prime p > 3 (module Ecdsa fixes the constants), proved to refine the affine
 chord-and-tangent law of module AffineCurve.
 */
module Jacobian {
  import opened ModArith
  import opened AffineCurve

  datatype Triple = Triple(x: int, y: int, z: int)

  const ORIGIN := Triple(0, 0, 0)

  // ---- the code ----

  function Double(p: int, q: Triple): Triple
    requires p > 0
  {
    if q.y == 0 || q.z == 0 then ORIGIN else
      var ysq := q.y * q.y % p;
      var s := 4 * q.x * ysq % p;
      var m := 3 * q.x * q.x % p;
      var nx := (m * m - 2 * s) % p;
      var ny := (m * (s - nx) - 8 * ysq * ysq) % p;
      var nz := 2 * q.y * q.z % p;
      Triple(nx, ny, nz)
  }

  function AddTriples(p: int, left: Triple, right: Triple): Triple
    requires p > 0
  {
    if left.y == 0 || left.z == 0 then right
    else if right.y == 0 || right.z == 0 then left
    else
      var z1sq := left.z * left.z % p;
      var z2sq := right.z * right.z % p;
      var u1 := left.x * z2sq % p;
      var u2 := right.x * z1sq % p;
      var s1 := left.y * z2sq * right.z % p;
      var s2 := right.y * z1sq * left.z % p;
      if u1 == u2 then
        if s1 != s2 then ORIGIN else Double(p, left)
      else
        var h := (u2 - u1) % p;
        var r := (s2 - s1) % p;
        var h2 := h * h % p;
        var h3 := h * h2 % p;
        var u1h2 := u1 * h2 % p;
        var nx := (r * r - h3 - 2 * u1h2) % p;
        var ny := (r * (u1h2 - nx) - s1 * h3) % p;
        var nz := h * left.z * right.z % p;
        Triple(nx, ny, nz)
  }

  /** Double-and-add from the low bit: what the loop of the code still has to add to its result. */
  function Accumulate(p: int, result: Triple, addend: Triple, factor: nat): Triple
    requires p > 0
    decreases factor
  {
    if factor == 0 then result
    else
      var next := if factor % 2 == 1 then AddTriples(p, result, addend) else result;
      Accumulate(p, next, Double(p, addend), factor / 2)
  }

  function Multiply(p: int, n: int, q: Triple, scalar: int): Triple
    requires p > 0 && n > 0
  {
    var factor := scalar % n;
    if factor == 0 || q.y == 0 || q.z == 0 then ORIGIN
    else Accumulate(p, ORIGIN, q, factor)
  }

  /** Infinity stands for the exception the code raises. */
  function ToAffine(p: int, q: Triple): Point
    requires p > 2
  {
    if q.y == 0 || q.z == 0 then Infinity
    else
      var inverse := PowMod(q.z, p - 2, p);
      var square := inverse * inverse % p;
      Affine(q.x * square % p, q.y * square * inverse % p)
  }

  // ---- what a triple stands for ----

  ghost predicate Reduced(p: int, q: Triple)
  {
    0 <= q.x < p && 0 <= q.y < p && 0 <= q.z < p
  }

  ghost function Cube(z: int): int { z * z * z }

  /** Reduced, and on the curve whenever z is not zero. */
  ghost predicate OnCurveJ(p: int, q: Triple)
    requires p > 0
  {
    Reduced(p, q) && (q.z != 0 ==> Cong(p, q.y * q.y, Cube(q.x) + 7 * (Cube(q.z) * Cube(q.z))))
  }

  /** x = X z^2 and y = Y z^3 for a unit z. */
  ghost predicate Represents(p: int, q: Triple, a: Point)
    requires p > 0
  {
    a.Affine? && !Cong(p, q.z, 0) && Cong(p, q.x, a.x * (q.z * q.z)) && Cong(p, q.y, a.y * Cube(q.z))
  }

  lemma AffineRepresented(p: int, q: Triple)
    requires Prime(p) && p > 3 && Reduced(p, q) && q.y != 0 && q.z != 0
    ensures Represents(p, q, ToAffine(p, q))
  {
    var i := PowMod(q.z, p - 2, p);
    var square := i * i % p;
    SmallNonzero(p, q.z);
    InverseByPower(p, q.z);
    CongMod(p, i * i);
    var a := ToAffine(p, q);
    var zz := q.z * q.z;
    SquareCancels(p, q.z, i, square);
    CongMod(p, q.x * square);
    CongMul(p, a.x, q.x * square, zz, zz);
    CongMul(p, q.x, q.x, square * zz, 1);
    assert q.x * square * zz == q.x * (square * zz);
    CongMod(p, q.y * square * i);
    CongMul(p, a.y, q.y * square * i, Cube(q.z), Cube(q.z));
    CongMul(p, square * zz, 1, q.z * i, 1);
    CongMul(p, q.y, q.y, (square * zz) * (q.z * i), 1);
    Regroup(q.y, square, i, q.z);
  }

  lemma SquareCancels(p: int, z: int, i: int, square: int)
    requires p > 0 && Cong(p, z * i, 1) && Cong(p, square, i * i)
    ensures Cong(p, square * (z * z), 1)
  {
    CongMul(p, z * i, 1, z * i, 1);
    CongMul(p, square, i * i, z * z, z * z);
    assert (i * i) * (z * z) == (z * i) * (z * i);
  }

  lemma Regroup(y: int, square: int, i: int, z: int)
    ensures y * square * i * Cube(z) == y * ((square * (z * z)) * (z * i))
  {
    var w := z * z;
    assert Cube(z) == w * z;
    assert y * square * i * (w * z) == y * ((square * w) * (z * i)) by {
      assert (square * w) * (z * i) == square * i * (w * z);
      assert y * (square * i * (w * z)) == y * square * i * (w * z);
    }
  }

  lemma CubeNonzero(p: int, z: int)
    requires Prime(p) && !Cong(p, z, 0)
    ensures !Cong(p, z * z, 0) && !Cong(p, Cube(z), 0)
  {
    ZeroProduct(p, z, z);
    ZeroProduct(p, z * z, z);
  }

  /** A triple stands for at most one reduced point, and that is what _to_affine returns. */
  lemma RepresentedIsAffine(p: int, q: Triple, a: Point)
    requires Prime(p) && p > 3 && Reduced(p, q) && q.y != 0 && Represents(p, q, a)
    requires 0 <= a.x < p && 0 <= a.y < p
    ensures q.z != 0 && ToAffine(p, q) == a
  {
    AffineRepresented(p, q);
    var b := ToAffine(p, q);
    CubeNonzero(p, q.z);
    SameFactor(p, q.z * q.z, a.x, b.x);
    SameFactor(p, Cube(q.z), a.y, b.y);
  }

  lemma SameFactor(p: int, w: int, a: int, b: int)
    requires Prime(p) && !Cong(p, w, 0) && Cong(p, a * w, b * w) && 0 <= a < p && 0 <= b < p
    ensures a == b
  {
    assert w * a == a * w && w * b == b * w;
    Cancel(p, w, a, b);
    CongReduced(p, a, b);
  }

  /** The two curve equations say the same. */
  lemma CurveEquations(p: int, q: Triple, a: Point)
    requires Prime(p) && Represents(p, q, a)
    ensures Cong(p, q.y * q.y, Cube(q.x) + 7 * (Cube(q.z) * Cube(q.z)))
       <==> Cong(p, a.y * a.y, a.x * a.x * a.x + 7)
  {
    var w, t := q.z * q.z, Cube(q.z);
    var six := t * t;
    CongMul(p, q.y, a.y * t, q.y, a.y * t);
    assert (a.y * t) * (a.y * t) == six * (a.y * a.y);
    CongMul(p, q.x, a.x * w, q.x, a.x * w);
    CongMul(p, q.x * q.x, (a.x * w) * (a.x * w), q.x, a.x * w);
    CubeOfProduct(a.x, w);
    assert Cube(w) == six by { CubeOfProduct(q.z, q.z); }
    CongAdd(p, Cube(q.x), (a.x * a.x * a.x) * six, 7 * six, 7 * six);
    assert (a.x * a.x * a.x) * six + 7 * six == six * (a.x * a.x * a.x + 7);
    CubeNonzero(p, q.z);
    ZeroProduct(p, t, t);
    if Cong(p, six * (a.y * a.y), six * (a.x * a.x * a.x + 7)) {
      Cancel(p, six, a.y * a.y, a.x * a.x * a.x + 7);
    }
    if Cong(p, a.y * a.y, a.x * a.x * a.x + 7) {
      CongMul(p, six, six, a.y * a.y, a.x * a.x * a.x + 7);
    }
  }

  lemma CubeOfProduct(a: int, w: int)
    ensures (a * w) * (a * w) * (a * w) == (a * a * a) * Cube(w)
  {
    assert (a * w) * (a * w) == (a * a) * (w * w);
    assert (a * a) * (w * w) * (a * w) == ((a * a) * a) * ((w * w) * w);
  }

  /** On-curve triples stand for on-curve points; y never vanishes on them. */
  lemma Meaning(p: int, q: Triple)
    requires Prime(p) && p > 3 && NoTwoTorsion(p) && OnCurveJ(p, q)
    ensures OnCurve(p, ToAffine(p, q))
    ensures q.z != 0 ==> q.y != 0 && Represents(p, q, ToAffine(p, q))
  {
    if q.z != 0 {
      if q.y == 0 {
        OnAxis(p, q);
      }
      AffineRepresented(p, q);
      CurveEquations(p, q, ToAffine(p, q));
    }
  }

  lemma OnAxis(p: int, q: Triple)
    requires Prime(p) && p > 3 && NoTwoTorsion(p) && OnCurveJ(p, q) && q.z != 0
    ensures q.y != 0
  {
    SmallNonzero(p, q.z);
    InverseByPower(p, q.z);
    var i := PowMod(q.z, p - 2, p);
    SquareCancels(p, q.z, i, i * i);
    AxisPoint(p, q, ScaledBack(p, q.x, i * i, q.z * q.z));
  }

  /** Dividing by a square, with its inverse at hand. */
  ghost function ScaledBack(p: int, x: int, inverse: int, w: int): (a: int)
    requires p > 0 && Cong(p, inverse * w, 1)
    ensures 0 <= a < p && Cong(p, x, a * w)
  {
    var a := x * inverse % p;
    CongMod(p, x * inverse);
    CongMul(p, a, x * inverse, w, w);
    CongMul(p, x, x, inverse * w, 1);
    Associates(x, inverse, w);
    a
  }

  /** A triple with y = 0 would stand for a point with y = 0. */
  lemma AxisPoint(p: int, q: Triple, x: int)
    requires Prime(p) && NoTwoTorsion(p) && OnCurveJ(p, q) && q.z != 0
    requires !Cong(p, q.z, 0) && 0 <= x < p && Cong(p, q.x, x * (q.z * q.z))
    ensures q.y != 0
  {
    var a := Affine(x, 0);
    assert a.y * Cube(q.z) == 0;
    if q.y == 0 { CurveEquations(p, q, a); }
    assert q.y == 0 ==> OnCurve(p, a);
  }

  // ---- the formulas compute the affine sum ----

  /**
   Any formula of the Jacobian shape with z-coordinate n lands on the third point of the line with
   slope l through (x1, y1) and a point with x-coordinate x2.
   */
  lemma Assemble(p: int, l: int, n: int, x1: int, x2: int, y1: int, x3: int, y3: int,
                 m: int, s: int, t: int, w: int, nx: int, ny: int)
    requires p > 0
    requires Cong(p, x3, l * l - x1 - x2) && Cong(p, y3, l * (x1 - x3) - y1)
    requires Cong(p, l * n, m) && Cong(p, x1 * (n * n), s) && Cong(p, (x1 + x2) * (n * n), t)
    requires Cong(p, y1 * Cube(n), w)
    requires Cong(p, nx, m * m - t) && Cong(p, ny, m * (s - nx) - w)
    ensures Cong(p, nx, x3 * (n * n)) && Cong(p, ny, y3 * Cube(n))
  {
    var sq := n * n;
    CongMul(p, x3, l * l - x1 - x2, sq, sq);
    assert (l * l - x1 - x2) * sq == (l * n) * (l * n) - (x1 + x2) * sq;
    CongMul(p, l * n, m, l * n, m);
    CongAdd(p, (l * n) * (l * n), m * m, (x1 + x2) * sq, t);
    assert Cong(p, nx, x3 * sq);
    CongMul(p, y3, l * (x1 - x3) - y1, Cube(n), Cube(n));
    SplitLine(l, n, x1, x3, y1);
    CongAdd(p, x1 * sq, s, x3 * sq, nx);
    CongMul(p, l * n, m, x1 * sq - x3 * sq, s - nx);
    CongAdd(p, (l * n) * (x1 * sq - x3 * sq), m * (s - nx), y1 * Cube(n), w);
  }

  lemma SplitLine(l: int, n: int, x1: int, x3: int, y1: int)
    ensures (l * (x1 - x3) - y1) * Cube(n) == (l * n) * (x1 * (n * n) - x3 * (n * n)) - y1 * Cube(n)
  {
    var sq := n * n;
    assert x1 * sq - x3 * sq == (x1 - x3) * sq;
    assert (l * n) * ((x1 - x3) * sq) == (l * (x1 - x3)) * (n * sq);
    assert Cube(n) == n * sq;
  }

  lemma DoubleSlope(p: int, x: int, y: int, z: int, ax: int, ay: int, l: int)
    requires p > 0 && Cong(p, x, ax * (z * z)) && Cong(p, y, ay * Cube(z)) && Cong(p, l * (2 * ay), 3 * ax * ax)
    ensures Cong(p, l * (2 * y * z), 3 * x * x)
  {
    FourthPower(z);
    DoubleOrdinateTerm(p, y, z, ay, Cube(z), l, (z * z) * (z * z));
    CongMul(p, l * (2 * ay), 3 * ax * ax, (z * z) * (z * z), (z * z) * (z * z));
    DoubleAbscissaTerm(p, x, ax, z * z);
  }

  lemma FourthPower(z: int)
    ensures z * Cube(z) == (z * z) * (z * z)
  {
    Associates(z, z, z * z);
    Associates(z, z, z);
  }

  lemma DoubleOrdinateTerm(p: int, y: int, z: int, ay: int, t: int, l: int, four: int)
    requires p > 0 && Cong(p, y, ay * t) && z * t == four
    ensures Cong(p, l * (2 * y * z), (l * (2 * ay)) * four)
  {
    var c := 2 * l * z;
    CongMul(p, c, c, y, ay * t);
    SlopeTerms(l, y, z, ay, t);
  }

  lemma SlopeTerms(l: int, y: int, z: int, ay: int, t: int)
    ensures (2 * l * z) * y == l * (2 * y * z)
    ensures (2 * l * z) * (ay * t) == (l * (2 * ay)) * (z * t)
  {
    Interchange(2 * l, z, ay, t);
    Associates(2 * l, z, y);
    assert z * y == y * z && (2 * l) * (y * z) == l * (2 * y * z) by {
      Associates(2, l, y * z);
      Associates(l, 2, y * z);
      Associates(2, y, z);
    }
    assert (2 * l) * ay == l * (2 * ay);
  }

  lemma DoubleAbscissaTerm(p: int, x: int, ax: int, w: int)
    requires p > 0 && Cong(p, x, ax * w)
    ensures Cong(p, 3 * x * x, (3 * ax * ax) * (w * w))
  {
    CongMul(p, x, ax * w, x, ax * w);
    CongMul(p, 3, 3, x * x, (ax * w) * (ax * w));
    Interchange(ax, w, ax, w);
    Associates(3, x, x);
    Associates(3, ax, ax);
    Associates(3, ax * ax, w * w);
  }

  lemma DoubleAbscissa(p: int, x: int, y: int, z: int, ax: int, ysq: int, n: int)
    requires p > 0 && Cong(p, x, ax * (z * z)) && Cong(p, ysq, y * y) && Cong(p, n, 2 * y * z)
    ensures Cong(p, ax * (n * n), 4 * x * ysq)
  {
    CongMul(p, n, 2 * y * z, n, 2 * y * z);
    CongMul(p, ax, ax, n * n, (2 * y * z) * (2 * y * z));
    assert (2 * y * z) * (2 * y * z) == 4 * (y * y) * (z * z);
    assert ax * (4 * (y * y) * (z * z)) == 4 * (y * y) * (ax * (z * z));
    CongMul(p, 4 * (y * y), 4 * (y * y), x, ax * (z * z));
    CongMul(p, 4 * x, 4 * x, ysq, y * y);
    assert 4 * (y * y) * x == 4 * x * (y * y);
  }

  lemma DoubleOrdinate(p: int, y: int, z: int, ay: int, ysq: int, n: int)
    requires p > 0 && Cong(p, y, ay * Cube(z)) && Cong(p, ysq, y * y) && Cong(p, n, 2 * y * z)
    ensures Cong(p, ay * Cube(n), 8 * ysq * ysq)
  {
    var e := 2 * y * z;
    CongMul(p, n, e, n, e);
    CongMul(p, n * n, e * e, n, e);
    CongMul(p, ay, ay, Cube(n), Cube(e));
    var yyy := y * y * y;
    assert Cube(e) == 8 * yyy * Cube(z) by {
      assert e * e == 4 * (y * y) * (z * z);
      assert (4 * (y * y) * (z * z)) * (2 * y * z) == 8 * ((y * y) * y) * ((z * z) * z);
    }
    assert ay * (8 * yyy * Cube(z)) == 8 * yyy * (ay * Cube(z));
    CongMul(p, 8 * yyy, 8 * yyy, y, ay * Cube(z));
    CongMul(p, ysq, y * y, ysq, y * y);
    CongMul(p, 8, 8, ysq * ysq, (y * y) * (y * y));
    assert 8 * yyy * y == 8 * ((y * y) * (y * y));
    assert 8 * ysq * ysq == 8 * (ysq * ysq);
  }

  /** A reduced triple that stands for a curve point is on the curve and reads back as it. */
  lemma Lands(p: int, q: Triple, a: Point)
    requires Prime(p) && p > 3 && NoTwoTorsion(p)
    requires Reduced(p, q) && OnCurve(p, a) && Represents(p, q, a)
    ensures OnCurveJ(p, q) && ToAffine(p, q) == a
  {
    SmallNonzero(p, a.y);
    CubeNonzero(p, q.z);
    ZeroProduct(p, a.y, Cube(q.z));
    RepresentedIsAffine(p, q, a);
    CurveEquations(p, q, a);
  }

  /** Doubling a triple is adding its point to itself. */
  lemma DoubleRefines(p: int, q: Triple)
    requires Prime(p) && p > 3 && NoTwoTorsion(p) && OnCurveJ(p, q)
    ensures OnCurveJ(p, Double(p, q))
    ensures ToAffine(p, Double(p, q)) == Add(p, ToAffine(p, q), ToAffine(p, q))
  {
    Meaning(p, q);
    if q.z != 0 {
      var a, d := ToAffine(p, q), Double(p, q);
      var c := Add(p, a, a);
      AddOnCurve(p, a, a);
      SmallNonzero(p, a.y);
      SmallNonzero(p, 2);
      ZeroProduct(p, 2, a.y);
      DivisionUnique(p, 0, 0, 0);
      assert c.Affine?;
      DoubleRepresents(p, q, a);
      Lands(p, d, c);
    }
  }

  lemma DoubleRepresents(p: int, q: Triple, a: Point)
    requires Prime(p) && p > 3 && Reduced(p, q) && q.y != 0 && q.z != 0
    requires OnCurve(p, a) && Represents(p, q, a) && a.y != 0 && Add(p, a, a).Affine?
    ensures Represents(p, Double(p, q), Add(p, a, a))
  {
    var d, c, l := Double(p, q), Add(p, a, a), Slope(p, a, a);
    var ysq := q.y * q.y % p;
    var s := 4 * q.x * ysq % p;
    var m := 3 * q.x * q.x % p;
    TangentSlope(p, a);
    CongMod(p, q.y * q.y);
    CongMod(p, 4 * q.x * ysq);
    CongMod(p, 3 * q.x * q.x);
    CongMod(p, m * m - 2 * s);
    CongMod(p, m * (s - d.x) - 8 * ysq * ysq);
    CongMod(p, 2 * q.y * q.z);
    CongMod(p, l * l - a.x - a.x);
    CongMod(p, l * (a.x - c.x) - a.y);
    CongMul(p, l, l, d.z, 2 * q.y * q.z);
    DoubleSlope(p, q.x, q.y, q.z, a.x, a.y, l);
    DoubleAbscissa(p, q.x, q.y, q.z, a.x, ysq, d.z);
    CongMul(p, 2, 2, a.x * (d.z * d.z), s);
    assert (a.x + a.x) * (d.z * d.z) == 2 * (a.x * (d.z * d.z));
    DoubleOrdinate(p, q.y, q.z, a.y, ysq, d.z);
    Assemble(p, l, d.z, a.x, a.x, a.y, c.x, c.y, m, s, 2 * s, 8 * ysq * ysq, d.x, d.y);
    SmallNonzero(p, 2);
    SmallNonzero(p, q.y);
    SmallNonzero(p, q.z);
    ZeroProduct(p, 2, q.y);
    ZeroProduct(p, 2 * q.y, q.z);
  }

  // ---- addition ----

  lemma SquareRegroup(x: int, w: int, h: int)
    ensures (x * (w * w)) * (h * h) == x * ((h * w) * (h * w))
    ensures (x * (w * w)) * (h * h) == x * ((w * h) * (w * h))
  {
    Interchange(w, h, w, h);
    Associates(x, w * w, h * h);
    assert h * w == w * h;
  }

  lemma CubeRegroup(y: int, w: int, h: int)
    ensures (y * Cube(w)) * Cube(h) == y * Cube(h * w)
    ensures (y * Cube(w)) * Cube(h) == y * Cube(w * h)
  {
    CubeOfProduct(w, h);
    assert Cube(w * h) == Cube(w) * Cube(h);
    Associates(y, Cube(w), Cube(h));
    assert h * w == w * h;
  }

  /** x1*z2^2 is the first abscissa over the common denominator (z1*z2)^2. */
  lemma CommonX(p: int, x: int, ax: int, z: int, other: int, osq: int, u: int)
    requires p > 0 && Cong(p, x, ax * (z * z)) && Cong(p, osq, other * other) && Cong(p, u, x * osq)
    ensures Cong(p, u, ax * ((z * other) * (z * other)))
  {
    CongMul(p, x, ax * (z * z), osq, other * other);
    SquareRegroup(ax, z, other);
  }

  lemma CommonY(p: int, y: int, ay: int, z: int, other: int, osq: int, s: int)
    requires p > 0 && Cong(p, y, ay * Cube(z)) && Cong(p, osq, other * other) && Cong(p, s, y * osq * other)
    ensures Cong(p, s, ay * Cube(z * other))
  {
    CongMul(p, y, ay * Cube(z), osq, other * other);
    CongMul(p, y * osq, ay * Cube(z) * (other * other), other, other);
    Associates(ay * Cube(z), other * other, other);
    CubeRegroup(ay, z, other);
  }

  lemma ChordScaled(p: int, l: int, x1: int, x2: int, y1: int, y2: int, w: int, h: int, r: int, n: int)
    requires p > 0 && Cong(p, l * (x2 - x1), y2 - y1) && Cong(p, n, h * w)
    requires Cong(p, h, x2 * (w * w) - x1 * (w * w)) && Cong(p, r, y2 * Cube(w) - y1 * Cube(w))
    ensures Cong(p, l * n, r)
  {
    var sq := w * w;
    CongMul(p, l, l, n, h * w);
    CongMul(p, l * w, l * w, h, x2 * sq - x1 * sq);
    ChordTerms(l, w, h, x1, x2, sq);
    CongMul(p, l * (x2 - x1), y2 - y1, Cube(w), Cube(w));
    Distributes(y2, y1, Cube(w));
  }

  lemma Distributes(a: int, b: int, c: int)
    ensures (a - b) * c == a * c - b * c
  {
  }

  lemma ChordTerms(l: int, w: int, h: int, x1: int, x2: int, sq: int)
    requires sq == w * w
    ensures l * (h * w) == (l * w) * h
    ensures (l * w) * (x2 * sq - x1 * sq) == (l * (x2 - x1)) * Cube(w)
  {
    Associates(l, w, h);
    assert h * w == w * h;
    Distributes(x2, x1, sq);
    Interchange(l, w, x2 - x1, sq);
    assert Cube(w) == w * sq by { Associates(w, w, w); }
  }

  lemma SquareScaled(p: int, x: int, w: int, h: int, h2: int, u: int, n: int)
    requires p > 0 && Cong(p, u, x * (w * w)) && Cong(p, h2, h * h) && Cong(p, n, h * w)
    ensures Cong(p, x * (n * n), u * h2)
  {
    CongMul(p, n, h * w, n, h * w);
    CongMul(p, x, x, n * n, (h * w) * (h * w));
    SquareRegroup(x, w, h);
    CongMul(p, u, x * (w * w), h2, h * h);
  }

  lemma CubeScaled(p: int, y: int, w: int, h: int, h2: int, h3: int, s: int, n: int)
    requires p > 0 && Cong(p, s, y * Cube(w)) && Cong(p, h2, h * h) && Cong(p, h3, h * h2) && Cong(p, n, h * w)
    ensures Cong(p, y * Cube(n), s * h3)
  {
    CongMul(p, n, h * w, n, h * w);
    CongMul(p, n * n, (h * w) * (h * w), n, h * w);
    CongMul(p, y, y, Cube(n), Cube(h * w));
    CubeRegroup(y, w, h);
    CongMul(p, h, h, h2, h * h);
    assert h * (h * h) == Cube(h) by { Associates(h, h, h); }
    CongMul(p, s, y * Cube(w), h3, Cube(h));
  }

  /** The branch the code takes: equal u is equal x, and then equal s is equal y. */
  lemma Branches(p: int, x1: int, x2: int, f: int, u1: int, u2: int)
    requires Prime(p) && !Cong(p, f, 0) && 0 <= x1 < p && 0 <= x2 < p && 0 <= u1 < p && 0 <= u2 < p
    requires Cong(p, u1, x1 * f) && Cong(p, u2, x2 * f)
    ensures u1 == u2 <==> x1 == x2
  {
    if u1 == u2 {
      assert f * x1 == x1 * f && f * x2 == x2 * f;
      Cancel(p, f, x1, x2);
      CongReduced(p, x1, x2);
    }
    if x1 == x2 { CongReduced(p, u1, u2); }
  }

  lemma AddRepresents(p: int, q1: Triple, q2: Triple, a: Point, b: Point)
    requires Prime(p) && p > 3 && Reduced(p, q1) && Reduced(p, q2)
    requires q1.y != 0 && q1.z != 0 && q2.y != 0 && q2.z != 0
    requires OnCurve(p, a) && OnCurve(p, b) && Represents(p, q1, a) && Represents(p, q2, b) && a.x != b.x
    ensures Represents(p, AddTriples(p, q1, q2), Add(p, a, b))
    ensures q1.x * (q2.z * q2.z % p) % p != q2.x * (q1.z * q1.z % p) % p
  {
    var z1sq := q1.z * q1.z % p;
    var z2sq := q2.z * q2.z % p;
    var u1 := q1.x * z2sq % p;
    var u2 := q2.x * z1sq % p;
    var s1 := q1.y * z2sq * q2.z % p;
    var s2 := q2.y * z1sq * q1.z % p;
    var w := q1.z * q2.z;
    CongMod(p, q1.z * q1.z);
    CongMod(p, q2.z * q2.z);
    CongMod(p, q1.x * z2sq);
    CongMod(p, q2.x * z1sq);
    CongMod(p, q1.y * z2sq * q2.z);
    CongMod(p, q2.y * z1sq * q1.z);
    assert q2.z * q1.z == w;
    CommonX(p, q1.x, a.x, q1.z, q2.z, z2sq, u1);
    CommonX(p, q2.x, b.x, q2.z, q1.z, z1sq, u2);
    CommonY(p, q1.y, a.y, q1.z, q2.z, z2sq, s1);
    CommonY(p, q2.y, b.y, q2.z, q1.z, z1sq, s2);
    ZeroProduct(p, q1.z, q2.z);
    ZeroProduct(p, w, w);
    Branches(p, a.x, b.x, w * w, u1, u2);
    ChordRepresents(p, a, b, w, u1, u2, s1, s2, AddTriples(p, q1, q2), q1.z, q2.z);
  }

  lemma ChordRepresents(p: int, a: Point, b: Point, w: int, u1: int, u2: int, s1: int, s2: int,
                        d: Triple, z1: int, z2: int)
    requires Prime(p) && p > 3 && OnCurve(p, a) && OnCurve(p, b) && a.Affine? && b.Affine? && a.x != b.x
    requires w == z1 * z2 && !Cong(p, w, 0) && 0 <= u1 < p && 0 <= u2 < p && u1 != u2
    requires Cong(p, u1, a.x * (w * w)) && Cong(p, u2, b.x * (w * w))
    requires Cong(p, s1, a.y * Cube(w)) && Cong(p, s2, b.y * Cube(w))
    requires
      var h := (u2 - u1) % p;
      var r := (s2 - s1) % p;
      var h2 := h * h % p;
      var h3 := h * h2 % p;
      var u1h2 := u1 * h2 % p;
      && d.x == (r * r - h3 - 2 * u1h2) % p
      && d.y == (r * (u1h2 - d.x) - s1 * h3) % p
      && d.z == h * z1 * z2 % p
    ensures Represents(p, d, Add(p, a, b))
  {
    var h := (u2 - u1) % p;
    var r := (s2 - s1) % p;
    var h2 := h * h % p;
    var h3 := h * h2 % p;
    var u1h2 := u1 * h2 % p;
    var c, l := Add(p, a, b), Slope(p, a, b);
    ChordSlope(p, a, b);
    CongMod(p, u2 - u1);
    CongMod(p, s2 - s1);
    CongMod(p, h * h);
    CongMod(p, h * h2);
    CongMod(p, u1 * h2);
    CongMod(p, r * r - h3 - 2 * u1h2);
    CongMod(p, r * (u1h2 - d.x) - s1 * h3);
    CongMod(p, h * z1 * z2);
    Associates(h, z1, z2);
    CongMod(p, l * l - a.x - b.x);
    CongMod(p, l * (a.x - c.x) - a.y);
    ChordFormula(p, l, a.x, b.x, a.y, b.y, c.x, c.y, w, u1, u2, s1, s2, h, r, h2, h3, u1h2, d);
    SmallNonzero(p, if u1 < u2 then u2 - u1 else u1 - u2);
    ZeroProduct(p, h, w);
  }

  /** The addition formula, with every quantity given up to congruence. */
  lemma ChordFormula(p: int, l: int, x1: int, x2: int, y1: int, y2: int, x3: int, y3: int, w: int,
                     u1: int, u2: int, s1: int, s2: int, h: int, r: int, h2: int, h3: int, u1h2: int, d: Triple)
    requires p > 0 && Cong(p, l * (x2 - x1), y2 - y1)
    requires Cong(p, x3, l * l - x1 - x2) && Cong(p, y3, l * (x1 - x3) - y1)
    requires Cong(p, u1, x1 * (w * w)) && Cong(p, u2, x2 * (w * w))
    requires Cong(p, s1, y1 * Cube(w)) && Cong(p, s2, y2 * Cube(w))
    requires Cong(p, h, u2 - u1) && Cong(p, r, s2 - s1) && Cong(p, h2, h * h) && Cong(p, h3, h * h2)
    requires Cong(p, u1h2, u1 * h2) && Cong(p, d.z, h * w)
    requires Cong(p, d.x, r * r - h3 - 2 * u1h2) && Cong(p, d.y, r * (u1h2 - d.x) - s1 * h3)
    ensures Cong(p, d.x, x3 * (d.z * d.z)) && Cong(p, d.y, y3 * Cube(d.z))
  {
    CongAdd(p, u2, x2 * (w * w), u1, x1 * (w * w));
    CongAdd(p, s2, y2 * Cube(w), s1, y1 * Cube(w));
    ChordScaled(p, l, x1, x2, y1, y2, w, h, r, d.z);
    SquareScaled(p, x1, w, h, h2, u1, d.z);
    SquareScaled(p, x2, w, h, h2, u2, d.z);
    CubeScaled(p, y1, w, h, h2, h3, s1, d.z);
    BothAbscissas(p, x1, x2, d.z, u1, u2, h, h2, h3, u1h2);
    Assemble(p, l, d.z, x1, x2, y1, x3, y3, r, u1h2, h3 + 2 * u1h2, s1 * h3, d.x, d.y);
  }

  lemma BothAbscissas(p: int, x1: int, x2: int, n: int, u1: int, u2: int, h: int, h2: int, h3: int, u1h2: int)
    requires p > 0 && Cong(p, x1 * (n * n), u1 * h2) && Cong(p, x2 * (n * n), u2 * h2)
    requires Cong(p, h, u2 - u1) && Cong(p, h3, h * h2) && Cong(p, u1h2, u1 * h2)
    ensures Cong(p, (x1 + x2) * (n * n), h3 + 2 * u1h2)
  {
    CongAdd(p, x1 * (n * n), u1 * h2, x2 * (n * n), u2 * h2);
    assert (x1 + x2) * (n * n) == x1 * (n * n) + x2 * (n * n);
    CongMul(p, h, u2 - u1, h2, h2);
    CongMul(p, 2, 2, u1h2, u1 * h2);
    CongAdd(p, h3, (u2 - u1) * h2, 2 * u1h2, 2 * (u1 * h2));
    assert (u2 - u1) * h2 + 2 * (u1 * h2) == u1 * h2 + u2 * h2;
  }

  lemma SameXBranch(p: int, q1: Triple, q2: Triple, a: Point, b: Point)
    requires Prime(p) && p > 3 && Reduced(p, q1) && Reduced(p, q2)
    requires q1.y != 0 && q1.z != 0 && q2.y != 0 && q2.z != 0
    requires OnCurve(p, a) && OnCurve(p, b) && Represents(p, q1, a) && Represents(p, q2, b) && a.x == b.x
    ensures AddTriples(p, q1, q2) == if a.y == b.y then Double(p, q1) else ORIGIN
  {
    var z1sq := q1.z * q1.z % p;
    var z2sq := q2.z * q2.z % p;
    var u1 := q1.x * z2sq % p;
    var u2 := q2.x * z1sq % p;
    var s1 := q1.y * z2sq * q2.z % p;
    var s2 := q2.y * z1sq * q1.z % p;
    var w := q1.z * q2.z;
    CongMod(p, q1.z * q1.z);
    CongMod(p, q2.z * q2.z);
    CongMod(p, q1.x * z2sq);
    CongMod(p, q2.x * z1sq);
    CongMod(p, q1.y * z2sq * q2.z);
    CongMod(p, q2.y * z1sq * q1.z);
    assert q2.z * q1.z == w;
    CommonX(p, q1.x, a.x, q1.z, q2.z, z2sq, u1);
    CommonX(p, q2.x, b.x, q2.z, q1.z, z1sq, u2);
    CommonY(p, q1.y, a.y, q1.z, q2.z, z2sq, s1);
    CommonY(p, q2.y, b.y, q2.z, q1.z, z1sq, s2);
    ZeroProduct(p, q1.z, q2.z);
    ZeroProduct(p, w, w);
    CubeNonzero(p, w);
    Branches(p, a.x, b.x, w * w, u1, u2);
    Branches(p, a.y, b.y, Cube(w), s1, s2);
  }

  /** Adding triples is adding their points, infinity, equal and opposite operands included. */
  lemma AddRefines(p: int, q1: Triple, q2: Triple)
    requires Prime(p) && p > 3 && NoTwoTorsion(p) && OnCurveJ(p, q1) && OnCurveJ(p, q2)
    ensures OnCurveJ(p, AddTriples(p, q1, q2))
    ensures ToAffine(p, AddTriples(p, q1, q2)) == Add(p, ToAffine(p, q1), ToAffine(p, q2))
  {
    Meaning(p, q1);
    Meaning(p, q2);
    if q1.z != 0 && q2.z != 0 {
      var a, b := ToAffine(p, q1), ToAffine(p, q2);
      if a.x == b.x {
        SameXBranch(p, q1, q2, a, b);
        SameX(p, a, b);
        DoubleRefines(p, q1);
      } else {
        AddRepresents(p, q1, q2, a, b);
        AddOnCurve(p, a, b);
        Lands(p, AddTriples(p, q1, q2), Add(p, a, b));
      }
    }
  }

  // ---- scalar multiplication ----

  lemma {:induction false} AccumulateRefines(p: int, result: Triple, addend: Triple, factor: nat)
    requires Group(p) && NoTwoTorsion(p) && OnCurveJ(p, result) && OnCurveJ(p, addend)
    ensures OnCurveJ(p, Accumulate(p, result, addend, factor))
    ensures ToAffine(p, Accumulate(p, result, addend, factor))
         == Add(p, ToAffine(p, result), Times(p, factor, ToAffine(p, addend)))
    decreases factor
  {
    var r, a := ToAffine(p, result), ToAffine(p, addend);
    if factor > 0 {
      var h, b := factor / 2, factor % 2;
      var next := if b == 1 then AddTriples(p, result, addend) else result;
      AddRefines(p, result, addend);
      DoubleRefines(p, addend);
      AccumulateRefines(p, next, Double(p, addend), h);
      Meaning(p, result);
      Meaning(p, addend);
      TimesProduct(p, h, 2, a);
      TimesTwo(p, a);
      assert factor == b + h * 2;
      TimesAdd(p, b, h * 2, a);
      if b == 1 {
        TimesOne(p, a);
        TimesOnCurve(p, h * 2, a);
        AddAssociates(p, r, a, Times(p, h * 2, a));
      }
    }
  }

  lemma TimesOne(p: int, a: Point)
    requires p > 2
    ensures Times(p, 1, a) == a
  {
    assert Times(p, 0, a) == Infinity;
  }

  lemma TimesTwo(p: int, a: Point)
    requires p > 2
    ensures Times(p, 2, a) == Add(p, a, a)
  {
    TimesOne(p, a);
  }

  /** Multiplying a triple adds its point to itself as often as the scalar says, modulo n. */
  lemma MultiplyRefines(p: int, n: int, q: Triple, scalar: int)
    requires Group(p) && NoTwoTorsion(p) && OnCurveJ(p, q) && n > 0
    ensures OnCurveJ(p, Multiply(p, n, q, scalar))
    ensures ToAffine(p, Multiply(p, n, q, scalar)) == Times(p, scalar % n, ToAffine(p, q))
    ensures scalar >= 0 && Times(p, n, ToAffine(p, q)) == Infinity
        ==> ToAffine(p, Multiply(p, n, q, scalar)) == Times(p, scalar, ToAffine(p, q))
  {
    Meaning(p, q);
    if q.y == 0 || q.z == 0 {
      TimesInfinity(p, scalar % n);
    } else {
      AccumulateRefines(p, ORIGIN, q, scalar % n);
    }
    if scalar >= 0 && Times(p, n, ToAffine(p, q)) == Infinity {
      TimesModulo(p, n, scalar, ToAffine(p, q));
    }
  }

  /** The loop of the code. */
  method JacobianMultiply(p: int, n: int, point: Triple, scalar: int) returns (result: Triple)
    requires p > 0 && n > 0
    ensures result == Multiply(p, n, point, scalar)
  {
    var factor := scalar % n;
    if factor == 0 || point.y == 0 || point.z == 0 {
      return ORIGIN;
    }
    result := ORIGIN;
    var addend := point;
    while factor > 0
      invariant 0 <= factor
      invariant Accumulate(p, result, addend, factor) == Accumulate(p, ORIGIN, point, scalar % n)
    {
      if factor % 2 == 1 {
        result := AddTriples(p, result, addend);
      }
      addend := Double(p, addend);
      factor := factor / 2;
    }
  }
}
