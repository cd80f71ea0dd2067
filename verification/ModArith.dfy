/**
 Residue arithmetic for a prime modulus, as far as the secp256k1 code needs it: congruence,
 Euclid's lemma, and Fermat's little theorem, which is what makes the three-argument power the
 code calls an inverse and a square root.
 */
module ModArith {

  /** a and b leave the same remainder modulo m. */
  ghost predicate Cong(m: int, a: int, b: int)
    requires m > 0
  {
    a % m == b % m
  }

  ghost predicate Prime(p: int)
  {
    p >= 2 && forall d :: 2 <= d < p ==> p % d != 0
  }

  function Pow(b: int, e: nat): int
  {
    if e == 0 then 1 else b * Pow(b, e - 1)
  }

  /** The built-in pow(b, e, m). */
  function PowMod(b: int, e: nat, m: int): int
    requires m > 0
  {
    Pow(b, e) % m
  }

  lemma DivisionUnique(m: int, a: int, q: int, r: int)
    requires m > 0 && 0 <= r < m && a == q * m + r
    ensures a % m == r && a / m == q
  {
    var d := a / m - q;
    assert a == (a / m) * m + a % m;
    assert d * m == r - a % m;
    if d > 0 { MulMono(1, d, m); }
    if d < 0 { MulMono(d, -1, m); }
  }

  lemma MulMono(x: int, y: int, m: int)
    requires x <= y && m >= 0
    ensures x * m <= y * m
  {
  }

  /** Congruence is having a multiple of m as difference. */
  lemma CongIntro(m: int, a: int, b: int, k: int)
    requires m > 0 && a == b + k * m
    ensures Cong(m, a, b)
  {
    assert b == (b / m) * m + b % m;
    assert a == (b / m + k) * m + b % m by { assert (b / m + k) * m == (b / m) * m + k * m; }
    DivisionUnique(m, a, b / m + k, b % m);
  }

  ghost function CongWitness(m: int, a: int, b: int): (k: int)
    requires m > 0 && Cong(m, a, b)
    ensures a == b + k * m
  {
    assert a == (a / m) * m + a % m && b == (b / m) * m + b % m;
    assert (a / m - b / m) * m == (a / m) * m - (b / m) * m;
    a / m - b / m
  }

  lemma CongMod(m: int, a: int)
    requires m > 0
    ensures Cong(m, a % m, a)
  {
    CongIntro(m, a % m, a, -(a / m));
  }

  lemma CongAdd(m: int, a: int, a': int, b: int, b': int)
    requires m > 0 && Cong(m, a, a') && Cong(m, b, b')
    ensures Cong(m, a + b, a' + b') && Cong(m, a - b, a' - b')
  {
    var k, l := CongWitness(m, a, a'), CongWitness(m, b, b');
    assert (k + l) * m == k * m + l * m && (k - l) * m == k * m - l * m;
    CongIntro(m, a + b, a' + b', k + l);
    CongIntro(m, a - b, a' - b', k - l);
  }

  lemma CongMul(m: int, a: int, a': int, b: int, b': int)
    requires m > 0 && Cong(m, a, a') && Cong(m, b, b')
    ensures Cong(m, a * b, a' * b')
  {
    var k, l := CongWitness(m, a, a'), CongWitness(m, b, b');
    calc {
      a * b;
      (a' + k * m) * (b' + l * m);
      a' * b' + a' * (l * m) + (k * m) * b' + (k * m) * (l * m);
      a' * b' + (a' * l + k * b' + k * m * l) * m;
    }
    CongIntro(m, a * b, a' * b', a' * l + k * b' + k * m * l);
  }

  /** Reduced residues are congruent only when equal. */
  lemma CongReduced(m: int, a: int, b: int)
    requires m > 0 && 0 <= a < m && 0 <= b < m && Cong(m, a, b)
    ensures a == b
  {
    DivisionUnique(m, a, 0, a);
    DivisionUnique(m, b, 0, b);
  }

  /** Euclid's lemma, by the remainder descent p = q*a + r. */
  lemma {:induction false} Euclid(p: int, a: int, b: int)
    requires Prime(p) && 0 < a < p && Cong(p, a * b, 0)
    ensures Cong(p, b, 0)
    decreases a
  {
    if a > 1 {
      var q, r := p / a, p % a;
      assert r != 0 && p == q * a + r;
      var k := CongWitness(p, a * b, 0);
      assert r * b == (b - q * k) * p by {
        assert r * b == p * b - q * (a * b);
        assert q * (k * p) == q * k * p;
      }
      CongIntro(p, r * b, 0, b - q * k);
      Euclid(p, r, b);
    }
  }

  lemma NonzeroReduced(p: int, a: int)
    requires p > 0 && !Cong(p, a, 0)
    ensures 0 < a % p < p
  {
    DivisionUnique(p, 0, 0, 0);
  }

  lemma ZeroProduct(p: int, a: int, b: int)
    requires Prime(p)
    ensures Cong(p, a * b, 0) <==> Cong(p, a, 0) || Cong(p, b, 0)
  {
    if Cong(p, a, 0) { CongMul(p, a, 0, b, b); }
    if Cong(p, b, 0) { CongMul(p, a, a, b, 0); }
    if Cong(p, a * b, 0) && !Cong(p, a, 0) {
      NonzeroReduced(p, a);
      CongMod(p, a);
      CongMul(p, a % p, a, b, b);
      Euclid(p, a % p, b);
    }
  }

  /** A factor that is not a multiple of p cancels. */
  lemma Cancel(p: int, c: int, a: int, b: int)
    requires Prime(p) && !Cong(p, c, 0) && Cong(p, c * a, c * b)
    ensures Cong(p, a, b)
  {
    CongAdd(p, c * a, c * b, c * b, c * b);
    assert c * (a - b) == c * a - c * b;
    ZeroProduct(p, c, a - b);
    CongAdd(p, a - b, 0, b, b);
  }

  lemma PowAdd(b: int, e: nat, f: nat)
    ensures Pow(b, e + f) == Pow(b, e) * Pow(b, f)
  {
    if e != 0 {
      PowAdd(b, e - 1, f);
      assert b * (Pow(b, e - 1) * Pow(b, f)) == b * Pow(b, e - 1) * Pow(b, f);
    }
  }

  lemma Interchange(a: int, b: int, x: int, y: int)
    ensures (a * b) * (x * y) == (a * x) * (b * y)
  {
    Associates(a, b, x * y);
    assert b * (x * y) == x * (b * y) by { Associates(b, x, y); Associates(x, b, y); }
    Associates(a, x, b * y);
  }

  lemma Associates(a: int, b: int, c: int)
    ensures (a * b) * c == a * (b * c)
  {
  }

  lemma {:induction false} PowProduct(a: int, b: int, e: nat)
    ensures Pow(a * b, e) == Pow(a, e) * Pow(b, e)
  {
    if e != 0 {
      PowProduct(a, b, e - 1);
      Interchange(a, b, Pow(a, e - 1), Pow(b, e - 1));
    }
  }

  lemma {:induction false} PowCong(m: int, a: int, b: int, e: nat)
    requires m > 0 && Cong(m, a, b)
    ensures Cong(m, Pow(a, e), Pow(b, e))
  {
    if e != 0 {
      PowCong(m, a, b, e - 1);
      CongMul(m, a, b, Pow(a, e - 1), Pow(b, e - 1));
    }
  }

  // ---- Fermat's little theorem: multiplying 1..p-1 by a permutes it ----

  ghost function Product(s: set<int>): int
    decreases |s|
  {
    if s == {} then 1 else Pick(s) * Product(s - {Pick(s)})
  }

  ghost function Pick<T>(s: set<T>): (x: T)
    requires s != {}
    ensures x in s
  {
    var x :| x in s;
    x
  }

  lemma {:induction false} ProductPick(s: set<int>, x: int)
    requires x in s
    ensures Product(s) == x * Product(s - {x})
    decreases |s|
  {
    var y := Pick(s);
    if y != x {
      ProductPick(s - {y}, x);
      ProductPick(s - {x}, y);
      var rest := s - {x} - {y};
      assert s - {y} - {x} == rest;
      assert y * (x * Product(rest)) == x * (y * Product(rest));
    }
  }

  ghost function Below(n: nat): (s: set<int>)
    ensures |s| == n && forall i :: i in s <==> 1 <= i <= n
  {
    if n == 0 then {} else Below(n - 1) + {n}
  }

  /** The residues a*1, ..., a*n. */
  ghost function Multiples(p: int, a: int, n: nat): (s: set<int>)
    requires p > 0
    ensures forall r :: r in s ==> exists i :: 1 <= i <= n && r == Residue(p, a, i)
  {
    if n == 0 then {} else Multiples(p, a, n - 1) + {Residue(p, a, n)}
  }

  ghost function Residue(p: int, a: int, i: int): int
    requires p > 0
  {
    (a * i) % p
  }

  lemma NewMultiple(p: int, a: int, n: int)
    requires Prime(p) && 0 < a < p && 1 <= n < p
    ensures Residue(p, a, n) !in Multiples(p, a, n - 1)
    ensures 0 < Residue(p, a, n) < p
  {
    DivisionUnique(p, a, 0, a);
    DivisionUnique(p, 0, 0, 0);
    forall i | 1 <= i < n
      ensures Residue(p, a, i) != Residue(p, a, n)
    {
      if Cong(p, a * i, a * n) {
        Cancel(p, a, i, n);
        CongReduced(p, i, n);
      }
    }
    if Cong(p, a * n, 0) {
      Euclid(p, a, n);
      CongReduced(p, n, 0);
    }
    NonzeroReduced(p, a * n);
  }

  lemma {:induction false} MultiplesFill(p: int, a: int, n: nat)
    requires Prime(p) && 0 < a < p && n < p
    ensures |Multiples(p, a, n)| == n
    ensures Multiples(p, a, n) <= Below(p - 1)
  {
    if n > 0 {
      MultiplesFill(p, a, n - 1);
      NewMultiple(p, a, n);
    }
  }

  lemma {:induction false} MultiplesProduct(p: int, a: int, n: nat)
    requires Prime(p) && 0 < a < p && n < p
    ensures Cong(p, Product(Multiples(p, a, n)), Pow(a, n) * Product(Below(n)))
  {
    if n > 0 {
      MultiplesProduct(p, a, n - 1);
      NextProduct(p, a, n);
    }
  }

  lemma NextProduct(p: int, a: int, n: nat)
    requires Prime(p) && 0 < a < p && 0 < n < p
    requires Cong(p, Product(Multiples(p, a, n - 1)), Pow(a, n - 1) * Product(Below(n - 1)))
    ensures Cong(p, Product(Multiples(p, a, n)), Pow(a, n) * Product(Below(n)))
  {
    var q, x, y := Product(Multiples(p, a, n - 1)), Pow(a, n - 1), Product(Below(n - 1));
    NewMultiple(p, a, n);
    MultiplesStep(p, a, n);
    BelowStep(n);
    CongMod(p, a * n);
    ProductStep(p, Residue(p, a, n), a, n, q, x, y);
    assert Pow(a, n) == a * x;
  }

  lemma MultiplesStep(p: int, a: int, n: nat)
    requires p > 0 && n > 0 && Residue(p, a, n) !in Multiples(p, a, n - 1)
    ensures Product(Multiples(p, a, n)) == Residue(p, a, n) * Product(Multiples(p, a, n - 1))
  {
    var r := Residue(p, a, n);
    assert Multiples(p, a, n) - {r} == Multiples(p, a, n - 1);
    ProductPick(Multiples(p, a, n), r);
  }

  lemma BelowStep(n: nat)
    requires n > 0
    ensures Product(Below(n)) == n * Product(Below(n - 1))
  {
    assert Below(n) - {n} == Below(n - 1);
    ProductPick(Below(n), n);
  }

  lemma ProductStep(p: int, r: int, a: int, n: int, q: int, x: int, y: int)
    requires p > 0 && Cong(p, r, a * n) && Cong(p, q, x * y)
    ensures Cong(p, r * q, (a * x) * (n * y))
  {
    CongMul(p, r, a * n, q, x * y);
    Interchange(a, n, x, y);
  }

  lemma {:induction false} FactorialNonzero(p: int, n: nat)
    requires Prime(p) && n < p
    ensures !Cong(p, Product(Below(n)), 0)
  {
    DivisionUnique(p, 0, 0, 0);
    if n == 0 {
      DivisionUnique(p, 1, 0, 1);
    } else {
      FactorialNonzero(p, n - 1);
      BelowStep(n);
      DivisionUnique(p, n, 0, n);
      ZeroProduct(p, n, Product(Below(n - 1)));
    }
  }

  lemma {:induction false} SubsetSize(s: set<int>, t: set<int>)
    requires s <= t
    ensures |s| <= |t|
    ensures |s| == |t| ==> s == t
  {
    var rest := t - s;
    assert t == s + rest;
    assert |t| == |s| + |rest|;
    if |s| == |t| { assert rest == {}; }
  }

  lemma FermatReduced(p: int, a: int)
    requires Prime(p) && 0 < a < p
    ensures Cong(p, Pow(a, p - 1), 1)
  {
    var n: nat := p - 1;
    FactorialTimes(p, a, n);
    FactorialNonzero(p, n);
    CancelSame(p, Product(Below(n)), Pow(a, n));
  }

  /** Multiplying by a permutes the nonzero residues, so it keeps their product. */
  lemma FactorialTimes(p: int, a: int, n: nat)
    requires Prime(p) && 0 < a < p && p == n + 1
    ensures Cong(p, Product(Below(n)), Pow(a, n) * Product(Below(n)))
  {
    MultiplesProduct(p, a, n);
    MultiplesAreAll(p, a, n);
    SameProduct(Multiples(p, a, n), Below(n));
  }

  lemma MultiplesAreAll(p: int, a: int, n: nat)
    requires Prime(p) && 0 < a < p && p == n + 1
    ensures Multiples(p, a, n) == Below(n)
  {
    MultiplesFill(p, a, n);
    SubsetSize(Multiples(p, a, n), Below(n));
  }

  lemma SameProduct(s: set<int>, t: set<int>)
    requires s == t
    ensures Product(s) == Product(t)
  {
  }

  lemma CancelSame(p: int, f: int, x: int)
    requires Prime(p) && !Cong(p, f, 0) && Cong(p, f, x * f)
    ensures Cong(p, x, 1)
  {
    assert f * 1 == f && x * f == f * x;
    Cancel(p, f, x, 1);
  }

  /** Fermat: a to the p-1 is one modulo a prime p, for every a that is not a multiple of p. */
  lemma Fermat(p: int, a: int)
    requires Prime(p) && !Cong(p, a, 0)
    ensures Cong(p, Pow(a, p - 1), 1)
  {
    NonzeroReduced(p, a);
    CongMod(p, a);
    PowCong(p, a % p, a, p - 1);
    FermatReduced(p, a % p);
  }

  /** The code's inverse: pow(a, p - 2, p). */
  lemma InverseByPower(p: int, a: int)
    requires Prime(p) && !Cong(p, a, 0)
    ensures Cong(p, a * PowMod(a, p - 2, p), 1)
    ensures !Cong(p, PowMod(a, p - 2, p), 0)
  {
    Fermat(p, a);
    var i := PowMod(a, p - 2, p);
    CongMod(p, Pow(a, p - 2));
    CongMul(p, a, a, i, Pow(a, p - 2));
    DivisionUnique(p, 1, 0, 1);
    DivisionUnique(p, 0, 0, 0);
    ZeroProduct(p, a, i);
  }

  /** The code's square root for p = 3 mod 4: when a is the square of y, its power is y or -y. */
  lemma RootByPower(p: int, a: int, y: int)
    requires Prime(p) && p % 4 == 3 && Cong(p, a, y * y)
    ensures var b := PowMod(a, (p + 1) / 4, p);
      Cong(p, b * b, a) && (Cong(p, b, y) || Cong(p, b, -y))
  {
    var e := (p + 1) / 4;
    var b := PowMod(a, e, p);
    assert p + 1 == 4 * e;
    CongMod(p, Pow(a, e));
    PowCong(p, a, y * y, e);
    PowProduct(y, y, e);
    PowAdd(y, e, e);
    var z := Pow(y, 2 * e);
    assert Cong(p, b, z);
    CongMul(p, b, z, b, z);
    PowAdd(y, 2 * e, 2 * e);
    assert z * z == Pow(y, p + 1);
    if Cong(p, y, 0) {
      ZeroProduct(p, y, y);
      assert Pow(y, p + 1) == y * Pow(y, p);
      ZeroProduct(p, y, Pow(y, p));
    } else {
      Fermat(p, y);
      PowAdd(y, p - 1, 2);
      assert Pow(y, 2) == y * (y * Pow(y, 0)) == y * y;
      CongMul(p, Pow(y, p - 1), 1, y * y, y * y);
    }
    assert Cong(p, b * b, y * y);
    CongAdd(p, b * b, y * y, y * y, y * y);
    assert (b - y) * (b + y) == b * b - y * y;
    ZeroProduct(p, b - y, b + y);
    CongAdd(p, b - y, if Cong(p, b - y, 0) then 0 else b - y, y, y);
    CongAdd(p, b + y, if Cong(p, b + y, 0) then 0 else b + y, y, y);
  }
}
