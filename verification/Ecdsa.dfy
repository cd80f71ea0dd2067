/**
 ECDSA signing and public-key recovery of owner-soak-driver/zkdeal_owner_soak.py. The functions are
 stated for any curve parameters (Domain); SECP256K1 carries the constants of the code. The nonce
 generator is a sequence of scalars.
 */
module Ecdsa {
  import opened ModArith
  import opened AffineCurve
  import opened Jacobian
  import opened Bytes

  datatype Domain = Domain(p: int, n: int, g: Triple)

  const SECP256K1 := Domain(
    0xFFFFFFFFFFFFFFFFFFFFFFFFFFFFFFFFFFFFFFFFFFFFFFFFFFFFFFFEFFFFFC2F,
    0xFFFFFFFFFFFFFFFFFFFFFFFFFFFFFFFEBAAEDCE6AF48A03BBFD25E8CD0364141,
    Triple(0x79BE667EF9DCBBAC55A06295CE870B07029BFCDB2DCE28D959F2815B16F81798,
           0x483ADA7726A3C4655DA4FBFC0E1108A8FD17B448A68554199C47D08FFB10D4B8,
           1))

  datatype Signature = Signature(r: int, s: int, recovery: int)

  ghost predicate Usable(d: Domain)
  {
    d.p > 3 && d.n > 2
  }

  // ---- the code ----

  function MessageInt(d: Domain, digest: seq<byte>): int
    requires Usable(d)
  {
    FromBigEndian(digest) % d.n
  }

  function FlipLowBit(i: int): int
  {
    if i % 2 == 0 then i + 1 else i - 1
  }

  /** s before it is normalised. */
  function RawS(d: Domain, message: int, key: int, nonce: int, r: int): int
    requires Usable(d)
  {
    PowMod(nonce, d.n - 2, d.n) * (message + r * key) % d.n
  }

  /** The low-s form, with the recovery id that goes with it. */
  function LowS(d: Domain, r: int, s: int, recovery: int): Signature
  {
    if s > d.n / 2 then Signature(r, d.n - s, FlipLowBit(recovery)) else Signature(r, s, recovery)
  }

  /** The recovery id of a nonce point before normalisation. */
  function RecoveryOf(d: Domain, point: Point): int
    requires point.Affine?
  {
    point.y % 2 + (if point.x >= d.n then 2 else 0)
  }

  /** One turn of the signing loop; None is its continue. */
  function TryNonce(d: Domain, message: int, key: int, nonce: int): Result<Option<Signature>>
    requires Usable(d)
  {
    var point := ToAffine(d.p, Multiply(d.p, d.n, d.g, nonce));
    if point.Infinity? then Err("secp256k1 produced the point at infinity") else
      var r := point.x % d.n;
      if r == 0 then Ok(None) else
        var s := RawS(d, message, key, nonce, r);
        if s == 0 then Ok(None) else Ok(Some(LowS(d, r, s, RecoveryOf(d, point))))
  }

  /** The first nonce that yields a signature decides. */
  function FirstSignature(d: Domain, message: int, key: int, nonces: seq<int>): Result<Signature>
    requires Usable(d)
  {
    if nonces == [] then Err("secp256k1 signing exhausted its deterministic nonce sequence")
    else match TryNonce(d, message, key, nonces[0])
      case Err(e) => Err(e)
      case Ok(None) => FirstSignature(d, message, key, nonces[1..])
      case Ok(Some(signature)) => Ok(signature)
  }

  function Sign(d: Domain, digest: seq<byte>, key: int, nonces: seq<int>): Result<Signature>
    requires Usable(d)
  {
    if |digest| != 32 then Err("secp256k1 signs exactly one 32-byte digest")
    else FirstSignature(d, MessageInt(d, digest), key, nonces)
  }

  /** The loop of the code. */
  method SignDigest(d: Domain, digest: seq<byte>, key: int, nonces: seq<int>) returns (result: Result<Signature>)
    requires Usable(d)
    ensures result == Sign(d, digest, key, nonces)
  {
    if |digest| != 32 {
      return Err("secp256k1 signs exactly one 32-byte digest");
    }
    var message := MessageInt(d, digest);
    assert nonces[0..] == nonces;
    for i := 0 to |nonces|
      invariant FirstSignature(d, message, key, nonces[i..]) == FirstSignature(d, message, key, nonces)
    {
      assert nonces[i..][1..] == nonces[i + 1..];
      match TryNonce(d, message, key, nonces[i])
      case Err(e) => return Err(e);
      case Ok(None) =>
      case Ok(Some(signature)) => return Ok(signature);
    }
    return Err("secp256k1 signing exhausted its deterministic nonce sequence");
  }

  /** The candidate for the nonce point: the root of x^3 + 7 with the wanted parity. */
  function RecoverPoint(d: Domain, r: int, recovery: int): Result<Triple>
    requires Usable(d)
  {
    var x := if recovery >= 2 then r + d.n else r;
    if x >= d.p then Err("secp256k1 recovery x coordinate is outside the field") else
      var alpha := (Pow(x, 3) % d.p + 7) % d.p;
      var beta := PowMod(alpha, (d.p + 1) / 4, d.p);
      if (beta * beta - alpha) % d.p != 0 then Err("secp256k1 recovery point is not on the curve") else
        Ok(Triple(x, if beta % 2 == recovery % 2 then beta else d.p - beta, 1))
  }

  function RecoverPublicKey(d: Domain, digest: seq<byte>, sig: Signature): Result<Point>
    requires Usable(d)
  {
    if |digest| != 32 || !(0 < sig.r < d.n) || !(0 < sig.s < d.n) then
      Err("secp256k1 signature components are outside the scalar field")
    else if !(0 <= sig.recovery <= 3) then Err("secp256k1 recovery id is outside 0..3")
    else match RecoverPoint(d, sig.r, sig.recovery)
      case Err(e) => Err(e)
      case Ok(point) =>
        var message := MessageInt(d, digest);
        var combined := AddTriples(d.p,
                                   Multiply(d.p, d.n, point, sig.s),
                                   Multiply(d.p, d.n, d.g, (d.n - message) % d.n));
        var inverse := PowMod(sig.r, d.n - 2, d.n);
        match ToAffine(d.p, Multiply(d.p, d.n, combined, inverse))
        case Infinity => Err("secp256k1 produced the point at infinity")
        case Affine(x, y) => Ok(Affine(x, y))
  }

  function PublicKey(d: Domain, key: int): Point
    requires Usable(d)
  {
    ToAffine(d.p, Multiply(d.p, d.n, d.g, key))
  }

  // ---- the hypotheses ----

  /** A group of prime order n generated by g, over a field where the code's root formula works. */
  ghost predicate Sound(d: Domain)
  {
    && Usable(d)
    && Group(d.p) && NoTwoTorsion(d.p)
    && d.p % 4 == 3 && Prime(d.n) && d.n < d.p < 2 * d.n
    && OnCurveJ(d.p, d.g) && d.g.z != 0
    && Times(d.p, d.n, ToAffine(d.p, d.g)) == Infinity
  }

  /** What is assumed of secp256k1; everything else in Sound is computed from the constants. */
  ghost predicate Secp256k1Hypotheses()
  {
    var d := SECP256K1;
    && Prime(d.p) && Prime(d.n)
    && Associative(d.p) && NoTwoTorsion(d.p)
    && Times(d.p, d.n, ToAffine(d.p, d.g)) == Infinity
  }

  lemma Secp256k1Sound()
    requires Secp256k1Hypotheses()
    ensures Sound(SECP256K1)
  {
    GeneratorEquation();
    SmallNumbers();
  }

  lemma SmallNumbers()
    ensures var d := SECP256K1; Usable(d) && d.p % 4 == 3 && d.n < d.p < 2 * d.n
  {
  }

  lemma GeneratorEquation()
    ensures OnCurveJ(SECP256K1.p, SECP256K1.g)
  {
    var p, g := SECP256K1.p, SECP256K1.g;
    assert Cube(g.z) * Cube(g.z) == 1;
    assert (g.y * g.y - (Cube(g.x) + 7)) % p == 0;
    CongIntro(p, g.y * g.y, Cube(g.x) + 7, (g.y * g.y - (Cube(g.x) + 7)) / p);
  }

  // ---- the generator's multiples ----

  ghost function G(d: Domain): Point
    requires Usable(d)
  {
    ToAffine(d.p, d.g)
  }

  lemma GeneratorOnCurve(d: Domain)
    requires Sound(d)
    ensures OnCurve(d.p, G(d)) && G(d).Affine?
  {
    Meaning(d.p, d.g);
  }

  /** Multiples of the generator agree when their scalars agree modulo the order. */
  lemma SameScalar(d: Domain, j: nat, k: nat)
    requires Sound(d) && Cong(d.n, j, k)
    ensures Times(d.p, j, G(d)) == Times(d.p, k, G(d))
  {
    GeneratorOnCurve(d);
    TimesModulo(d.p, d.n, j, G(d));
    TimesModulo(d.p, d.n, k, G(d));
  }

  /** No multiple short of the order vanishes. */
  lemma ProperMultiple(d: Domain, k: nat)
    requires Sound(d) && !Cong(d.n, k, 0)
    ensures Times(d.p, k, G(d)).Affine?
  {
    GeneratorOnCurve(d);
    InverseByPower(d.n, k);
    var i := PowMod(k, d.n - 2, d.n);
    TimesProduct(d.p, i, k, G(d));
    TimesInfinity(d.p, i);
    assert i * k == k * i;
    SameScalar(d, i * k, 1);
    TimesOne(d.p, G(d));
  }

  /** n - 1 times a multiple of the generator is its opposite. */
  lemma OppositeMultiple(d: Domain, k: nat)
    requires Sound(d)
    ensures (d.n - 1) * k >= 0
    ensures Times(d.p, (d.n - 1) * k, G(d)) == Negate(d.p, Times(d.p, k, G(d)))
  {
    MulMono(0, d.n - 1, k);
    assert (d.n - 1) * k + k == k * d.n;
    Complement(d, (d.n - 1) * k, k);
  }

  lemma Complement(d: Domain, j: nat, k: nat)
    requires Sound(d) && j + k == k * d.n
    ensures Times(d.p, j, G(d)) == Negate(d.p, Times(d.p, k, G(d)))
  {
    GeneratorOnCurve(d);
    var p := d.p;
    var q, o := Times(p, k, G(d)), Times(p, j, G(d));
    TimesOnCurve(p, k, G(d));
    TimesOnCurve(p, j, G(d));
    TimesAdd(p, j, k, G(d));
    TimesProduct(p, k, d.n, G(d));
    TimesInfinity(p, k);
    NegateFacts(p, q);
    AddAssociates(p, o, q, Negate(p, q));
  }

  // ---- recovering the nonce point ----

  lemma CubeIsPower(x: int)
    ensures Pow(x, 3) == x * x * x
  {
    assert Pow(x, 1) == x * Pow(x, 0);
    assert Pow(x, 2) == x * Pow(x, 1);
    assert Pow(x, 3) == x * Pow(x, 2) == x * (x * x);
  }

  /** p - y is the reduced opposite of y, and has the other parity. */
  lemma OppositeY(p: int, y: int)
    requires p > 2 && p % 2 == 1 && 0 < y < p
    ensures (-y) % p == p - y && (p - y) % 2 != y % 2
  {
    DivisionUnique(p, -y, -1, p - y);
  }

  /** From an abscissa and a parity the code finds the curve point with both. */
  lemma RootFound(d: Domain, a: Point, r: int, recovery: int)
    requires Sound(d) && OnCurve(d.p, a) && a.Affine?
    requires a.x == (if recovery >= 2 then r + d.n else r)
    ensures RecoverPoint(d, r, recovery) ==
      Ok(Triple(a.x, if a.y % 2 == recovery % 2 then a.y else d.p - a.y, 1))
  {
    var alpha := (Pow(a.x, 3) % d.p + 7) % d.p;
    CubeIsPower(a.x);
    Radicand(d.p, Pow(a.x, 3));
    RootChoice(d.p, alpha, a.y);
    OppositeY(d.p, a.y);
    RootShape(d, r, recovery, a.x, PowMod(alpha, (d.p + 1) / 4, d.p));
  }

  /** What the code returns for a root it has found. */
  lemma RootShape(d: Domain, r: int, recovery: int, x: int, beta: int)
    requires Usable(d) && x == (if recovery >= 2 then r + d.n else r) && x < d.p
    requires var alpha := (Pow(x, 3) % d.p + 7) % d.p;
      beta == PowMod(alpha, (d.p + 1) / 4, d.p) && (beta * beta - alpha) % d.p == 0
    ensures RecoverPoint(d, r, recovery) == Ok(Triple(x, if beta % 2 == recovery % 2 then beta else d.p - beta, 1))
  {
  }

  lemma Radicand(p: int, c: int)
    requires p > 0
    ensures Cong(p, (c % p + 7) % p, c + 7)
  {
    CongMod(p, c);
    CongAdd(p, c % p, c, 7, 7);
    CongMod(p, c % p + 7);
  }

  lemma RootChoice(p: int, alpha: int, y: int)
    requires Prime(p) && p % 4 == 3 && Cong(p, alpha, y * y) && 0 < y < p
    ensures var beta := PowMod(alpha, (p + 1) / 4, p);
      (beta * beta - alpha) % p == 0 && (beta == y || beta == p - y)
  {
    var beta := PowMod(alpha, (p + 1) / 4, p);
    RootByPower(p, alpha, y);
    CongAdd(p, beta * beta, alpha, alpha, alpha);
    DivisionUnique(p, 0, 0, 0);
    DivisionUnique(p, beta, 0, beta);
    DivisionUnique(p, y, 0, y);
    DivisionUnique(p, -y, -1, p - y);
  }

  lemma UnitTriple(p: int, a: Point)
    requires Prime(p) && p > 3 && NoTwoTorsion(p) && OnCurve(p, a) && a.Affine?
    ensures var q := Triple(a.x, a.y, 1); OnCurveJ(p, q) && ToAffine(p, q) == a
  {
    var q := Triple(a.x, a.y, 1);
    assert Cube(q.z) == 1 && q.z * q.z == 1;
    assert a.x * (q.z * q.z) == a.x && a.y * Cube(q.z) == a.y;
    SmallNonzero(p, 1);
    Lands(p, q, a);
  }

  // ---- the scalar equation ----

  /** s*k = m + r*key for the s the code computes before normalising it. */
  lemma SigningEquation(n: int, k: int, m: int, r: int, key: int, s: int)
    requires Prime(n) && !Cong(n, k, 0) && s == PowMod(k, n - 2, n) * (m + r * key) % n
    ensures Cong(n, s * k, m + r * key)
  {
    var e := m + r * key;
    InverseByPower(n, k);
    InverseAway(n, PowMod(k, n - 2, n), k, e);
  }

  /** (i e) k = e when i inverts k. */
  lemma InverseAway(n: int, i: int, k: int, e: int)
    requires n > 0 && Cong(n, k * i, 1)
    ensures Cong(n, (i * e % n) * k, e)
  {
    CongMod(n, i * e);
    CongMul(n, i * e % n, i * e, k, k);
    CongMul(n, k * i, 1, e, e);
    assert (i * e) * k == (k * i) * e by { Associates(k, i, e); }
  }

  /** Multiplying what is left after subtracting the message by the inverse of r gives the key. */
  lemma KeyScalar(n: int, t: int, m: int, r: int, key: int)
    requires Prime(n) && !Cong(n, r, 0) && Cong(n, t, m + r * key)
    ensures Cong(n, PowMod(r, n - 2, n) * (t + (n - m) % n), key)
  {
    var u := (n - m) % n;
    CongMod(n, n - m);
    CongIntro(n, n - m, -m, 1);
    CongAdd(n, t, m + r * key, u, -m);
    InverseByPower(n, r);
    InverseCancels(n, PowMod(r, n - 2, n), t + u, r, key);
  }

  /** i (r x) = x when i inverts r. */
  lemma InverseCancels(n: int, i: int, e: int, r: int, x: int)
    requires n > 0 && Cong(n, r * i, 1) && Cong(n, e, r * x)
    ensures Cong(n, i * e, x)
  {
    CongMul(n, i, i, e, r * x);
    CongMul(n, r * i, 1, x, x);
    assert i * (r * x) == (r * i) * x by { Associates(i, r, x); }
  }

  /** A sum with a multiple of the generator. */
  lemma PlusMultiple(d: Domain, first: Triple, t: nat, u: nat)
    requires Sound(d) && OnCurveJ(d.p, first) && ToAffine(d.p, first) == Times(d.p, t, G(d)) && u < d.n
    ensures var sum := AddTriples(d.p, first, Multiply(d.p, d.n, d.g, u));
      OnCurveJ(d.p, sum) && ToAffine(d.p, sum) == Times(d.p, t + u, G(d))
  {
    GeneratorOnCurve(d);
    DivisionUnique(d.n, u, 0, u);
    MultiplyRefines(d.p, d.n, d.g, u);
    AddRefines(d.p, first, Multiply(d.p, d.n, d.g, u));
    TimesAdd(d.p, t, u, G(d));
  }

  /** A multiple of a multiple of the generator. */
  lemma MultipleOfMultiple(d: Domain, q: Triple, j: nat, i: nat)
    requires Sound(d) && OnCurveJ(d.p, q) && ToAffine(d.p, q) == Times(d.p, j, G(d))
    ensures i * j >= 0 && ToAffine(d.p, Multiply(d.p, d.n, q, i)) == Times(d.p, i * j, G(d))
  {
    GeneratorOnCurve(d);
    OrderKills(d, j);
    MultiplyRefines(d.p, d.n, q, i);
    TimesProduct(d.p, i, j, G(d));
  }

  lemma OrderKills(d: Domain, j: nat)
    requires Sound(d)
    ensures Times(d.p, d.n, Times(d.p, j, G(d))) == Infinity
  {
    GeneratorOnCurve(d);
    TimesProduct(d.p, j, d.n, G(d));
    TimesInfinity(d.p, j);
    TimesProduct(d.p, d.n, j, G(d));
    assert j * d.n == d.n * j;
  }

  /** The recovery arithmetic, once the first summand is known to be t times the generator. */
  lemma RecoveredScalar(d: Domain, first: Triple, t: nat, m: int, r: int, key: int)
    requires Sound(d) && OnCurveJ(d.p, first) && ToAffine(d.p, first) == Times(d.p, t, G(d))
    requires !Cong(d.n, r, 0) && Cong(d.n, t, m + r * key) && 0 < key < d.n
    ensures
      var combined := AddTriples(d.p, first, Multiply(d.p, d.n, d.g, (d.n - m) % d.n));
      ToAffine(d.p, Multiply(d.p, d.n, combined, PowMod(r, d.n - 2, d.n))) == PublicKey(d, key)
  {
    var u, i := (d.n - m) % d.n, PowMod(r, d.n - 2, d.n);
    PlusMultiple(d, first, t, u);
    MultipleOfMultiple(d, AddTriples(d.p, first, Multiply(d.p, d.n, d.g, u)), t + u, i);
    KeyScalar(d.n, t, m, r, key);
    SameScalar(d, i * (t + u), key);
    KeyIsAffine(d, key);
  }

  /** s times the nonce point, or n - s times its opposite: both are s*k times the generator. */
  lemma FirstSummand(d: Domain, k: nat, s: nat, flipped: bool, q: Triple)
    requires Sound(d) && 0 < s < d.n && OnCurveJ(d.p, q)
    requires ToAffine(d.p, q) ==
      if flipped then Negate(d.p, Times(d.p, k, G(d))) else Times(d.p, k, G(d))
    ensures
      var first := Multiply(d.p, d.n, q, if flipped then d.n - s else s);
      OnCurveJ(d.p, first) && s * k >= 0 && ToAffine(d.p, first) == Times(d.p, s * k, G(d))
  {
    var p, n := d.p, d.n;
    GeneratorOnCurve(d);
    var e: nat := if flipped then n - s else s;
    DivisionUnique(n, e, 0, e);
    MultiplyRefines(p, n, q, e);
    MulMono(0, s, k);
    if flipped {
      OppositeMultiple(d, k);
      TimesProduct(p, n - s, (n - 1) * k, G(d));
      BothSigns(n, s, k);
      SameScalar(d, (n - s) * ((n - 1) * k), s * k);
    } else {
      TimesProduct(p, s, k, G(d));
    }
  }

  lemma BothSigns(n: int, s: int, k: int)
    requires n > 0
    ensures Cong(n, (n - s) * ((n - 1) * k), s * k)
  {
    var e := n * k - k;
    assert (n - 1) * k == e;
    assert (n - s) * e == n * e - s * e;
    assert s * e == (s * k) * n - s * k;
    assert n * e - (s * k) * n == (e - s * k) * n;
    CongIntro(n, (n - s) * ((n - 1) * k), s * k, e - s * k);
  }

  // ---- sign, then recover ----

  lemma RecoveryBits(y: int, high: bool, flipped: bool, recovery: int)
    requires recovery ==
      (var id := y % 2 + (if high then 2 else 0); if flipped then FlipLowBit(id) else id)
    ensures 0 <= recovery <= 3 && (recovery >= 2 <==> high)
    ensures y % 2 == recovery % 2 <==> !flipped
  {
  }

  /** The first half of recovery finds the nonce point, or its opposite after the low-s flip. */
  lemma NoncePointFound(d: Domain, a: Point, r: int, flipped: bool, recovery: int)
    requires Sound(d) && OnCurve(d.p, a) && a.Affine? && r == a.x % d.n
    requires recovery >= 2 <==> a.x >= d.n
    requires a.y % 2 == recovery % 2 <==> !flipped
    ensures var found := RecoverPoint(d, r, recovery);
      && found.Ok? && OnCurveJ(d.p, found.value)
      && ToAffine(d.p, found.value) == if flipped then Negate(d.p, a) else a
  {
    AbscissaSplit(d.n, d.p, a.x);
    RootFound(d, a, r, recovery);
    var b := if flipped then Negate(d.p, a) else a;
    PointToFind(d.p, a, flipped);
    UnitTriple(d.p, b);
  }

  lemma PointToFind(p: int, a: Point, flipped: bool)
    requires Prime(p) && p > 3 && p % 2 == 1 && NoTwoTorsion(p) && OnCurve(p, a) && a.Affine?
    ensures var b := if flipped then Negate(p, a) else a;
      OnCurve(p, b) && b == Affine(a.x, if flipped then p - a.y else a.y)
  {
    OppositeY(p, a.y);
    NegateFacts(p, a);
  }

  /** How the pieces of recovery compose, with no facts about the curve. */
  lemma RecoveryPieces(d: Domain, digest: seq<byte>, sig: Signature, q: Triple, key: Point)
    requires Usable(d) && |digest| == 32 && 0 < sig.r < d.n && 0 < sig.s < d.n && 0 <= sig.recovery <= 3
    requires RecoverPoint(d, sig.r, sig.recovery) == Ok(q) && key.Affine?
    requires
      var combined := AddTriples(d.p, Multiply(d.p, d.n, q, sig.s),
                                 Multiply(d.p, d.n, d.g, (d.n - MessageInt(d, digest)) % d.n));
      ToAffine(d.p, Multiply(d.p, d.n, combined, PowMod(sig.r, d.n - 2, d.n))) == key
    ensures RecoverPublicKey(d, digest, sig) == Ok(key)
  {
  }

  /** The second half removes message and nonce. */
  lemma RecoverFrom(d: Domain, digest: seq<byte>, key: int, nonce: nat, a: Point, s: nat, sig: Signature)
    requires Sound(d) && |digest| == 32 && 0 < key < d.n && 0 < s < d.n
    requires OnCurve(d.p, a) && a.Affine? && a == Times(d.p, nonce, G(d))
    requires a.x % d.n != 0 && sig == LowS(d, a.x % d.n, s, RecoveryOf(d, a))
    requires Cong(d.n, s * nonce, MessageInt(d, digest) + sig.r * key)
    ensures 0 <= sig.recovery <= 3 && RecoverPublicKey(d, digest, sig) == Ok(PublicKey(d, key))
  {
    var flipped := s > d.n / 2;
    RecoveryBits(a.y, a.x >= d.n, flipped, sig.recovery);
    NoncePointFound(d, a, sig.r, flipped, sig.recovery);
    var q := RecoverPoint(d, sig.r, sig.recovery).value;
    FirstSummand(d, nonce, s, flipped, q);
    RecoverRest(d, digest, key, s * nonce, sig, q);
  }

  lemma RecoverRest(d: Domain, digest: seq<byte>, key: int, t: nat, sig: Signature, q: Triple)
    requires Sound(d) && |digest| == 32 && 0 < key < d.n && 0 < sig.s < d.n && 0 < sig.r < d.n
    requires 0 <= sig.recovery <= 3 && RecoverPoint(d, sig.r, sig.recovery) == Ok(q)
    requires OnCurveJ(d.p, Multiply(d.p, d.n, q, sig.s))
    requires ToAffine(d.p, Multiply(d.p, d.n, q, sig.s)) == Times(d.p, t, G(d))
    requires Cong(d.n, t, MessageInt(d, digest) + sig.r * key)
    ensures RecoverPublicKey(d, digest, sig) == Ok(PublicKey(d, key))
  {
    SmallNonzero(d.n, sig.r);
    RecoveredScalar(d, Multiply(d.p, d.n, q, sig.s), t, MessageInt(d, digest), sig.r, key);
    KeyIsAffine(d, key);
    RecoveryPieces(d, digest, sig, q, PublicKey(d, key));
  }

  lemma KeyIsAffine(d: Domain, key: int)
    requires Sound(d) && 0 < key < d.n
    ensures PublicKey(d, key) == Times(d.p, key, G(d)) && PublicKey(d, key).Affine?
    ensures OnCurve(d.p, PublicKey(d, key))
  {
    GeneratorOnCurve(d);
    SmallNonzero(d.n, key);
    ProperMultiple(d, key);
    MultiplyRefines(d.p, d.n, d.g, key);
    TimesOnCurve(d.p, key, G(d));
  }

  /** A nonce point gives a signature that recovers to the key. */
  lemma PointRoundTrip(d: Domain, digest: seq<byte>, key: int, nonce: nat, a: Point)
    requires Sound(d) && |digest| == 32 && 0 < key < d.n && 0 < nonce < d.n
    requires OnCurve(d.p, a) && a.Affine? && a == Times(d.p, nonce, G(d)) && a.x % d.n != 0
    requires RawS(d, MessageInt(d, digest), key, nonce, a.x % d.n) != 0
    ensures var sig := LowS(d, a.x % d.n, RawS(d, MessageInt(d, digest), key, nonce, a.x % d.n), RecoveryOf(d, a));
      && 0 < sig.r < d.n && 0 < sig.s <= d.n / 2 && 0 <= sig.recovery <= 3
      && RecoverPublicKey(d, digest, sig) == Ok(PublicKey(d, key))
  {
    var r := a.x % d.n;
    var s := RawS(d, MessageInt(d, digest), key, nonce, r);
    SmallNonzero(d.n, nonce);
    SigningEquation(d.n, nonce, MessageInt(d, digest), r, key, s);
    RecoverFrom(d, digest, key, nonce, a, s, LowS(d, r, s, RecoveryOf(d, a)));
  }

  /**
   Whatever one turn of the signing loop returns is in range and low-s, and recovering from it gives
   back the signer's public key.
   */
  lemma NonceRoundTrip(d: Domain, digest: seq<byte>, key: int, nonce: int)
    requires Sound(d) && |digest| == 32 && 0 < key < d.n && 0 < nonce < d.n
    ensures var t := TryNonce(d, MessageInt(d, digest), key, nonce);
      && t.Ok?
      && (t.value.Some? ==>
        var sig := t.value.value;
        && 0 < sig.r < d.n && 0 < sig.s <= d.n / 2 && 0 <= sig.recovery <= 3
        && RecoverPublicKey(d, digest, sig) == Ok(PublicKey(d, key)))
  {
    KeyIsAffine(d, nonce);
    var a := PublicKey(d, nonce);
    if a.x % d.n != 0 && RawS(d, MessageInt(d, digest), key, nonce, a.x % d.n) != 0 {
      PointRoundTrip(d, digest, key, nonce, a);
    }
  }

  lemma AbscissaSplit(n: int, p: int, x: int)
    requires 0 < n && 0 <= x < p < 2 * n
    ensures x == x % n + (if x >= n then n else 0)
  {
    if x >= n { DivisionUnique(n, x, 1, x - n); } else { DivisionUnique(n, x, 0, x); }
  }

  /**
   Signing and recovering are inverse: every signature the signer returns is low-s, and recovers to
   exactly the signer's public key.
   */
  lemma SignThenRecover(d: Domain, digest: seq<byte>, key: int, nonces: seq<int>)
    requires Sound(d) && 0 < key < d.n
    requires forall i :: 0 <= i < |nonces| ==> 0 < nonces[i] < d.n
    ensures var result := Sign(d, digest, key, nonces);
      result.Ok? ==>
        && 0 < result.value.r < d.n && 0 < result.value.s <= d.n / 2 && 0 <= result.value.recovery <= 3
        && RecoverPublicKey(d, digest, result.value) == Ok(PublicKey(d, key))
  {
    if |digest| == 32 {
      FirstRoundTrip(d, digest, key, nonces);
    }
  }

  lemma {:induction false} FirstRoundTrip(d: Domain, digest: seq<byte>, key: int, nonces: seq<int>)
    requires Sound(d) && |digest| == 32 && 0 < key < d.n
    requires forall i :: 0 <= i < |nonces| ==> 0 < nonces[i] < d.n
    ensures var result := FirstSignature(d, MessageInt(d, digest), key, nonces);
      result.Ok? ==>
        && 0 < result.value.r < d.n && 0 < result.value.s <= d.n / 2 && 0 <= result.value.recovery <= 3
        && RecoverPublicKey(d, digest, result.value) == Ok(PublicKey(d, key))
  {
    if nonces != [] {
      NonceRoundTrip(d, digest, key, nonces[0]);
      FirstRoundTrip(d, digest, key, nonces[1..]);
    }
  }
}
