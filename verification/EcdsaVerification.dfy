/**
 What a signature says, without the code that makes it or recovers from it: the verification equation of
 SEC 1 v2.0, section 4.1.4, over the affine group law and the digest's own number.
 */
module EcdsaVerification {
  import opened ModArith
  import opened AffineCurve
  import opened Jacobian
  import opened Bytes
  import opened Ecdsa

  /** The digest's number. */
  function Number(digest: seq<byte>): nat
  {
    FromBigEndian(digest)
  }

  /**
   r and s verify for a digest and a public key: for any inverse w of s, the point (e w) G + (r w) Q is
   not infinity and its abscissa modulo the order is r.
   */
  ghost predicate Verifies(d: Domain, digest: seq<byte>, q: Point, r: int, s: int)
    requires Usable(d)
  {
    && 0 < r < d.n && 0 < s < d.n
    && forall w: nat :: Cong(d.n, w * s, 1) ==> AbscissaIs(d, VerifyingPoint(d, digest, q, r, w), r)
  }

  ghost function VerifyingPoint(d: Domain, digest: seq<byte>, q: Point, r: int, w: nat): Point
    requires Usable(d)
  {
    Add(d.p, Times(d.p, Number(digest) * w % d.n, ToAffine(d.p, d.g)), Times(d.p, r * w % d.n, q))
  }

  ghost predicate AbscissaIs(d: Domain, point: Point, r: int)
    requires Usable(d)
  {
    point.Affine? && point.x % d.n == r
  }

  /** The nonce times s is, up to its sign, the digest's number plus r times the key. */
  ghost predicate SignsNumber(n: int, e: int, key: int, nonce: int, r: int, s: int)
    requires n > 0
  {
    Cong(n, s * nonce, e + r * key) || Cong(n, s * nonce, -(e + r * key))
  }

  /** A nonce that the signing loop passes over. */
  ghost predicate Skipped(d: Domain, e: int, key: int, nonce: nat)
    requires Usable(d)
  {
    var point := Times(d.p, nonce, ToAffine(d.p, d.g));
    point.Affine? && (point.x % d.n == 0 || Cong(d.n, e + point.x % d.n * key, 0))
  }

  /** The signature that a nonce gives. */
  ghost predicate SignedWith(d: Domain, digest: seq<byte>, key: int, nonce: nat, sig: Signature)
    requires Usable(d)
  {
    && AbscissaIs(d, Times(d.p, nonce, ToAffine(d.p, d.g)), sig.r)
    && SignsNumber(d.n, Number(digest), key, nonce, sig.r, sig.s)
  }

  // ---- the scalars ----

  /** w (e + r key) is the nonce when w inverts s. */
  lemma VerificationScalar(n: int, w: nat, s: int, e: nat, r: nat, key: nat, k: nat)
    requires n > 0 && Cong(n, w * s, 1) && Cong(n, s * k, e + r * key)
    ensures Cong(n, e * w % n + (r * w % n) * key, k)
  {
    CongMod(n, e * w);
    CongMod(n, r * w);
    CongMul(n, r * w % n, r * w, key, key);
    CongAdd(n, e * w % n, e * w, (r * w % n) * key, (r * w) * key);
    Factor(w, e, r, key);
    CongMul(n, w, w, s * k, e + r * key);
    CongMul(n, w * s, 1, k, k);
    Associates(w, s, k);
  }

  lemma Factor(w: int, e: int, r: int, key: int)
    ensures e * w + (r * w) * key == w * (e + r * key)
  {
    Associates(r, w, key);
    Associates(w, r, key);
    assert (r * w) * key == (w * r) * key;
    assert w * (e + r * key) == w * e + w * (r * key);
  }

  /** A sum of the opposite sign is that of the opposite nonce. */
  lemma OppositeNonce(n: int, s: int, k: int, e: int)
    requires n > 0 && Cong(n, s * k, -e)
    ensures Cong(n, s * ((n - 1) * k), e)
  {
    Associates(s, n - 1, k);
    assert (s * (n - 1)) * k == (n - 1) * (s * k) by { Associates(n - 1, s, k); }
    CongIntro(n, n - 1, -1, 1);
    CongMul(n, n - 1, -1, s * k, -e);
  }

  // ---- the equation ----

  lemma PointOfScalars(d: Domain, key: nat, u: nat, v: nat)
    requires Sound(d)
    ensures v * key >= 0
    ensures Add(d.p, Times(d.p, u, G(d)), Times(d.p, v, Times(d.p, key, G(d)))) == Times(d.p, u + v * key, G(d))
  {
    GeneratorOnCurve(d);
    TimesProduct(d.p, v, key, G(d));
    TimesAdd(d.p, u, v * key, G(d));
  }

  lemma SameAbscissa(p: int, a: Point)
    requires p > 0
    ensures Negate(p, a).Affine? <==> a.Affine?
    ensures a.Affine? ==> Negate(p, a).x == a.x
  {
  }

  /** The verifying point is the nonce point or its opposite. */
  lemma VerifyingPointIs(d: Domain, digest: seq<byte>, key: nat, nonce: nat, r: nat, s: int, w: nat)
    requires Sound(d) && Cong(d.n, w * s, 1) && SignsNumber(d.n, Number(digest), key, nonce, r, s)
    ensures var point := VerifyingPoint(d, digest, Times(d.p, key, G(d)), r, w);
      var a := Times(d.p, nonce, G(d));
      point == a || point == Negate(d.p, a)
  {
    var e := Number(digest);
    PointOfScalars(d, key, e * w % d.n, r * w % d.n);
    if Cong(d.n, s * nonce, e + r * key) {
      VerificationScalar(d.n, w, s, e, r, key, nonce);
      SameScalar(d, e * w % d.n + (r * w % d.n) * key, nonce);
    } else {
      OppositeNonce(d.n, s, nonce, e + r * key);
      OppositeMultiple(d, nonce);
      VerificationScalar(d.n, w, s, e, r, key, (d.n - 1) * nonce);
      SameScalar(d, e * w % d.n + (r * w % d.n) * key, (d.n - 1) * nonce);
    }
  }

  /** What signs the number with a nonce verifies under the key. */
  lemma SignedVerifies(d: Domain, digest: seq<byte>, key: nat, nonce: nat, sig: Signature)
    requires Sound(d) && 0 < sig.r < d.n && 0 < sig.s < d.n && SignedWith(d, digest, key, nonce, sig)
    ensures Verifies(d, digest, Times(d.p, key, G(d)), sig.r, sig.s)
  {
    SameAbscissa(d.p, Times(d.p, nonce, G(d)));
    forall w: nat | Cong(d.n, w * sig.s, 1)
      ensures AbscissaIs(d, VerifyingPoint(d, digest, Times(d.p, key, G(d)), sig.r, w), sig.r)
    {
      VerifyingPointIs(d, digest, key, nonce, sig.r, sig.s, w);
    }
  }

  // ---- the signing loop ----

  /** s before it is normalised, and zero exactly when the number is. */
  lemma RawSigns(d: Domain, digest: seq<byte>, key: nat, nonce: nat, r: nat)
    requires Sound(d) && 0 < nonce < d.n
    ensures var s := RawS(d, MessageInt(d, digest), key, nonce, r);
      && 0 <= s < d.n && Cong(d.n, s * nonce, Number(digest) + r * key)
      && (s == 0 <==> Cong(d.n, Number(digest) + r * key, 0))
  {
    var n, m, e := d.n, MessageInt(d, digest), Number(digest);
    var s := RawS(d, m, key, nonce, r);
    SmallNonzero(n, nonce);
    SigningEquation(n, nonce, m, r, key, s);
    CongMod(n, e);
    CongAdd(n, m, e, r * key, r * key);
    ZeroProduct(n, s, nonce, e + r * key);
  }

  lemma ZeroProduct(n: int, s: int, k: int, e: int)
    requires Prime(n) && 0 <= s < n && !Cong(n, k, 0) && Cong(n, s * k, e)
    ensures s == 0 <==> Cong(n, e, 0)
  {
    if Cong(n, e, 0) {
      var i := PowMod(k, n - 2, n);
      InverseByPower(n, k);
      CongMul(n, s * k, 0, i, i);
      CongMul(n, k * i, 1, s, s);
      assert (s * k) * i == (k * i) * s by { Associates(s, k, i); }
      CongReduced(n, s, 0);
    }
  }

  /** One turn of the loop: what it returns is signed with this nonce, and nothing comes only of a skipped one. */
  lemma TurnSigns(d: Domain, digest: seq<byte>, key: nat, nonce: nat)
    requires Sound(d) && 0 < key < d.n && 0 < nonce < d.n
    ensures var t := TryNonce(d, MessageInt(d, digest), key, nonce);
      && t.Ok?
      && (t.value.None? <==> Skipped(d, Number(digest), key, nonce))
      && (t.value.Some? ==> SignedWith(d, digest, key, nonce, t.value.value))
  {
    KeyIsAffine(d, nonce);
    var a := Times(d.p, nonce, G(d));
    RawSigns(d, digest, key, nonce, a.x % d.n);
    TurnOf(d, digest, key, nonce, a, RawS(d, MessageInt(d, digest), key, nonce, a.x % d.n));
  }

  /** The turn once its point and its s are known. */
  lemma TurnOf(d: Domain, digest: seq<byte>, key: nat, nonce: nat, a: Point, s: nat)
    requires Usable(d) && PublicKey(d, nonce) == a && a == Times(d.p, nonce, ToAffine(d.p, d.g)) && a.Affine?
    requires s == RawS(d, MessageInt(d, digest), key, nonce, a.x % d.n)
    requires Cong(d.n, s * nonce, Number(digest) + a.x % d.n * key)
    requires s == 0 <==> Cong(d.n, Number(digest) + a.x % d.n * key, 0)
    ensures var t := TryNonce(d, MessageInt(d, digest), key, nonce);
      && t.Ok?
      && (t.value.None? <==> Skipped(d, Number(digest), key, nonce))
      && (t.value.Some? ==> SignedWith(d, digest, key, nonce, t.value.value))
  {
    NormalisedSigns(d, Number(digest), key, nonce, a.x % d.n, s, RecoveryOf(d, a));
  }

  lemma NormalisedSigns(d: Domain, e: int, key: int, nonce: int, r: int, s: int, recovery: int)
    requires Usable(d) && Cong(d.n, s * nonce, e + r * key)
    ensures SignsNumber(d.n, e, key, nonce, r, LowS(d, r, s, recovery).s) && LowS(d, r, s, recovery).r == r
  {
    assert (d.n - s) * nonce == -(s * nonce) + nonce * d.n;
    CongIntro(d.n, (d.n - s) * nonce, -(s * nonce), nonce);
    CongAdd(d.n, 0, 0, s * nonce, e + r * key);
  }

  /** The nonce at this place is the first that is not skipped, and signs. */
  ghost predicate SignedBy(d: Domain, digest: seq<byte>, key: int, nonces: seq<int>, sig: Signature, i: int)
    requires Usable(d) && forall k :: 0 <= k < |nonces| ==> nonces[k] > 0
  {
    && 0 <= i < |nonces| && SignedWith(d, digest, key, nonces[i], sig)
    && !Skipped(d, Number(digest), key, nonces[i])
    && forall k :: 0 <= k < i ==> Skipped(d, Number(digest), key, nonces[k])
  }

  lemma {:induction false} FirstSigns(d: Domain, digest: seq<byte>, key: nat, nonces: seq<int>)
    requires Sound(d) && 0 < key < d.n && forall i :: 0 <= i < |nonces| ==> 0 < nonces[i] < d.n
    ensures var result := FirstSignature(d, MessageInt(d, digest), key, nonces);
      if result.Ok? then exists i :: SignedBy(d, digest, key, nonces, result.value, i)
      else forall k :: 0 <= k < |nonces| ==> Skipped(d, Number(digest), key, nonces[k])
  {
    if nonces != [] {
      TurnSigns(d, digest, key, nonces[0]);
      FirstSigns(d, digest, key, nonces[1..]);
      var result := FirstSignature(d, MessageInt(d, digest), key, nonces);
      var later := FirstSignature(d, MessageInt(d, digest), key, nonces[1..]);
      if !Skipped(d, Number(digest), key, nonces[0]) {
        assert SignedBy(d, digest, key, nonces, result.value, 0);
      } else if later.Ok? {
        var i :| SignedBy(d, digest, key, nonces[1..], later.value, i);
        Shifted(d, digest, key, nonces, later.value, i);
      }
    }
  }

  lemma Shifted(d: Domain, digest: seq<byte>, key: int, nonces: seq<int>, sig: Signature, i: int)
    requires Usable(d) && nonces != [] && forall k :: 0 <= k < |nonces| ==> nonces[k] > 0
    requires Skipped(d, Number(digest), key, nonces[0]) && SignedBy(d, digest, key, nonces[1..], sig, i)
    ensures SignedBy(d, digest, key, nonces, sig, i + 1)
  {
    assert nonces[1..][i] == nonces[i + 1];
    forall k | 0 <= k < i + 1
      ensures Skipped(d, Number(digest), key, nonces[k])
    {
      if k > 0 { assert nonces[1..][k - 1] == nonces[k]; }
    }
  }

  /**
   A signature is one of the digest: it is made with the first nonce that gives one, it satisfies the
   signing equation with the digest's number, and it verifies under the public key. There is none exactly
   when the digest is not 32 bytes long or every nonce is skipped.
   */
  lemma SignatureVerifies(d: Domain, digest: seq<byte>, key: int, nonces: seq<int>)
    requires Sound(d) && 0 < key < d.n && forall i :: 0 <= i < |nonces| ==> 0 < nonces[i] < d.n
    ensures var result := Sign(d, digest, key, nonces);
      && (result.Err? <==>
            || |digest| != 32
            || forall k :: 0 <= k < |nonces| ==> Skipped(d, Number(digest), key, nonces[k]))
      && (result.Ok? ==>
            && (exists i :: SignedBy(d, digest, key, nonces, result.value, i))
            && Verifies(d, digest, PublicKey(d, key), result.value.r, result.value.s))
  {
    var result := Sign(d, digest, key, nonces);
    if |digest| == 32 {
      FirstSigns(d, digest, key, nonces);
      if result.Ok? {
        var i :| SignedBy(d, digest, key, nonces, result.value, i);
        SignThenRecover(d, digest, key, nonces);
        KeyIsAffine(d, key);
        SignedVerifies(d, digest, key, nonces[i], result.value);
      }
    }
  }

  /** With the same sign, nonce and signature sign one number only. */
  lemma SignsOneNumber(n: int, e: int, e': int, key: int, nonce: int, r: int, s: int)
    requires n > 0 && Cong(n, s * nonce, e + r * key) && Cong(n, s * nonce, e' + r * key)
    ensures Cong(n, e, e')
  {
    CongAdd(n, e + r * key, e' + r * key, r * key, r * key);
  }

  // ---- what recovery returns, for any signature ----

  /** Every curve point is killed by the order: the generator generates the whole curve. */
  ghost predicate CofactorOne(d: Domain)
    requires Usable(d)
  {
    forall a :: OnCurve(d.p, a) ==> Times(d.p, d.n, a) == Infinity
  }

  /** The abscissa that r and the recovery id name. */
  function Abscissa(d: Domain, sig: Signature): int
  {
    if sig.recovery >= 2 then sig.r + d.n else sig.r
  }

  /** The curve point that a signature names. */
  ghost predicate Names(d: Domain, sig: Signature, a: Point)
    requires Usable(d)
  {
    a.Affine? && OnCurve(d.p, a) && a.x == Abscissa(d, sig) && a.y % 2 == sig.recovery % 2
  }

  /** A root is an ordinate of the curve, and never zero. */
  lemma RootOnCurve(p: int, x: int, beta: int)
    requires Prime(p) && p > 3 && p % 2 == 1 && NoTwoTorsion(p) && 0 <= x < p && 0 <= beta < p
    requires Cong(p, beta * beta, x * x * x + 7)
    ensures beta != 0 && OnCurve(p, Affine(x, beta)) && OnCurve(p, Affine(x, p - beta))
  {
    var a := Affine(x, beta);
    assert OnCurve(p, a);
    PointToFind(p, a, true);
  }

  /** The candidate root is one exactly when the code accepts it. */
  lemma RootAccepted(d: Domain, x: int, beta: int)
    requires Usable(d)
    ensures (beta * beta - (Pow(x, 3) % d.p + 7) % d.p) % d.p == 0 <==> Cong(d.p, beta * beta, x * x * x + 7)
  {
    var alpha, c := (Pow(x, 3) % d.p + 7) % d.p, x * x * x + 7;
    CubeIsPower(x);
    Radicand(d.p, Pow(x, 3));
    if (beta * beta - alpha) % d.p == 0 { CongAdd(d.p, beta * beta - alpha, 0, alpha, c); }
    if Cong(d.p, beta * beta, c) { CongAdd(d.p, beta * beta, c, alpha, c); }
  }

  lemma FoundRoot(d: Domain, r: int, recovery: int, x: int) returns (beta: int)
    requires Usable(d) && RecoverPoint(d, r, recovery).Ok? && x == if recovery >= 2 then r + d.n else r
    ensures x < d.p && 0 <= beta < d.p && Cong(d.p, beta * beta, x * x * x + 7)
    ensures RecoverPoint(d, r, recovery).value ==
      Triple(x, if beta % 2 == recovery % 2 then beta else d.p - beta, 1)
  {
    beta := PowMod((Pow(x, 3) % d.p + 7) % d.p, (d.p + 1) / 4, d.p);
    RootAccepted(d, x, beta);
  }

  /** A root, or its opposite, makes a triple of the curve point. */
  lemma RootTriple(p: int, x: int, beta: int, y: int)
    requires Prime(p) && p > 3 && p % 2 == 1 && NoTwoTorsion(p) && 0 <= x < p && 0 <= beta < p
    requires Cong(p, beta * beta, x * x * x + 7) && (y == beta || y == p - beta)
    ensures 0 < y < p && OnCurve(p, Affine(x, y))
    ensures OnCurveJ(p, Triple(x, y, 1)) && ToAffine(p, Triple(x, y, 1)) == Affine(x, y)
  {
    RootOnCurve(p, x, beta);
    UnitTriple(p, Affine(x, y));
  }

  lemma FoundPoint(d: Domain, sig: Signature)
    requires Sound(d) && 0 < sig.r && 0 <= sig.recovery <= 3 && RecoverPoint(d, sig.r, sig.recovery).Ok?
    ensures var q := RecoverPoint(d, sig.r, sig.recovery).value;
      OnCurveJ(d.p, q) && Names(d, sig, ToAffine(d.p, q))
  {
    var x := Abscissa(d, sig);
    var beta := FoundRoot(d, sig.r, sig.recovery, x);
    var y := if beta % 2 == sig.recovery % 2 then beta else d.p - beta;
    RootTriple(d.p, x, beta, y);
    assert (d.p - beta) % 2 != beta % 2 by { OtherParity(d.p, beta); }
  }

  lemma OtherParity(p: int, y: int)
    requires p % 2 == 1
    ensures (p - y) % 2 != y % 2
  {
  }

  /** r^-1 (s R - e G) */
  ghost function RecoveredPoint(d: Domain, digest: seq<byte>, sig: Signature, a: Point): Point
    requires Usable(d) && sig.s >= 0
  {
    var u := (d.n - MessageInt(d, digest)) % d.n;
    Times(d.p, PowMod(sig.r, d.n - 2, d.n),
          Add(d.p, Times(d.p, sig.s, a), Times(d.p, u, ToAffine(d.p, d.g))))
  }

  /** The rest of recovery, once the named point is found. */
  lemma RecoveredIs(d: Domain, digest: seq<byte>, sig: Signature, q: Triple, a: Point)
    requires Sound(d) && |digest| == 32 && 0 < sig.r < d.n && 0 < sig.s < d.n && 0 <= sig.recovery <= 3
    requires RecoverPoint(d, sig.r, sig.recovery) == Ok(q) && OnCurveJ(d.p, q) && ToAffine(d.p, q) == a
    ensures RecoverPublicKey(d, digest, sig).Ok? <==> RecoveredPoint(d, digest, sig, a).Affine?
    ensures RecoverPublicKey(d, digest, sig).Ok? ==>
      RecoverPublicKey(d, digest, sig).value == RecoveredPoint(d, digest, sig, a)
  {
    var u, i := (d.n - MessageInt(d, digest)) % d.n, PowMod(sig.r, d.n - 2, d.n);
    var first, second := Multiply(d.p, d.n, q, sig.s), Multiply(d.p, d.n, d.g, u);
    SmallMultiple(d, q, sig.s);
    SmallMultiple(d, d.g, u);
    AddRefines(d.p, first, second);
    SmallMultiple(d, AddTriples(d.p, first, second), i);
    RecoveryMade(d, digest, sig, q, ToAffine(d.p, Multiply(d.p, d.n, AddTriples(d.p, first, second), i)));
  }

  lemma SmallMultiple(d: Domain, q: Triple, k: nat)
    requires Sound(d) && OnCurveJ(d.p, q) && k < d.n
    ensures OnCurveJ(d.p, Multiply(d.p, d.n, q, k))
    ensures ToAffine(d.p, Multiply(d.p, d.n, q, k)) == Times(d.p, k, ToAffine(d.p, q))
  {
    DivisionUnique(d.n, k, 0, k);
    MultiplyRefines(d.p, d.n, q, k);
  }

  /** How the pieces of the code compose, with no facts about the curve. */
  lemma RecoveryMade(d: Domain, digest: seq<byte>, sig: Signature, q: Triple, key: Point)
    requires Usable(d) && |digest| == 32 && 0 < sig.r < d.n && 0 < sig.s < d.n && 0 <= sig.recovery <= 3
    requires RecoverPoint(d, sig.r, sig.recovery) == Ok(q)
    requires
      var combined := AddTriples(d.p, Multiply(d.p, d.n, q, sig.s),
                                 Multiply(d.p, d.n, d.g, (d.n - MessageInt(d, digest)) % d.n));
      ToAffine(d.p, Multiply(d.p, d.n, combined, PowMod(sig.r, d.n - 2, d.n))) == key
    ensures RecoverPublicKey(d, digest, sig).Ok? <==> key.Affine?
    ensures key.Affine? ==> RecoverPublicKey(d, digest, sig).value == key
  {
  }

  /** The point a signature names is the one the code finds. */
  lemma NamedIsFound(d: Domain, sig: Signature, a: Point)
    requires Sound(d) && 0 < sig.r && 0 <= sig.recovery <= 3 && Names(d, sig, a)
    ensures var found := RecoverPoint(d, sig.r, sig.recovery);
      found.Ok? && OnCurveJ(d.p, found.value) && ToAffine(d.p, found.value) == a
  {
    RootFound(d, a, sig.r, sig.recovery);
    UnitTriple(d.p, a);
  }

  /** Before anything is computed: sizes, ranges, and a root for the named abscissa. */
  lemma RecoveryNeeds(d: Domain, digest: seq<byte>, sig: Signature)
    requires Usable(d) && RecoverPublicKey(d, digest, sig).Ok?
    ensures |digest| == 32 && 0 < sig.r < d.n && 0 < sig.s < d.n && 0 <= sig.recovery <= 3
    ensures RecoverPoint(d, sig.r, sig.recovery).Ok?
  {
  }

  lemma {:induction false} TimesOfSum(p: int, k: nat, a: Point, b: Point)
    requires Group(p) && OnCurve(p, a) && OnCurve(p, b)
    ensures Times(p, k, Add(p, a, b)) == Add(p, Times(p, k, a), Times(p, k, b))
  {
    if k > 0 {
      TimesOfSum(p, k - 1, a, b);
      var ka, kb := Times(p, k - 1, a), Times(p, k - 1, b);
      TimesOnCurve(p, k - 1, a);
      TimesOnCurve(p, k - 1, b);
      Exchange(p, ka, kb, a, b);
    }
  }

  /** (a + b) + (c + e) = (a + c) + (b + e) */
  lemma Exchange(p: int, a: Point, b: Point, c: Point, e: Point)
    requires Group(p) && OnCurve(p, a) && OnCurve(p, b) && OnCurve(p, c) && OnCurve(p, e)
    ensures Add(p, Add(p, a, b), Add(p, c, e)) == Add(p, Add(p, a, c), Add(p, b, e))
  {
    AddOnCurve(p, a, b);
    AddOnCurve(p, a, c);
    AddAssociates(p, Add(p, a, b), c, e);
    AddAssociates(p, a, b, c);
    AddCommutes(p, b, c);
    AddAssociates(p, a, c, b);
    AddAssociates(p, Add(p, a, c), b, e);
  }

  /** A multiple of j a + k G, spread over its parts. */
  lemma MultipleOfSum(d: Domain, a: Point, v: nat, j: nat, k: nat, vj: nat, vk: nat)
    requires Sound(d) && OnCurve(d.p, a) && vj == v * j && vk == v * k
    ensures Times(d.p, v, Add(d.p, Times(d.p, j, a), Times(d.p, k, G(d)))) ==
      Add(d.p, Times(d.p, vj, a), Times(d.p, vk, G(d)))
  {
    GeneratorOnCurve(d);
    TimesOnCurve(d.p, j, a);
    TimesOnCurve(d.p, k, G(d));
    TimesOfSum(d.p, v, Times(d.p, j, a), Times(d.p, k, G(d)));
    TimesProduct(d.p, v, j, a);
    TimesProduct(d.p, v, k, G(d));
  }

  /** g + (a + h) = a when g and h cancel. */
  lemma Cancels(p: int, g: Point, h: Point, a: Point)
    requires Group(p) && OnCurve(p, g) && OnCurve(p, h) && OnCurve(p, a) && Add(p, g, h) == Infinity
    ensures Add(p, g, Add(p, a, h)) == a
  {
    AddCommutes(p, a, h);
    AddAssociates(p, g, h, a);
  }

  /** The scalars of the verifying point of a recovered key: one for the named point, none for the generator. */
  lemma RecoveredScalars(n: int, r: int, s: int, w: nat, i: nat, e: nat, v: nat, u: nat)
    requires n > 0 && Cong(n, w * s, 1) && Cong(n, r * i, 1)
    requires v == r * w % n * i && u == (n - e % n) % n
    ensures Cong(n, v * s, 1) && Cong(n, e * w % n + v * u, 0)
  {
    CongMod(n, r * w);
    CongMul(n, r * w % n, r * w, i, i);
    assert r * w * i == w * (r * i) by { Associates(w, r, i); }
    CongMul(n, w, w, r * i, 1);
    assert Cong(n, v, w);
    CongMul(n, v, w, s, s);
    CongMod(n, e);
    CongMod(n, n - e % n);
    CongIntro(n, n - e % n, -(e % n), 1);
    CongAdd(n, 0, 0, e % n, e);
    CongMul(n, v, w, u, 0 - e);
    CongMod(n, e * w);
    CongAdd(n, e * w % n, e * w, v * u, w * (0 - e));
    assert e * w + w * (0 - e) == 0;
  }

  /** t G + v (s a + u G) = a, for scalars that make it so. */
  lemma NamedRemains(d: Domain, a: Point, t: nat, v: nat, s: nat, u: nat, vs: nat, vu: nat)
    requires Sound(d) && CofactorOne(d) && OnCurve(d.p, a) && vs == v * s && vu == v * u
    requires Cong(d.n, vs, 1) && Cong(d.n, t + vu, 0)
    ensures Add(d.p, Times(d.p, t, G(d)),
                Times(d.p, v, Add(d.p, Times(d.p, s, a), Times(d.p, u, G(d))))) == a
  {
    MultipleOfSum(d, a, v, s, u, vs, vu);
    OneTimes(d, a, vs);
    Vanish(d, t, vu);
    Cancels(d.p, Times(d.p, t, G(d)), Times(d.p, vu, G(d)), a);
  }

  lemma Vanish(d: Domain, j: nat, k: nat)
    requires Sound(d) && Cong(d.n, j + k, 0)
    ensures OnCurve(d.p, Times(d.p, j, G(d))) && OnCurve(d.p, Times(d.p, k, G(d)))
    ensures Add(d.p, Times(d.p, j, G(d)), Times(d.p, k, G(d))) == Infinity
  {
    GeneratorOnCurve(d);
    TimesOnCurve(d.p, j, G(d));
    TimesOnCurve(d.p, k, G(d));
    TimesAdd(d.p, j, k, G(d));
    SameScalar(d, j + k, 0);
  }

  /** The same for a multiple taken in two steps. */
  lemma NamedRemainsTwice(
      d: Domain, a: Point, t: nat, b: nat, i: nat, s: nat, u: nat, v: nat, vs: nat, vu: nat)
    requires Sound(d) && CofactorOne(d) && OnCurve(d.p, a) && v == b * i && vs == v * s && vu == v * u
    requires Cong(d.n, vs, 1) && Cong(d.n, t + vu, 0)
    ensures Add(d.p, Times(d.p, t, G(d)),
                Times(d.p, b, Times(d.p, i, Add(d.p, Times(d.p, s, a), Times(d.p, u, G(d)))))) == a
  {
    SumOnCurve(d, a, s, u);
    TimesProduct(d.p, b, i, Add(d.p, Times(d.p, s, a), Times(d.p, u, G(d))));
    NamedRemains(d, a, t, v, s, u, vs, vu);
  }

  /** The verifying point of a recovered key is the point that the signature names. */
  lemma RecoveredVerifyingPoint(d: Domain, digest: seq<byte>, sig: Signature, a: Point, w: nat)
    requires Sound(d) && CofactorOne(d) && Names(d, sig, a) && 0 < sig.r < d.n && 0 < sig.s < d.n
    requires Cong(d.n, w * sig.s, 1)
    ensures VerifyingPoint(d, digest, RecoveredPoint(d, digest, sig, a), sig.r, w) == a
  {
    var e, i: nat, b: nat := Number(digest), PowMod(sig.r, d.n - 2, d.n), sig.r * w % d.n;
    var u: nat := (d.n - e % d.n) % d.n;
    SmallNonzero(d.n, sig.r);
    InverseByPower(d.n, sig.r);
    var v, vs, vu := ScalarsOf(d.n, sig.r, sig.s, w, i, e, b, u);
    NamedRemainsTwice(d, a, e * w % d.n, b, i, sig.s, u, v, vs, vu);
  }

  lemma ScalarsOf(n: int, r: int, s: nat, w: nat, i: nat, e: nat, b: nat, u: nat) returns (v: nat, vs: nat, vu: nat)
    requires n > 0 && Cong(n, w * s, 1) && Cong(n, r * i, 1) && b == r * w % n && u == (n - e % n) % n
    ensures v == b * i && vs == v * s && vu == v * u
    ensures Cong(n, vs, 1) && Cong(n, e * w % n + vu, 0)
  {
    MulMono(0, b, i);
    v := b * i;
    MulMono(0, v, s);
    MulMono(0, v, u);
    vs, vu := v * s, v * u;
    RecoveredScalars(n, r, s, w, i, e, v, u);
  }

  lemma SumOnCurve(d: Domain, a: Point, j: nat, k: nat)
    requires Sound(d) && OnCurve(d.p, a)
    ensures OnCurve(d.p, Add(d.p, Times(d.p, j, a), Times(d.p, k, G(d))))
  {
    GeneratorOnCurve(d);
    TimesOnCurve(d.p, j, a);
    TimesOnCurve(d.p, k, G(d));
    AddOnCurve(d.p, Times(d.p, j, a), Times(d.p, k, G(d)));
  }

  lemma OneTimes(d: Domain, a: Point, k: nat)
    requires Sound(d) && CofactorOne(d) && OnCurve(d.p, a) && Cong(d.n, k, 1)
    ensures Times(d.p, k, a) == a
  {
    TimesModulo(d.p, d.n, k, a);
    DivisionUnique(d.n, 1, 0, 1);
    assert Times(d.p, 0, a) == Infinity;
  }

  /**
   Whatever key recovery returns, for any digest and any signature, the signature verifies under it; and
   the recovery id names the point of the verifying equation by its abscissa and parity.
   */
  lemma RecoveredVerifies(d: Domain, digest: seq<byte>, sig: Signature)
    requires Sound(d) && CofactorOne(d) && RecoverPublicKey(d, digest, sig).Ok?
    ensures Verifies(d, digest, RecoverPublicKey(d, digest, sig).value, sig.r, sig.s)
    ensures exists a :: Names(d, sig, a) && forall w: nat :: Cong(d.n, w * sig.s, 1) ==>
      VerifyingPoint(d, digest, RecoverPublicKey(d, digest, sig).value, sig.r, w) == a
  {
    var q := RecoverPublicKey(d, digest, sig).value;
    RecoveryNeeds(d, digest, sig);
    FoundPoint(d, sig);
    var found := RecoverPoint(d, sig.r, sig.recovery).value;
    var a := ToAffine(d.p, found);
    RecoveredIs(d, digest, sig, found, a);
    forall w: nat | Cong(d.n, w * sig.s, 1)
      ensures VerifyingPoint(d, digest, q, sig.r, w) == a
    {
      RecoveredVerifyingPoint(d, digest, sig, a, w);
    }
    NamedResidue(d, sig, a);
  }

  lemma NamedResidue(d: Domain, sig: Signature, a: Point)
    requires Usable(d) && Names(d, sig, a) && 0 < sig.r < d.n
    ensures a.x % d.n == sig.r
  {
    DivisionUnique(d.n, a.x, if sig.recovery >= 2 then 1 else 0, sig.r);
  }

  /**
   Recovery takes 32 bytes, components of the scalar field, one of the ids 0 to 3 and the abscissa of a curve
   point, and refuses everything else; beyond that it fails only when the key would be infinity.
   */
  lemma RecoveryAccepts(d: Domain, digest: seq<byte>, sig: Signature)
    requires Sound(d)
    ensures RecoverPublicKey(d, digest, sig).Ok? <==>
      && |digest| == 32 && 0 < sig.r < d.n && 0 < sig.s < d.n && 0 <= sig.recovery <= 3
      && exists a :: Names(d, sig, a) && RecoveredPoint(d, digest, sig, a).Affine?
  {
    if RecoverPublicKey(d, digest, sig).Ok? {
      RecoveryNeeds(d, digest, sig);
      FoundPoint(d, sig);
      var found := RecoverPoint(d, sig.r, sig.recovery).value;
      RecoveredIs(d, digest, sig, found, ToAffine(d.p, found));
    }
    if |digest| == 32 && 0 < sig.r < d.n && 0 < sig.s < d.n && 0 <= sig.recovery <= 3 {
      forall a | Names(d, sig, a)
        ensures RecoverPublicKey(d, digest, sig).Ok? <==> RecoveredPoint(d, digest, sig, a).Affine?
      {
        NamedIsFound(d, sig, a);
        RecoveredIs(d, digest, sig, RecoverPoint(d, sig.r, sig.recovery).value, a);
      }
    }
  }
}
