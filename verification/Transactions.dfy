/**
 EIP-155 legacy transactions and signature addresses of owner-soak-driver/zkdeal_owner_soak.py.
 The hash is a parameter; nothing but being a function is used of it.
 */
module Transactions {
  import opened Bytes
  import opened Rlp
  import opened Ecdsa
  import opened AffineCurve
  import opened ModArith
  import V = EcdsaVerification

  type Hash = seq<byte> -> seq<byte>

  datatype Fields = Fields(
    nonce: int, gasPrice: int, gasLimit: int, to: seq<byte>, value: int, data: seq<byte>)

  // ---- the code ----

  function Common(f: Fields): seq<Item>
  {
    [Number(f.nonce), Number(f.gasPrice), Number(f.gasLimit), String(f.to), Number(f.value), String(f.data)]
  }

  function Unsigned(f: Fields, chainId: int): Item
  {
    List(Common(f) + [Number(chainId), Number(0), Number(0)])
  }

  function Signed(f: Fields, chainId: int, sig: Signature): Item
  {
    List(Common(f) + [Number(chainId * 2 + 35 + sig.recovery), Number(sig.r), Number(sig.s)])
  }

  function SignLegacyTransaction(d: Domain, keccak: Hash, f: Fields, chainId: int, key: int, nonces: seq<int>)
    : Result<(seq<byte>, seq<byte>)>
    requires Usable(d)
  {
    if |f.to| != 20 then Err("transaction recipient must be a 20-byte address")
    else match Encode(Unsigned(f, chainId))
      case Err(e) => Err(e)
      case Ok(unsigned) =>
        match Sign(d, keccak(unsigned), key, nonces)
        case Err(e) => Err(e)
        case Ok(sig) =>
          match Encode(Signed(f, chainId, sig))
          case Err(e) => Err(e)
          case Ok(raw) => Ok((raw, keccak(raw)))
  }

  /** The low twenty bytes of the hash of the two coordinates. */
  function PublicKeyAddress(keccak: Hash, q: Point): seq<byte>
    requires q.Affine? && 0 <= q.x < Radix(32) && 0 <= q.y < Radix(32)
  {
    var h := keccak(Fixed(q.x, 32) + Fixed(q.y, 32));
    if |h| < 12 then [] else h[12..]
  }

  /** The checks on the 65 bytes: only recovery ids 0 and 1 are usable, and s must be low. */
  function ReadSignature(d: Domain, raw: seq<byte>): Result<Signature>
  {
    if |raw| != 65 then Err("signature must be 65 signature bytes") else
      var r := FromBigEndian(raw[0..32]);
      var s := FromBigEndian(raw[32..64]);
      var v := raw[64] as int;
      var recovery := if v == 27 || v == 28 then v - 27 else v;
      if recovery > 1 then Err("signature carries an unusable recovery byte")
      else if s > d.n / 2 then Err("signature is not low-s normalized")
      else Ok(Signature(r, s, recovery))
  }

  function RecoverSignatureAddress(d: Domain, keccak: Hash, digest: seq<byte>, raw: seq<byte>): Result<seq<byte>>
    requires Usable(d)
  {
    match ReadSignature(d, raw)
    case Err(e) => Err(e)
    case Ok(sig) =>
      match RecoverPublicKey(d, digest, sig)
      case Err(e) => Err(e)
      case Ok(q) =>
        if q.Affine? && 0 <= q.x < Radix(32) && 0 <= q.y < Radix(32) then Ok(PublicKeyAddress(keccak, q))
        else Err("int too big to convert")
  }

  // ---- the receiving side, written from EIP-155 ----

  datatype Received = Received(fields: Fields, v: int, r: int, s: int)

  /** Nine strings, in the order of the signed list. */
  function ReadFields(items: seq<Item>): Option<Received>
  {
    if |items| != 9 || exists i :: 0 <= i < 9 && !items[i].String? then None
    else
      var int' := (i: int) requires 0 <= i < 9 => FromBigEndian(items[i].bytes);
      Some(Received(
        Fields(int'(0), int'(1), int'(2), items[3].bytes, int'(4), items[5].bytes),
        int'(6), int'(7), int'(8)))
  }

  /** A raw transaction is one RLP list and nothing after it. */
  function ReceivedItems(raw: seq<byte>): Option<seq<Item>>
  {
    match Decode(raw)
    case None => None
    case Some((item, n)) => if n != |raw| || !item.List? then None else Some(item.items)
  }

  function Receive(raw: seq<byte>): Option<Received>
  {
    match ReceivedItems(raw)
    case None => None
    case Some(items) => ReadFields(items)
  }

  /** What EIP-155 says was hashed: the first six items as they arrived, the chain id and two zeros. */
  function SigningPayload(items: seq<Item>, chainId: int): Result<seq<byte>>
    requires |items| >= 6
  {
    Encode(List(items[..6] + [Number(chainId), Number(0), Number(0)]))
  }

  /** Who signed it, for a known chain: the recovery id is what v adds to 35 + 2 * chainId. */
  function Sender(d: Domain, keccak: Hash, chainId: int, raw: seq<byte>): Result<Point>
    requires Usable(d)
  {
    match Receive(raw)
    case None => Err("malformed transaction")
    case Some(t) =>
      match SigningPayload(ReceivedItems(raw).value, chainId)
      case Err(e) => Err(e)
      case Ok(payload) => RecoverPublicKey(d, keccak(payload), Signature(t.r, t.s, t.v - 35 - 2 * chainId))
  }

  // ---- what is sent is what is received ----

  lemma {:induction false} NormalAt(items: seq<Item>)
    ensures |NormalAll(items)| == |items|
    ensures forall i :: 0 <= i < |items| ==> NormalAll(items)[i] == Normal(items[i])
  {
    if items != [] { NormalAt(items[1..]); }
  }

  lemma {:induction false} CarriedAt(items: seq<Item>, i: nat)
    requires CarriedAll(items) && i < |items|
    ensures Carried(items[i])
  {
    if i > 0 { CarriedAt(items[1..], i - 1); }
  }

  lemma NumberTravels(items: seq<Item>, i: nat)
    requires CarriedAll(items) && i < |items| && items[i].Number?
    ensures items[i].n >= 0 && |NormalAll(items)| == |items|
    ensures NormalAll(items)[i].String? && FromBigEndian(NormalAll(items)[i].bytes) == items[i].n
  {
    CarriedAt(items, i);
    NormalAt(items);
    BigEndianRoundTrip(items[i].n);
  }

  /** What a carried list arrives as. */
  ghost predicate Arrives(items: seq<Item>, received: seq<Item>)
  {
    |received| == |items| && forall i :: 0 <= i < |items| ==>
      && (items[i].Number? ==> received[i].String? && FromBigEndian(received[i].bytes) == items[i].n)
      && (items[i].String? ==> received[i] == items[i])
  }

  lemma ItemsArrive(items: seq<Item>)
    requires CarriedAll(items)
    ensures Arrives(items, NormalAll(items))
  {
    NormalAt(items);
    forall i | 0 <= i < |items| && items[i].Number?
      ensures NormalAll(items)[i].String? && FromBigEndian(NormalAll(items)[i].bytes) == items[i].n
    {
      NumberTravels(items, i);
    }
  }

  lemma FieldsTravel(f: Fields, chainId: int, sig: Signature)
    requires CarriedAll(Signed(f, chainId, sig).items)
    ensures ReadFields(NormalAll(Signed(f, chainId, sig).items))
         == Some(Received(f, chainId * 2 + 35 + sig.recovery, sig.r, sig.s))
  {
    var items := Signed(f, chainId, sig).items;
    ItemsArrive(items);
    NineRead(f, chainId * 2 + 35 + sig.recovery, sig.r, sig.s, items, NormalAll(items));
  }

  lemma NineRead(f: Fields, v: int, r: int, s: int, items: seq<Item>, received: seq<Item>)
    requires items == Common(f) + [Number(v), Number(r), Number(s)] && Arrives(items, received)
    ensures ReadFields(received) == Some(Received(f, v, r, s))
  {
    assert items[0] == Number(f.nonce) && items[1] == Number(f.gasPrice) && items[2] == Number(f.gasLimit);
    assert items[3] == String(f.to) && items[4] == Number(f.value) && items[5] == String(f.data);
    assert items[6] == Number(v) && items[7] == Number(r) && items[8] == Number(s);
  }

  /** Every signed transaction that encodes is received with the fields that were put in. */
  lemma SignedIsReceived(f: Fields, chainId: int, sig: Signature)
    requires Encode(Signed(f, chainId, sig)).Ok?
    ensures Receive(Encode(Signed(f, chainId, sig)).value)
         == Some(Received(f, chainId * 2 + 35 + sig.recovery, sig.r, sig.s))
  {
    ListIsCarried(Signed(f, chainId, sig).items);
    RoundTripExactly(Signed(f, chainId, sig));
    FieldsTravel(f, chainId, sig);
  }

  /** The receiver rebuilds exactly the bytes that were signed, out of what it received. */
  lemma PayloadArrives(f: Fields, chainId: int, sig: Signature)
    requires Encode(Signed(f, chainId, sig)).Ok?
    ensures var items := ReceivedItems(Encode(Signed(f, chainId, sig)).value);
      items.Some? && |items.value| == 9 && SigningPayload(items.value, chainId) == Encode(Unsigned(f, chainId))
  {
    var sent := Signed(f, chainId, sig).items;
    ListIsCarried(sent);
    RoundTripExactly(Signed(f, chainId, sig));
    var items := NormalAll(sent);
    NormalAt(sent);
    var tail := [Number(chainId), Number(0), Number(0)];
    forall i | 0 <= i < 9
      ensures Encode((items[..6] + tail)[i]) == Encode((Common(f) + tail)[i])
    {
      NormalEncodes(sent[i]);
    }
    EncodeListPointwise(items[..6] + tail, Common(f) + tail);
  }

  /** The signed bytes are themselves a list of nine: the fields, the chain id and two zeros. */
  lemma UnsignedIsReceived(f: Fields, chainId: int)
    requires Encode(Unsigned(f, chainId)).Ok?
    ensures Receive(Encode(Unsigned(f, chainId)).value) == Some(Received(f, chainId, 0, 0))
  {
    var items := Unsigned(f, chainId).items;
    ListIsCarried(items);
    RoundTripExactly(Unsigned(f, chainId));
    ItemsArrive(items);
    NineRead(f, chainId, 0, 0, items, NormalAll(items));
  }

  /** What the receiver of a raw transaction finds: its fields, its hashed payload, and a signature of that. */
  ghost predicate Genuine(d: Domain, keccak: Hash, f: Fields, chainId: int, q: Point, raw: seq<byte>)
    requires Usable(d)
  {
    var t, items := Receive(raw), ReceivedItems(raw);
    && t.Some? && t.value.fields == f && |items.value| == 9
    && 35 <= t.value.v - 2 * chainId <= 38 && 2 * t.value.s <= d.n
    && Sender(d, keccak, chainId, raw) == Ok(q)
    && var payload := SigningPayload(items.value, chainId);
    && payload.Ok? && Receive(payload.value) == Some(Received(f, chainId, 0, 0))
  }

  /** The received signature is one of the hash of the rebuilt payload. */
  ghost predicate Authentic(d: Domain, keccak: Hash, chainId: int, q: Point, raw: seq<byte>)
    requires Usable(d) && Receive(raw).Some? && |ReceivedItems(raw).value| == 9
    requires SigningPayload(ReceivedItems(raw).value, chainId).Ok?
  {
    V.Verifies(d, keccak(SigningPayload(ReceivedItems(raw).value, chainId).value), q,
               Receive(raw).value.r, Receive(raw).value.s)
  }

  /**
   EIP-155 end to end: whatever the signer sends, a receiver reads the same fields; the payload it rebuilds
   from them reads as the fields, the chain id and two zeros; the low-s signature verifies for that payload
   under the signer's public key, and recovery returns this key.
   */
  lemma SignedTransactionNamesItsSigner(
      d: Domain, keccak: Hash, f: Fields, chainId: int, key: int, nonces: seq<int>)
    requires Sound(d) && 0 < key < d.n
    requires forall i :: 0 <= i < |nonces| ==> 0 < nonces[i] < d.n
    ensures var result := SignLegacyTransaction(d, keccak, f, chainId, key, nonces);
      result.Ok? ==>
        && |f.to| == 20 && result.value.1 == keccak(result.value.0)
        && Genuine(d, keccak, f, chainId, PublicKey(d, key), result.value.0)
        && Authentic(d, keccak, chainId, PublicKey(d, key), result.value.0)
  {
    var result := SignLegacyTransaction(d, keccak, f, chainId, key, nonces);
    if result.Ok? {
      var payload := Encode(Unsigned(f, chainId)).value;
      var sig := Sign(d, keccak(payload), key, nonces).value;
      SignThenRecover(d, keccak(payload), key, nonces);
      V.SignatureVerifies(d, keccak(payload), key, nonces);
      SignedIsGenuine(d, keccak, f, chainId, PublicKey(d, key), sig, payload);
    }
  }

  lemma SignedIsGenuine(
      d: Domain, keccak: Hash, f: Fields, chainId: int, q: Point, sig: Signature, payload: seq<byte>)
    requires Usable(d) && Encode(Unsigned(f, chainId)) == Ok(payload) && Encode(Signed(f, chainId, sig)).Ok?
    requires RecoverPublicKey(d, keccak(payload), sig) == Ok(q)
    requires V.Verifies(d, keccak(payload), q, sig.r, sig.s) && 0 <= sig.recovery <= 3 && sig.s <= d.n / 2
    ensures Genuine(d, keccak, f, chainId, q, Encode(Signed(f, chainId, sig)).value)
    ensures Authentic(d, keccak, chainId, q, Encode(Signed(f, chainId, sig)).value)
  {
    SignedIsReceived(f, chainId, sig);
    PayloadArrives(f, chainId, sig);
    UnsignedIsReceived(f, chainId);
    var raw := Encode(Signed(f, chainId, sig)).value;
    SenderIs(d, keccak, chainId, raw, ReceivedItems(raw).value, Receive(raw).value, payload, sig);
    ReceivedIsGenuine(d, keccak, f, chainId, q, raw, ReceivedItems(raw).value, sig, payload);
    ReceivedIsAuthentic(d, keccak, chainId, q, raw, Receive(raw).value, payload);
  }

  lemma ReceivedIsAuthentic(
      d: Domain, keccak: Hash, chainId: int, q: Point, raw: seq<byte>, t: Received, payload: seq<byte>)
    requires Usable(d) && Receive(raw) == Some(t) && |ReceivedItems(raw).value| == 9
    requires SigningPayload(ReceivedItems(raw).value, chainId) == Ok(payload)
    requires V.Verifies(d, keccak(payload), q, t.r, t.s)
    ensures Authentic(d, keccak, chainId, q, raw)
  {
  }

  lemma ReceivedIsGenuine(d: Domain, keccak: Hash, f: Fields, chainId: int, q: Point, raw: seq<byte>,
      items: seq<Item>, sig: Signature, payload: seq<byte>)
    requires Usable(d) && ReceivedItems(raw) == Some(items) && |items| == 9
    requires Receive(raw) == Some(Received(f, chainId * 2 + 35 + sig.recovery, sig.r, sig.s))
    requires SigningPayload(items, chainId) == Ok(payload) && Receive(payload) == Some(Received(f, chainId, 0, 0))
    requires Sender(d, keccak, chainId, raw) == Ok(q) && 0 <= sig.recovery <= 3 && sig.s <= d.n / 2
    ensures Genuine(d, keccak, f, chainId, q, raw)
  {
  }

  lemma SenderIs(d: Domain, keccak: Hash, chainId: int, raw: seq<byte>, items: seq<Item>, t: Received,
      payload: seq<byte>, sig: Signature)
    requires Usable(d) && ReceivedItems(raw) == Some(items) && |items| == 9
    requires Receive(raw) == Some(t) && SigningPayload(items, chainId) == Ok(payload)
    requires sig.r == t.r && sig.s == t.s && sig.recovery == t.v - 35 - 2 * chainId
    ensures Sender(d, keccak, chainId, raw) == RecoverPublicKey(d, keccak(payload), sig)
  {
    assert sig == Signature(t.r, t.s, t.v - 35 - 2 * chainId);
  }

  // ---- when there is a transaction at all ----

  /** Numbers of at most 32 bytes and data that leaves room for the rest below 2^64 bytes. */
  predicate InRange(f: Fields, chainId: int)
  {
    && f.nonce < Radix(32) && f.gasPrice < Radix(32) && f.gasLimit < Radix(32) && f.value < Radix(32)
    && chainId * 2 + 38 < Radix(32) && |f.data| < LIMIT - 400
  }

  predicate NonNegative(f: Fields, chainId: int)
  {
    f.nonce >= 0 && f.gasPrice >= 0 && f.gasLimit >= 0 && f.value >= 0 && chainId >= 0
  }

  /** An item that encodes within this many bytes. */
  predicate Fits(item: Item, size: nat)
  {
    var e := Encode(item);
    e.Ok? && |e.value| <= size
  }

  lemma StringFits(payload: seq<byte>, size: nat)
    requires |payload| <= size < LIMIT
    ensures Fits(String(payload), size + 9)
  {
    LengthBytes(|payload|);
  }

  lemma NumberFits(n: int)
    requires 0 <= n < Radix(32)
    ensures Fits(Number(n), 41)
  {
    BigEndianRoundTrip(n);
    var size := |ToBigEndian(n)|;
    if size > 32 { RadixMonotone(32, size - 1); }
    StringFits(ToBigEndian(n), 32);
  }

  /** Items of at most 41 bytes each, but for one, encode together. */
  lemma {:induction false} AllFit(items: seq<Item>, k: int, size: nat)
    requires forall i :: 0 <= i < |items| ==> Fits(items[i], if i == k then size else 41)
    ensures EncodeAll(items).Ok?
    ensures |EncodeAll(items).value| <= 41 * |items| + (if 0 <= k < |items| then size else 0)
  {
    if items != [] { AllFit(items[1..], k - 1, size); }
  }

  /** Nine items in range encode. */
  lemma NineEncode(f: Fields, chainId: int, v: int, r: int, s: int)
    requires NonNegative(f, chainId) && InRange(f, chainId) && |f.to| == 20
    requires 0 <= v < Radix(32) && 0 <= r < Radix(32) && 0 <= s < Radix(32)
    ensures Encode(List(Common(f) + [Number(v), Number(r), Number(s)])).Ok?
  {
    var items := Common(f) + [Number(v), Number(r), Number(s)];
    NumberFits(f.nonce);
    NumberFits(f.gasPrice);
    NumberFits(f.gasLimit);
    NumberFits(f.value);
    StringFits(f.to, 20);
    StringFits(f.data, |f.data|);
    NumberFits(v);
    NumberFits(r);
    NumberFits(s);
    AllFit(items, 5, |f.data| + 9);
    LengthBytes(|EncodeAll(items).value|);
  }

  /** A list with a negative number has no encoding. */
  lemma {:induction false} NegativeRefused(items: seq<Item>, i: nat)
    requires i < |items| && items[i].Number? && items[i].n < 0
    ensures EncodeAll(items).Err? && Encode(List(items)).Err?
  {
    if i > 0 { NegativeRefused(items[1..], i - 1); }
  }

  lemma NegativeFieldsRefused(f: Fields, chainId: int)
    requires !NonNegative(f, chainId)
    ensures Encode(Unsigned(f, chainId)).Err?
  {
    var items := Unsigned(f, chainId).items;
    var i := if f.nonce < 0 then 0 else if f.gasPrice < 0 then 1 else if f.gasLimit < 0 then 2
             else if f.value < 0 then 4 else 6;
    NegativeRefused(items, i);
  }

  /**
   A transaction in range is signed exactly when the recipient has twenty bytes, no number is negative, and
   some nonce signs the hash of the nine-item payload.
   */
  lemma SignsExactly(d: Domain, keccak: Hash, f: Fields, chainId: int, key: int, nonces: seq<int>)
    requires Sound(d) && 0 < key < d.n <= Radix(32) && InRange(f, chainId)
    requires forall i :: 0 <= i < |nonces| ==> 0 < nonces[i] < d.n
    ensures SignLegacyTransaction(d, keccak, f, chainId, key, nonces).Ok? <==>
      && |f.to| == 20 && NonNegative(f, chainId)
      && var payload := Encode(List([Number(f.nonce), Number(f.gasPrice), Number(f.gasLimit), String(f.to),
                                     Number(f.value), String(f.data), Number(chainId), Number(0), Number(0)]));
      && payload.Ok? && |keccak(payload.value)| == 32
      && exists i :: 0 <= i < |nonces| && !V.Skipped(d, V.Number(keccak(payload.value)), key, nonces[i])
  {
    var payload := Encode(List([Number(f.nonce), Number(f.gasPrice), Number(f.gasLimit), String(f.to),
                                Number(f.value), String(f.data), Number(chainId), Number(0), Number(0)]));
    assert payload == Encode(Unsigned(f, chainId)) by { NineItems(f, chainId); }
    if !NonNegative(f, chainId) {
      NegativeFieldsRefused(f, chainId);
    } else if |f.to| == 20 && payload.Ok? {
      PayloadSigned(d, keccak, f, chainId, key, nonces, keccak(payload.value));
    }
  }

  lemma NineItems(f: Fields, chainId: int)
    ensures Unsigned(f, chainId) ==
      List([Number(f.nonce), Number(f.gasPrice), Number(f.gasLimit), String(f.to),
            Number(f.value), String(f.data), Number(chainId), Number(0), Number(0)])
  {
  }

  lemma PayloadSigned(
      d: Domain, keccak: Hash, f: Fields, chainId: int, key: int, nonces: seq<int>, digest: seq<byte>)
    requires Sound(d) && 0 < key < d.n <= Radix(32) && InRange(f, chainId) && NonNegative(f, chainId)
    requires forall i :: 0 <= i < |nonces| ==> 0 < nonces[i] < d.n
    requires |f.to| == 20 && Encode(Unsigned(f, chainId)).Ok? && digest == keccak(Encode(Unsigned(f, chainId)).value)
    ensures SignLegacyTransaction(d, keccak, f, chainId, key, nonces).Ok? <==>
      && |digest| == 32
      && exists i :: 0 <= i < |nonces| && !V.Skipped(d, V.Number(digest), key, nonces[i])
  {
    V.SignatureVerifies(d, digest, key, nonces);
    SignThenRecover(d, digest, key, nonces);
    SignedEncodes(d, keccak, f, chainId, key, nonces, digest);
  }

  /** Whatever is signed in range also encodes. */
  lemma SignedEncodes(
      d: Domain, keccak: Hash, f: Fields, chainId: int, key: int, nonces: seq<int>, digest: seq<byte>)
    requires Usable(d) && d.n <= Radix(32) && InRange(f, chainId) && NonNegative(f, chainId)
    requires |f.to| == 20 && Encode(Unsigned(f, chainId)).Ok? && digest == keccak(Encode(Unsigned(f, chainId)).value)
    requires var result := Sign(d, digest, key, nonces);
      result.Ok? ==> 0 < result.value.r < d.n && 0 < result.value.s <= d.n / 2 && 0 <= result.value.recovery <= 3
    ensures SignLegacyTransaction(d, keccak, f, chainId, key, nonces).Ok? <==> Sign(d, digest, key, nonces).Ok?
  {
    var result := Sign(d, digest, key, nonces);
    SignedWhen(d, keccak, f, chainId, key, nonces, digest, result);
    if result.Ok? { SignatureEncodes(f, chainId, result.value, d.n); }
  }

  lemma SignatureEncodes(f: Fields, chainId: int, sig: Signature, n: int)
    requires NonNegative(f, chainId) && InRange(f, chainId) && |f.to| == 20 && n <= Radix(32)
    requires 0 < sig.r < n && 0 < sig.s <= n / 2 && 0 <= sig.recovery <= 3
    ensures Encode(Signed(f, chainId, sig)).Ok?
  {
    NineEncode(f, chainId, chainId * 2 + 35 + sig.recovery, sig.r, sig.s);
  }

  /** What signing a transaction depends on, once its payload encodes. */
  lemma SignedWhen(d: Domain, keccak: Hash, f: Fields, chainId: int, key: int, nonces: seq<int>, digest: seq<byte>,
      result: Result<Signature>)
    requires Usable(d) && |f.to| == 20 && Encode(Unsigned(f, chainId)).Ok?
    requires digest == keccak(Encode(Unsigned(f, chainId)).value) && result == Sign(d, digest, key, nonces)
    ensures SignLegacyTransaction(d, keccak, f, chainId, key, nonces).Ok? <==>
      result.Ok? && Encode(Signed(f, chainId, result.value)).Ok?
  {
  }

  // ---- 65-byte signatures ----

  lemma WordsFit()
    ensures SECP256K1.p < Radix(32)
  {
    EightBytes();
    RadixProduct(8, 8);
    RadixProduct(16, 16);
  }

  function SignatureBytes(sig: Signature): (raw: seq<byte>)
    requires 0 <= sig.r < Radix(32) && 0 <= sig.s < Radix(32) && 0 <= sig.recovery <= 3
  {
    Fixed(sig.r, 32) + Fixed(sig.s, 32) + [(27 + sig.recovery) as byte]
  }

  /**
   The 65 bytes are two words and a recovery byte, which is 0, 1, 27 or 28; s is at most half the order.
   Everything else is refused.
   */
  lemma ReadExactly(d: Domain, raw: seq<byte>, r: int, s: int, recovery: int)
    requires Usable(d)
    ensures ReadSignature(d, raw) == Ok(Signature(r, s, recovery)) <==>
      && |raw| == 65 && r == FromBigEndian(raw[..32]) && s == FromBigEndian(raw[32..64]) && 2 * s <= d.n
      && 0 <= recovery <= 1 && (raw[64] as int == recovery || raw[64] as int == 27 + recovery)
  {
  }

  lemma SignatureBytesRead(d: Domain, sig: Signature)
    requires 0 <= sig.r < Radix(32) && 0 <= sig.s < Radix(32) && 0 <= sig.recovery <= 3
    requires d.n > 0 && sig.s <= d.n / 2
    ensures var read := ReadSignature(d, SignatureBytes(sig));
      if sig.recovery <= 1 then read == Ok(sig) else read.Err?
  {
    WordsRead(d, sig, Fixed(sig.r, 32), Fixed(sig.s, 32));
  }

  lemma WordsRead(d: Domain, sig: Signature, r: seq<byte>, s: seq<byte>)
    requires |r| == 32 && |s| == 32 && FromBigEndian(r) == sig.r && FromBigEndian(s) == sig.s
    requires 0 <= sig.recovery <= 3 && d.n > 0 && sig.s <= d.n / 2
    ensures var read := ReadSignature(d, r + s + [(27 + sig.recovery) as byte]);
      if sig.recovery <= 1 then read == Ok(sig) else read.Err?
  {
    var raw := r + s + [(27 + sig.recovery) as byte];
    assert raw[0..32] == r && raw[32..64] == s;
  }

  /**
   The 65-byte form r, s, 27 + id of a signature names its signer exactly when the id is 0 or 1,
   that is, when the nonce point's abscissa is below the group order.
   */
  lemma SignatureAddress(d: Domain, keccak: Hash, digest: seq<byte>, key: int, nonces: seq<int>)
    requires Sound(d) && d.p <= Radix(32) && 0 < key < d.n
    requires forall i :: 0 <= i < |nonces| ==> 0 < nonces[i] < d.n
    requires Sign(d, digest, key, nonces).Ok?
    ensures var sig := Sign(d, digest, key, nonces).value;
      var q := PublicKey(d, key);
      && 0 <= sig.r < Radix(32) && 0 <= sig.s < Radix(32) && 0 <= sig.recovery <= 3
      && q.Affine? && 0 <= q.x < Radix(32) && 0 <= q.y < Radix(32)
      && (RecoverSignatureAddress(d, keccak, digest, SignatureBytes(sig)) == Ok(PublicKeyAddress(keccak, q))
          <==> sig.recovery <= 1)
  {
    SignThenRecover(d, digest, key, nonces);
    KeyIsAffine(d, key);
    var sig, q := Sign(d, digest, key, nonces).value, PublicKey(d, key);
    SignatureBytesRead(d, sig);
    AddressOf(d, keccak, digest, SignatureBytes(sig), sig, q);
  }

  /** Byte strings of one length and one value are equal. */
  lemma {:induction false} SameValue(a: seq<byte>, b: seq<byte>)
    requires |a| == |b| && FromBigEndian(a) == FromBigEndian(b)
    ensures a == b
  {
    if a != [] {
      var n := |a| - 1;
      SameValue(a[..n], b[..n]);
      assert a == a[..n] + [a[n]] && b == b[..n] + [b[n]];
    }
  }

  /** The address is the last twenty bytes of the hash of the one 64-byte string whose halves are x and y. */
  lemma AddressIs(keccak: Hash, q: Point, coordinates: seq<byte>)
    requires q.Affine? && 0 <= q.x < Radix(32) && 0 <= q.y < Radix(32)
    requires |coordinates| == 64
    requires FromBigEndian(coordinates[..32]) == q.x && FromBigEndian(coordinates[32..]) == q.y
    requires |keccak(coordinates)| == 32
    ensures |PublicKeyAddress(keccak, q)| == 20
    ensures forall k :: 0 <= k < 20 ==> PublicKeyAddress(keccak, q)[k] == keccak(coordinates)[k + 12]
  {
    SameValue(coordinates[..32], Fixed(q.x, 32));
    SameValue(coordinates[32..], Fixed(q.y, 32));
    assert coordinates == coordinates[..32] + coordinates[32..];
  }

  /** The address is that of the recovered key, if the bytes are read at all. */
  lemma AddressOf(d: Domain, keccak: Hash, digest: seq<byte>, raw: seq<byte>, sig: Signature, q: Point)
    requires Usable(d) && RecoverPublicKey(d, digest, sig) == Ok(q)
    requires q.Affine? && 0 <= q.x < Radix(32) && 0 <= q.y < Radix(32)
    ensures ReadSignature(d, raw) == Ok(sig) ==>
      RecoverSignatureAddress(d, keccak, digest, raw) == Ok(PublicKeyAddress(keccak, q))
    ensures ReadSignature(d, raw).Err? ==> RecoverSignatureAddress(d, keccak, digest, raw).Err?
  {
  }

  /** For the curve of the code: its words fit, so that is the only condition. */
  lemma Secp256k1SignatureAddress(keccak: Hash, digest: seq<byte>, key: int, nonces: seq<int>)
    requires Secp256k1Hypotheses() && 0 < key < SECP256K1.n
    requires forall i :: 0 <= i < |nonces| ==> 0 < nonces[i] < SECP256K1.n
    requires Sign(SECP256K1, digest, key, nonces).Ok?
    ensures Sound(SECP256K1)
    ensures var sig := Sign(SECP256K1, digest, key, nonces).value;
      var q := PublicKey(SECP256K1, key);
      && 0 <= sig.r < Radix(32) && 0 <= sig.s < Radix(32) && 0 <= sig.recovery <= 3
      && q.Affine? && 0 <= q.x < Radix(32) && 0 <= q.y < Radix(32)
      && (RecoverSignatureAddress(SECP256K1, keccak, digest, SignatureBytes(sig)) == Ok(PublicKeyAddress(keccak, q))
          <==> sig.recovery <= 1)
  {
    Secp256k1Sound();
    WordsFit();
    SignatureAddress(SECP256K1, keccak, digest, key, nonces);
  }
}
