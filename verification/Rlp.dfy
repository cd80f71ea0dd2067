/**
 RLP encoding of owner-soak-driver/zkdeal_owner_soak.py, with a strict decoder written from
 Appendix B of the Ethereum Yellow Paper. The two are inverse on everything the format can carry.
 */
module Rlp {
  import opened Bytes

  datatype Item =
    | String(bytes: seq<byte>)
    | Number(n: int)
    | List(items: seq<Item>)
    | Boolean(b: bool)

  /** 2^64: longer payloads have no prefix. */
  const LIMIT: nat := 0x1_0000_0000_0000_0000

  // ---- the code ----

  function Prefix(length: nat, offset: int): Result<seq<byte>>
    requires offset == 0x80 || offset == 0xC0
  {
    if length < 56 then Ok([(offset + length) as byte])
    else
      var encoded := ToBigEndian(length);
      var tag := offset + 55 + |encoded|;
      if tag > 255 then Err("bytes must be in range(0, 256)") else Ok([tag as byte] + encoded)
  }

  function EncodeString(payload: seq<byte>): Result<seq<byte>>
  {
    if |payload| == 1 && payload[0] < 0x80 then Ok(payload)
    else match Prefix(|payload|, 0x80)
      case Err(e) => Err(e)
      case Ok(prefix) => Ok(prefix + payload)
  }

  function Encode(item: Item): Result<seq<byte>>
    decreases item, 0
  {
    match item
    case List(items) =>
      (match EncodeAll(items)
       case Err(e) => Err(e)
       case Ok(payload) =>
         match Prefix(|payload|, 0xC0)
         case Err(e) => Err(e)
         case Ok(prefix) => Ok(prefix + payload))
    case Boolean(_) => Err("RLP does not encode booleans")
    case Number(n) =>
      if n < 0 then Err("RLP does not encode negative integers") else EncodeString(ToBigEndian(n))
    case String(bytes) => EncodeString(bytes)
  }

  function EncodeAll(items: seq<Item>): Result<seq<byte>>
    decreases items
  {
    if items == [] then Ok([])
    else match Encode(items[0])
      case Err(e) => Err(e)
      case Ok(first) =>
        match EncodeAll(items[1..])
        case Err(e) => Err(e)
        case Ok(rest) => Ok(first + rest)
  }

  // ---- the decoder ----

  /** A recognised first byte: where the payload starts and how long it is. */
  datatype Head = Head(isList: bool, start: nat, length: nat)

  /** Length of the payload announced by a long form whose tag says the length takes k bytes. */
  function LongLength(b: seq<byte>, k: nat): Option<nat>
  {
    if |b| < 1 + k || k == 0 || b[1] == 0 then None
    else
      var length := FromBigEndian(b[1..1 + k]);
      if length < 56 then None else Some(length)
  }

  function ReadHead(b: seq<byte>): Option<Head>
    requires b != []
  {
    var tag := b[0] as int;
    if tag < 0x80 then Some(Head(false, 0, 1))
    else if tag < 0xB8 then Some(Head(false, 1, tag - 0x80))
    else if tag < 0xC0 then
      (match LongLength(b, tag - 0xB7)
       case None => None
       case Some(length) => Some(Head(false, 1 + (tag - 0xB7), length)))
    else if tag < 0xF8 then Some(Head(true, 1, tag - 0xC0))
    else
      match LongLength(b, tag - 0xF7)
      case None => None
      case Some(length) => Some(Head(true, 1 + (tag - 0xF7), length))
  }

  /** The first item of b and the number of bytes it takes; None when b starts with no canonical item. */
  function Decode(b: seq<byte>): Option<(Item, nat)>
    decreases |b|, 0
  {
    if b == [] then None
    else match ReadHead(b)
      case None => None
      case Some(head) =>
        var end := head.start + head.length;
        if end > |b| then None
        else
          var payload := b[head.start..end];
          if head.isList then
            (match DecodeAll(payload)
             case None => None
             case Some(items) => Some((List(items), end)))
          else if head.start == 1 && |payload| == 1 && payload[0] < 0x80 then None
          else Some((String(payload), end))
  }

  function DecodeAll(b: seq<byte>): Option<seq<Item>>
    decreases |b|, 1
  {
    if b == [] then Some([])
    else match Decode(b)
      case None => None
      case Some((item, n)) =>
        if n == 0 || n > |b| then None
        else match DecodeAll(b[n..])
          case None => None
          case Some(items) => Some([item] + items)
  }

  // ---- what the format can carry ----

  /** Numbers travel as their minimal big-endian bytes. */
  function Normal(item: Item): Item
    decreases item, 0
  {
    match item
    case Number(n) => if n < 0 then item else String(ToBigEndian(n))
    case List(items) => List(NormalAll(items))
    case _ => item
  }

  function NormalAll(items: seq<Item>): seq<Item>
    decreases items
  {
    if items == [] then [] else [Normal(items[0])] + NormalAll(items[1..])
  }

  /** No booleans, no negative numbers, and every payload shorter than 2^64 bytes. */
  predicate Carried(item: Item)
    decreases item, 0
  {
    match item
    case String(bytes) => |bytes| < LIMIT
    case Number(n) => n >= 0 && |ToBigEndian(n)| < LIMIT
    case List(items) =>
      CarriedAll(items) && (var payload := EncodeAll(items); payload.Ok? && |payload.value| < LIMIT)
    case Boolean(_) => false
  }

  predicate CarriedAll(items: seq<Item>)
    decreases items
  {
    items == [] || (Carried(items[0]) && CarriedAll(items[1..]))
  }

  // ---- prefixes ----

  lemma EightBytes()
    ensures Radix(8) == LIMIT
  {
    assert Radix(1) == 256 && Radix(2) == 0x1_0000 && Radix(3) == 0x100_0000;
    assert Radix(4) == 0x1_0000_0000;
    assert Radix(5) == 0x100_0000_0000;
    assert Radix(6) == 0x1_0000_0000_0000;
    assert Radix(7) == 0x100_0000_0000_0000;
  }

  /** The length takes at most eight bytes exactly below 2^64. */
  lemma LengthBytes(length: nat)
    ensures |ToBigEndian(length)| <= 8 <==> length < LIMIT
    ensures length > 0 ==> |ToBigEndian(length)| > 0
  {
    EightBytes();
    BigEndianRoundTrip(length);
    var k := |ToBigEndian(length)|;
    if k <= 8 { RadixMonotone(k, 8); }
    if k > 8 { RadixMonotone(8, k - 1); }
  }

  /** A prefix announces exactly the payload it was made for. */
  lemma PrefixRead(length: nat, offset: int, rest: seq<byte>)
    requires length < LIMIT && (offset == 0x80 || offset == 0xC0)
    ensures var prefix := Prefix(length, offset);
      && prefix.Ok? && prefix.value != []
      && ReadHead(prefix.value + rest) == Some(Head(offset == 0xC0, |prefix.value|, length))
      && (length < 56 <==> |prefix.value| == 1)
  {
    LengthBytes(length);
    if length >= 56 {
      BigEndianRoundTrip(length);
      var encoded := ToBigEndian(length);
      var b := Prefix(length, offset).value + rest;
      assert b[1..1 + |encoded|] == encoded;
      assert b[1] == encoded[0];
    }
  }

  lemma Payload(prefix: seq<byte>, payload: seq<byte>, rest: seq<byte>)
    ensures (prefix + payload + rest)[|prefix|..|prefix| + |payload|] == payload
  {
  }

  // ---- decoding inverts encoding ----

  lemma StringRoundTrip(payload: seq<byte>, rest: seq<byte>)
    requires |payload| < LIMIT
    ensures var e := EncodeString(payload);
      e.Ok? && e.value != [] && Decode(e.value + rest) == Some((String(payload), |e.value|))
  {
    if |payload| == 1 && payload[0] < 0x80 {
      assert (payload + rest)[0] == payload[0];
      assert (payload + rest)[0..1] == payload;
    } else {
      PrefixRead(|payload|, 0x80, payload + rest);
      var prefix := Prefix(|payload|, 0x80).value;
      assert prefix + (payload + rest) == prefix + payload + rest;
      Payload(prefix, payload, rest);
    }
  }

  /** Whatever follows an encoded item, decoding returns the item and stops where it ends. */
  lemma {:induction false} RoundTrip(item: Item, rest: seq<byte>)
    requires Carried(item)
    ensures var e := Encode(item);
      e.Ok? && e.value != [] && Decode(e.value + rest) == Some((Normal(item), |e.value|))
    decreases item, 0
  {
    match item
    case String(bytes) => StringRoundTrip(bytes, rest);
    case Number(n) => StringRoundTrip(ToBigEndian(n), rest);
    case List(items) =>
      var payload := EncodeAll(items).value;
      PrefixRead(|payload|, 0xC0, payload + rest);
      var prefix := Prefix(|payload|, 0xC0).value;
      assert prefix + (payload + rest) == prefix + payload + rest;
      Payload(prefix, payload, rest);
      RoundTripAll(items);
  }

  lemma {:induction false} RoundTripAll(items: seq<Item>)
    requires CarriedAll(items)
    ensures var e := EncodeAll(items);
      e.Ok? && DecodeAll(e.value) == Some(NormalAll(items))
    decreases items
  {
    if items != [] {
      RoundTripAll(items[1..]);
      RoundTrip(items[0], []);
      var first, rest := Encode(items[0]).value, EncodeAll(items[1..]).value;
      RoundTrip(items[0], rest);
      assert (first + rest)[|first|..] == rest;
    }
  }

  // ---- ... and exactly the carried items survive ----

  lemma {:induction false} EncodedPartShorter(items: seq<Item>)
    requires EncodeAll(items).Ok?
    ensures items != [] ==>
      && Encode(items[0]).Ok? && EncodeAll(items[1..]).Ok?
      && |Encode(items[0]).value| <= |EncodeAll(items).value|
      && |EncodeAll(items[1..]).value| <= |EncodeAll(items).value|
  {
  }

  /** An encoding shorter than 2^64 bytes has only payloads shorter than 2^64 bytes. */
  lemma {:induction false} ShortIsCarried(item: Item)
    requires Encode(item).Ok? && |Encode(item).value| < LIMIT
    ensures Carried(item)
    decreases item, 0
  {
    match item
    case List(items) => ShortAreCarried(items);
    case _ =>
  }

  lemma {:induction false} ShortAreCarried(items: seq<Item>)
    requires EncodeAll(items).Ok? && |EncodeAll(items).value| < LIMIT
    ensures CarriedAll(items)
    decreases items
  {
    if items != [] {
      EncodedPartShorter(items);
      ShortIsCarried(items[0]);
      ShortAreCarried(items[1..]);
    }
  }

  /** A string of 2^64 bytes or more is encoded, if at all, with a list tag. */
  lemma LongStringReadsAsList(payload: seq<byte>)
    requires |payload| >= LIMIT && EncodeString(payload).Ok?
    ensures var d := Decode(EncodeString(payload).value); d.Some? ==> d.value.0.List?
  {
    LengthBytes(|payload|);
  }

  /** A list that encodes at all is carried. */
  lemma ListIsCarried(items: seq<Item>)
    requires Encode(List(items)).Ok?
    ensures Carried(List(items))
  {
    LengthBytes(|EncodeAll(items).value|);
    ShortAreCarried(items);
  }

  /** The round trip works exactly for the carried items. */
  lemma RoundTripExactly(item: Item)
    ensures Carried(item) <==>
      Encode(item).Ok? && Decode(Encode(item).value) == Some((Normal(item), |Encode(item).value|))
  {
    if Carried(item) {
      RoundTrip(item, []);
      assert Encode(item).value + [] == Encode(item).value;
    } else if Encode(item).Ok? {
      match item
      case String(bytes) => LongStringReadsAsList(bytes);
      case Number(n) => LongStringReadsAsList(ToBigEndian(n));
      case List(items) => ListIsCarried(items);
    }
  }

  /** No encoding is a proper prefix of another, and equal encodings mean equal normal forms. */
  lemma PrefixFree(x: Item, y: Item)
    requires Carried(x) && Carried(y)
    requires Encode(x).Ok? && Encode(y).Ok? && Encode(x).value <= Encode(y).value
    ensures Normal(x) == Normal(y) && Encode(x) == Encode(y)
  {
    var ex, ey := Encode(x).value, Encode(y).value;
    RoundTrip(x, ey[|ex|..]);
    assert ex + ey[|ex|..] == ey;
    RoundTrip(y, []);
    assert ey + [] == ey;
  }

  // ---- what an encoding depends on ----

  /** An item encodes as what it arrives as. */
  lemma {:induction false} NormalEncodes(item: Item)
    ensures Encode(Normal(item)) == Encode(item)
    decreases item, 0
  {
    match item
    case List(items) => NormalAllEncodes(items);
    case _ =>
  }

  lemma {:induction false} NormalAllEncodes(items: seq<Item>)
    ensures EncodeAll(NormalAll(items)) == EncodeAll(items)
    decreases items
  {
    if items != [] {
      NormalEncodes(items[0]);
      NormalAllEncodes(items[1..]);
      assert NormalAll(items)[1..] == NormalAll(items[1..]);
    }
  }

  /** Items that encode alike, one by one, make lists that encode alike. */
  lemma {:induction false} EncodePointwise(a: seq<Item>, b: seq<Item>)
    requires |a| == |b| && forall i :: 0 <= i < |a| ==> Encode(a[i]) == Encode(b[i])
    ensures EncodeAll(a) == EncodeAll(b)
  {
    if a != [] { EncodePointwise(a[1..], b[1..]); }
  }

  lemma EncodeListPointwise(a: seq<Item>, b: seq<Item>)
    requires |a| == |b| && forall i :: 0 <= i < |a| ==> Encode(a[i]) == Encode(b[i])
    ensures Encode(List(a)) == Encode(List(b))
  {
    EncodePointwise(a, b);
  }

  // ---- encoding inverts decoding: there is one encoding per item ----

  lemma DigitsOf(b: seq<byte>, k: nat, length: nat)
    requires LongLength(b, k) == Some(length)
    ensures ToBigEndian(length) == b[1..1 + k] && length >= 56
  {
    BigEndianUnique(b[1..1 + k]);
  }

  lemma HeadIsPrefix(b: seq<byte>, head: Head)
    requires b != [] && ReadHead(b) == Some(head) && head.start > 0
    ensures head.start <= |b| && Prefix(head.length, if head.isList then 0xC0 else 0x80) == Ok(b[..head.start])
    ensures head.start == 1 <==> head.length < 56
  {
    var tag := b[0] as int;
    if 0xB8 <= tag < 0xC0 { DigitsOf(b, tag - 0xB7, head.length); }
    if 0xF8 <= tag { DigitsOf(b, tag - 0xF7, head.length); }
    if head.start == 1 {
      assert b[..1] == [b[0]];
    } else {
      assert b[..head.start] == [b[0]] + b[1..head.start];
    }
  }

  /** A decoded item encodes to exactly the bytes it was read from. */
  lemma {:induction false} DecodeThenEncode(b: seq<byte>)
    requires Decode(b).Some?
    ensures var (item, n) := Decode(b).value;
      0 < n <= |b| && Encode(item) == Ok(b[..n]) && Normal(item) == item
    decreases |b|, 0
  {
    var head := ReadHead(b).value;
    var end := head.start + head.length;
    var payload := b[head.start..end];
    if head.start > 0 {
      HeadIsPrefix(b, head);
      assert b[..head.start] + payload == b[..end];
    }
    if head.isList {
      DecodeAllThenEncode(payload);
    }
  }

  lemma {:induction false} DecodeAllThenEncode(b: seq<byte>)
    requires DecodeAll(b).Some?
    ensures EncodeAll(DecodeAll(b).value) == Ok(b) && NormalAll(DecodeAll(b).value) == DecodeAll(b).value
    decreases |b|, 1
  {
    if b != [] {
      DecodeThenEncode(b);
      var (item, n) := Decode(b).value;
      DecodeAllThenEncode(b[n..]);
      OneMore(b, item, n, DecodeAll(b[n..]).value);
    }
  }

  lemma OneMore(b: seq<byte>, item: Item, n: nat, items: seq<Item>)
    requires n <= |b| && Encode(item) == Ok(b[..n]) && EncodeAll(items) == Ok(b[n..])
    requires Normal(item) == item && NormalAll(items) == items
    ensures EncodeAll([item] + items) == Ok(b) && NormalAll([item] + items) == [item] + items
  {
    assert ([item] + items)[1..] == items;
    assert b[..n] + b[n..] == b;
  }
}
