/** Byte strings and big-endian integers, as the Python built-ins read and write them. */
module Bytes {
  newtype byte = x: int | 0 <= x < 256

  datatype Result<+T> = Ok(value: T) | Err(error: string)

  datatype Option<+T> = Some(value: T) | None

  /** 256 to the k. */
  function Radix(k: nat): (r: nat)
    ensures r > 0
  {
    if k == 0 then 1 else 256 * Radix(k - 1)
  }

  /** int.from_bytes(b, "big") */
  function FromBigEndian(b: seq<byte>): (n: nat)
    ensures n < Radix(|b|)
  {
    if b == [] then 0 else FromBigEndian(b[..|b| - 1]) * 256 + b[|b| - 1] as int
  }

  /** Each byte weighs 256 to the number of bytes after it, leading zeros included. */
  lemma {:induction false} LeadingByte(x: byte, b: seq<byte>)
    ensures FromBigEndian([x] + b) == x as int * Radix(|b|) + FromBigEndian(b)
  {
    if b == [] {
      assert ([x] + b)[..0] == [];
    } else {
      var front := b[..|b| - 1];
      LeadingByte(x, front);
      assert ([x] + b)[..|b|] == [x] + front;
      assert 256 * (x as int * Radix(|front|)) == x as int * (256 * Radix(|front|));
    }
  }

  /** n.to_bytes((n.bit_length() + 7) // 8, "big"): the shortest big-endian form, empty for zero. */
  function ToBigEndian(n: nat): (b: seq<byte>)
  {
    if n == 0 then [] else ToBigEndian(n / 256) + [(n % 256) as byte]
  }

  /** The shortest form reads back, starts with a non-zero byte, and is as long as the value needs. */
  lemma {:induction false} BigEndianRoundTrip(n: nat)
    ensures FromBigEndian(ToBigEndian(n)) == n
    ensures n > 0 ==> |ToBigEndian(n)| > 0 && ToBigEndian(n)[0] != 0 && Radix(|ToBigEndian(n)| - 1) <= n
  {
    if n > 0 {
      BigEndianRoundTrip(n / 256);
      var b := ToBigEndian(n);
      assert b[..|b| - 1] == ToBigEndian(n / 256);
    }
  }

  /** ... and it is the only form without a leading zero. */
  lemma {:induction false} BigEndianUnique(b: seq<byte>)
    requires b == [] || b[0] != 0
    ensures ToBigEndian(FromBigEndian(b)) == b
    ensures b != [] ==> FromBigEndian(b) > 0
  {
    if b != [] {
      var front := b[..|b| - 1];
      if front != [] { assert front[0] == b[0]; }
      BigEndianUnique(front);
      LastByte(FromBigEndian(front), b[|b| - 1]);
      assert b == front + [b[|b| - 1]];
    }
  }

  lemma LastByte(m: nat, d: byte)
    requires m > 0 || d > 0
    ensures ToBigEndian(m * 256 + d as int) == ToBigEndian(m) + [d]
  {
    var n := m * 256 + d as int;
    assert n / 256 == m && n % 256 == d as int;
  }

  lemma {:induction false} RadixMonotone(j: nat, k: nat)
    requires j <= k
    ensures Radix(j) <= Radix(k)
  {
    if j < k { RadixMonotone(j, k - 1); }
  }

  lemma {:induction false} RadixProduct(j: nat, k: nat)
    ensures Radix(j + k) == Radix(j) * Radix(k)
  {
    if j > 0 {
      RadixProduct(j - 1, k);
      assert 256 * (Radix(j - 1) * Radix(k)) == 256 * Radix(j - 1) * Radix(k);
    }
  }

  /** n.to_bytes(length, "big") for a number that fits. */
  function Fixed(n: nat, length: nat): (b: seq<byte>)
    requires n < Radix(length)
    ensures |b| == length && FromBigEndian(b) == n
  {
    if length == 0 then [] else
      var front := Fixed(n / 256, length - 1);
      var b := front + [(n % 256) as byte];
      assert b[..|b| - 1] == front;
      b
  }
}
