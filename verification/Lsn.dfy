/** PostgreSQL log positions as text, read by both failover-provider/provider.py and scripts/promotion_controller.py. */
module Lsn {
  import opened Bytes
  import opened Text

  function HexDigit(c: char): Option<nat>
  {
    if '0' <= c <= '9' then Some((c - '0') as nat)
    else if 'a' <= c <= 'f' then Some((c - 'a') as nat + 10)
    else if 'A' <= c <= 'F' then Some((c - 'A') as nat + 10)
    else None
  }

  /** int(s, 16) for a nonempty run of hexadecimal digits. */
  function HexValue(s: string): Option<nat>
  {
    if s == [] then None
    else match HexDigit(s[|s| - 1])
      case None => None
      case Some(d) =>
        if |s| == 1 then Some(d)
        else match HexValue(s[..|s| - 1])
          case None => None
          case Some(n) => Some(16 * n + d)
  }

  /** Two hexadecimal numbers around one slash: the high one counts 2^32. */
  function LsnValue(s: string): Option<nat>
  {
    var i := FirstSlash(s);
    if i == |s| then None
    else match (HexValue(s[..i]), HexValue(s[i + 1..]))
      case (Some(high), Some(low)) => Some(high * 0x1_0000_0000 + low)
      case _ => None
  }

  // ---- what the server prints ----

  function DigitChar(d: nat): char
    requires d < 16
  {
    if d < 10 then '0' + d as char else 'A' + (d - 10) as char
  }

  /** %X */
  function Hex(n: nat): string
  {
    if n < 16 then [DigitChar(n)] else Hex(n / 16) + [DigitChar(n % 16)]
  }

  /** %X/%X */
  function Render(lsn: nat): string
  {
    Hex(lsn / 0x1_0000_0000) + "/" + Hex(lsn % 0x1_0000_0000)
  }

  lemma {:induction false} HexReads(n: nat)
    ensures HexValue(Hex(n)) == Some(n) && '/' !in Hex(n)
  {
    if n >= 16 {
      HexReads(n / 16);
      var s := Hex(n);
      assert s[..|s| - 1] == Hex(n / 16);
    }
  }

  lemma {:induction false} SlashAfter(a: string, b: string)
    requires '/' !in a
    ensures FirstSlash(a + "/" + b) == |a|
  {
    var s := a + "/" + b;
    if a != [] {
      assert s[0] == a[0] && s[1..] == a[1..] + "/" + b;
      SlashAfter(a[1..], b);
    }
  }

  /** Reading what the server prints gives the position back. */
  lemma RenderReads(lsn: nat)
    ensures LsnValue(Render(lsn)) == Some(lsn)
  {
    var high, low := Hex(lsn / 0x1_0000_0000), Hex(lsn % 0x1_0000_0000);
    HexReads(lsn / 0x1_0000_0000);
    HexReads(lsn % 0x1_0000_0000);
    SlashAfter(high, low);
    var s := Render(lsn);
    assert s[..|high|] == high && s[|high| + 1..] == low;
  }
}
