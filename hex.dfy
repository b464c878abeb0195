/**
  Lower-case hexadecimal text of a byte string, as Node's
  `Buffer.toString("hex")` writes it: two digits per byte, the high nibble
  first. The decoder is the inverse that shows the encoding loses nothing.
*/
module Hex {
  import opened Wrappers

  newtype byte = x: int | 0 <= x < 256

  predicate IsHexDigit(c: char) {
    '0' <= c <= '9' || 'a' <= c <= 'f'
  }

  /** The digit of a nibble. */
  function DigitOf(n: nat): (c: char)
    requires n < 16
    ensures IsHexDigit(c)
    ensures ValueOf(c) == n
  {
    if n < 10 then ('0' as int + n) as char else ('a' as int + n - 10) as char
  }

  /** The nibble a digit stands for. */
  function ValueOf(c: char): (n: nat)
    requires IsHexDigit(c)
    ensures n < 16
  {
    if c <= '9' then c as int - '0' as int else c as int - 'a' as int + 10
  }

  function ByteHex(b: byte): string {
    [DigitOf(b as int / 16), DigitOf(b as int % 16)]
  }

  function HexEncode(bytes: seq<byte>): (s: string)
    ensures |s| == 2 * |bytes|
    ensures forall i :: 0 <= i < |s| ==> IsHexDigit(s[i])
  {
    if bytes == [] then "" else ByteHex(bytes[0]) + HexEncode(bytes[1..])
  }

  /** Reads hexadecimal text back; None for odd length or a non-digit. */
  function HexDecode(s: string): Option<seq<byte>> {
    if s == [] then Some([])
    else if |s| < 2 || !IsHexDigit(s[0]) || !IsHexDigit(s[1]) then None
    else match HexDecode(s[2..])
      case None => None
      case Some(rest) => Some([(ValueOf(s[0]) * 16 + ValueOf(s[1])) as byte] + rest)
  }

  lemma {:induction false} DecodeEncode(bytes: seq<byte>)
    ensures HexDecode(HexEncode(bytes)) == Some(bytes)
  {
    if bytes != [] {
      var s := HexEncode(bytes);
      var b := bytes[0];
      assert s == ByteHex(b) + HexEncode(bytes[1..]);
      assert s[2..] == HexEncode(bytes[1..]);
      DecodeEncode(bytes[1..]);
      assert ValueOf(s[0]) * 16 + ValueOf(s[1]) == b as int;
      assert [b] + bytes[1..] == bytes;
    }
  }

  /** Distinct byte strings give distinct texts. */
  lemma EncodeInjective(a: seq<byte>, b: seq<byte>)
    requires HexEncode(a) == HexEncode(b)
    ensures a == b
  {
    DecodeEncode(a);
    DecodeEncode(b);
  }
}
