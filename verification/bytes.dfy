/** Bytes, SHA-256 digests as opaque 32-byte values, `hex.EncodeToString`,
    and Go's `string(content)` conversion of a byte slice. */
module Bytes {
  import opened Wrappers

  type byte = x: int | 0 <= x < 256

  /** What `sha256.New().Sum(nil)` yields: exactly 32 bytes. */
  type Digest = d: seq<byte> | |d| == 32 witness seq(32, _ => 0 as byte)

  /** The lower-case hexadecimal digit for a value below 16. */
  function HexDigit(n: int): (c: char)
    requires 0 <= n < 16
  {
    if n < 10 then ('0' as int + n) as char else ('a' as int + n - 10) as char
  }

  predicate IsHexDigit(c: char) {
    ('0' <= c <= '9') || ('a' <= c <= 'f')
  }

  /** The value of a lower-case hexadecimal digit; the inverse of HexDigit. */
  function HexValue(c: char): (n: int)
    requires IsHexDigit(c)
    ensures 0 <= n < 16 && HexDigit(n) == c
  {
    if c <= '9' then c as int - '0' as int else c as int - 'a' as int + 10
  }

  lemma HexValueOfDigit(n: int)
    requires 0 <= n < 16
    ensures IsHexDigit(HexDigit(n)) && HexValue(HexDigit(n)) == n
  {
  }

  predicate IsLowerHex(s: string) {
    forall i :: 0 <= i < |s| ==> IsHexDigit(s[i])
  }

  /** `hex.EncodeToString`: two lower-case digits per byte, high nibble first. */
  function HexEncode(bytes: seq<byte>): (s: string)
    ensures |s| == 2 * |bytes|
    ensures IsLowerHex(s)
    ensures forall i :: 0 <= i < |bytes| ==>
      s[2 * i] == HexDigit(bytes[i] / 16) && s[2 * i + 1] == HexDigit(bytes[i] % 16)
  {
    if |bytes| == 0 then ""
    else
      var rest := HexEncode(bytes[1..]);
      var s := [HexDigit(bytes[0] / 16), HexDigit(bytes[0] % 16)] + rest;
      HexConsDigits(bytes, rest, s);
      s
  }

  /** Two digits for the first byte in front of the rest's encoding encode
      every byte at its place. */
  lemma HexConsDigits(bytes: seq<byte>, rest: string, s: string)
    requires |bytes| > 0 && |rest| == 2 * (|bytes| - 1) && IsLowerHex(rest)
    requires forall i :: 0 <= i < |bytes| - 1 ==>
      rest[2 * i] == HexDigit(bytes[1..][i] / 16) && rest[2 * i + 1] == HexDigit(bytes[1..][i] % 16)
    requires s == [HexDigit(bytes[0] / 16), HexDigit(bytes[0] % 16)] + rest
    ensures |s| == 2 * |bytes| && IsLowerHex(s)
    ensures forall i :: 0 <= i < |bytes| ==>
      s[2 * i] == HexDigit(bytes[i] / 16) && s[2 * i + 1] == HexDigit(bytes[i] % 16)
  {
    HexValueOfDigit(bytes[0] / 16);
    HexValueOfDigit(bytes[0] % 16);
    forall i | 1 <= i < |bytes|
      ensures s[2 * i] == HexDigit(bytes[i] / 16) && s[2 * i + 1] == HexDigit(bytes[i] % 16)
    {
      assert bytes[i] == bytes[1..][i - 1];
      assert s[2 * i] == rest[2 * (i - 1)] && s[2 * i + 1] == rest[2 * (i - 1) + 1];
    }
  }

  /** `hex.DecodeString` restricted to lower-case digits: None on an odd
      length or a character that is not a lower-case hex digit. */
  function HexDecode(s: string): (r: Option<seq<byte>>)
    ensures r.Some? ==> 2 * |r.value| == |s|
    decreases |s|
  {
    if |s| == 0 then Some([])
    else if |s| == 1 || !IsHexDigit(s[0]) || !IsHexDigit(s[1]) then None
    else
      var rest :- HexDecode(s[2..]);
      Some([(16 * HexValue(s[0]) + HexValue(s[1])) as byte] + rest)
  }

  /** Decoding an encoding gives the bytes back. */
  lemma {:induction false} HexRoundTrip(bytes: seq<byte>)
    ensures HexDecode(HexEncode(bytes)) == Some(bytes)
    decreases |bytes|
  {
    if |bytes| > 0 {
      var s := HexEncode(bytes);
      var b := bytes[0];
      HexValueOfDigit(b / 16);
      HexValueOfDigit(b % 16);
      assert s[2..] == HexEncode(bytes[1..]);
      HexRoundTrip(bytes[1..]);
      assert bytes == [bytes[0]] + bytes[1..];
    }
  }

  lemma NibblesOfByte(hi: int, lo: int)
    requires 0 <= hi < 16 && 0 <= lo < 16
    ensures (16 * hi + lo) / 16 == hi && (16 * hi + lo) % 16 == lo
  {
  }

  lemma HexEncodeCons(b: byte, rest: seq<byte>)
    ensures HexEncode([b] + rest) == [HexDigit(b / 16), HexDigit(b % 16)] + HexEncode(rest)
  {
    assert ([b] + rest)[0] == b;
    assert ([b] + rest)[1..] == rest;
  }

  /** The lower-case encoding is the only string that decodes to given bytes. */
  lemma {:induction false} HexCanonical(s: string, bytes: seq<byte>)
    requires HexDecode(s) == Some(bytes)
    ensures HexEncode(bytes) == s
    decreases |s|
  {
    if |s| > 0 {
      assert |s| >= 2 && IsHexDigit(s[0]) && IsHexDigit(s[1]);
      var rest := HexDecode(s[2..]).value;
      HexCanonical(s[2..], rest);
      var hi, lo := HexValue(s[0]), HexValue(s[1]);
      NibblesOfByte(hi, lo);
      var b: byte := 16 * hi + lo;
      assert bytes == [b] + rest;
      HexEncodeCons(b, rest);
      assert HexDigit(hi) == s[0] && HexDigit(lo) == s[1];
      assert s == [s[0], s[1]] + s[2..];
    }
  }

  /** Go's `string(content)`: one character per byte, with the byte's code.
      This agrees with Go's reading of the bytes as UTF-8 for ASCII content. */
  function BytesToString(bytes: seq<byte>): (s: string)
    ensures |s| == |bytes|
    ensures forall i :: 0 <= i < |bytes| ==> s[i] as int == bytes[i]
  {
    seq(|bytes|, i requires 0 <= i < |bytes| => bytes[i] as char)
  }

  /** The bytes of a string whose characters all have codes below 256. */
  function StringToBytes(s: string): (r: Option<seq<byte>>)
    ensures r.Some? <==> forall i :: 0 <= i < |s| ==> s[i] as int < 256
  {
    if forall i :: 0 <= i < |s| ==> s[i] as int < 256 then
      Some(seq(|s|, i requires 0 <= i < |s| => s[i] as int as byte))
    else
      None
  }

  /** The conversion to a string loses nothing. */
  lemma BytesToStringRoundTrip(bytes: seq<byte>)
    ensures StringToBytes(BytesToString(bytes)) == Some(bytes)
  {
    var s := BytesToString(bytes);
    assert StringToBytes(s).value == bytes;
  }
}
