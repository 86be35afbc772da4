/**
 * The lower-case hexadecimal rendering of a byte array used to print request
 * signatures (`ByteArrayToString` in both brokerages' utility partials).
 */
module Hex {

  newtype byte = x: int | 0 <= x < 256

  /** A lower-case hexadecimal digit. */
  predicate IsHexDigit(c: char) { '0' <= c <= '9' || 'a' <= c <= 'f' }

  /** The digit of a nibble: `0`..`9`, then `a`..`f`. */
  function DigitChar(n: int): (c: char)
    requires 0 <= n < 16
    ensures IsHexDigit(c)
  {
    if n < 10 then ('0' as int + n) as char else ('a' as int + n - 10) as char
  }

  function DigitValue(c: char): (n: int)
    ensures 0 <= n < 16
    ensures IsHexDigit(c) ==> DigitChar(n) == c
    ensures forall m :: 0 <= m < 16 && DigitChar(m) == c ==> n == m
  {
    if '0' <= c <= '9' then c as int - '0' as int
    else if 'a' <= c <= 'f' then c as int - 'a' as int + 10
    else 0
  }

  /** `b.ToString("x2")`: two lower-case digits, the high nibble first. */
  function ByteDigits(b: byte): (s: string)
    ensures |s| == 2 && IsHexDigit(s[0]) && IsHexDigit(s[1])
    ensures DigitValue(s[0]) * 16 + DigitValue(s[1]) == b as int
  {
    [DigitChar(b as int / 16), DigitChar(b as int % 16)]
  }

  /** The specification of the encoder: the concatenation of every byte's two digits, in order. */
  function HexOf(ba: seq<byte>): (s: string)
    ensures |s| == 2 * |ba|
  {
    if ba == [] then "" else HexOf(ba[..|ba| - 1]) + ByteDigits(ba[|ba| - 1])
  }

  /** Byte `i` of the input is rendered at positions `2i` and `2i + 1` of the output. */
  lemma {:induction false} HexOfAt(ba: seq<byte>, i: int)
    requires 0 <= i < |ba|
    ensures HexOf(ba)[2 * i .. 2 * i + 2] == ByteDigits(ba[i])
  {
    if i < |ba| - 1 {
      HexOfAt(ba[..|ba| - 1], i);
      assert ba[..|ba| - 1][i] == ba[i];
    }
  }

  /** The output uses lower-case hexadecimal digits only. */
  lemma HexOfLowerCase(ba: seq<byte>)
    ensures forall k :: 0 <= k < |HexOf(ba)| ==> IsHexDigit(HexOf(ba)[k])
  {
    forall k | 0 <= k < |HexOf(ba)|
      ensures IsHexDigit(HexOf(ba)[k])
    {
      HexOfAt(ba, k / 2);
      assert HexOf(ba)[k] == HexOf(ba)[2 * (k / 2) .. 2 * (k / 2) + 2][k % 2];
    }
  }

  /** Parses pairs of hex digits back into bytes: the partner of `HexOf`. */
  function Unhex(s: string): (ba: seq<byte>)
    requires |s| % 2 == 0
    ensures |ba| == |s| / 2
  {
    if s == [] then []
    else Unhex(s[..|s| - 2]) + [(DigitValue(s[|s| - 2]) * 16 + DigitValue(s[|s| - 1])) as byte]
  }

  /** Parsing two more digits appends the byte they spell. */
  lemma UnhexSnoc(prefix: string, d: string)
    requires |prefix| % 2 == 0 && |d| == 2
    ensures Unhex(prefix + d) == Unhex(prefix) + [(DigitValue(d[0]) * 16 + DigitValue(d[1])) as byte]
  {
    var s := prefix + d;
    assert s[..|s| - 2] == prefix;
  }

  /** The rendering is lossless: parsing the digits recovers the bytes. */
  lemma {:induction false} UnhexHexOf(ba: seq<byte>)
    ensures Unhex(HexOf(ba)) == ba
  {
    if ba != [] {
      var init, last := ba[..|ba| - 1], ba[|ba| - 1];
      var d := ByteDigits(last);
      assert HexOf(ba) == HexOf(init) + d;
      UnhexHexOf(init);
      UnhexSnoc(HexOf(init), d);
      assert (DigitValue(d[0]) * 16 + DigitValue(d[1])) as byte == last;
      assert ba == init + [last];
    }
  }

  /** The encoder's loop: one `AppendFormat("{0:x2}", b)` per byte. */
  method ByteArrayToString(ba: seq<byte>) returns (hex: string)
    ensures hex == HexOf(ba)
    ensures Unhex(hex) == ba
  {
    hex := "";
    var i := 0;
    while i < |ba|
      invariant 0 <= i <= |ba|
      invariant hex == HexOf(ba[..i])
    {
      assert ba[..i + 1][..i] == ba[..i];
      hex := hex + ByteDigits(ba[i]);
      i := i + 1;
    }
    assert ba[..i] == ba;
    UnhexHexOf(ba);
  }
}
