/**
 * The browser's `btoa` and `atob` on byte strings: the base64 encoding of section 4 of RFC 4648
 * with '=' padding, and the forgiving decoder of the WHATWG infra standard (ASCII whitespace is
 * ignored, padding is optional, leftover bits are dropped).
 */
module Base64 {
  import opened Base
  import opened Text

  type Byte = x: int | 0 <= x < 256
  type Sextet = x: int | 0 <= x < 64

  /** The character of a 6-bit value: 'A'-'Z', 'a'-'z', '0'-'9', '+', '/'. */
  function CharOf(v: Sextet): (c: char)
    ensures IsBase64Char(c)
  {
    if v < 26 then ('A' as int + v) as char
    else if v < 52 then ('a' as int + (v - 26)) as char
    else if v < 62 then ('0' as int + (v - 52)) as char
    else if v == 62 then '+'
    else '/'
  }

  predicate IsBase64Char(c: char) {
    ('A' <= c <= 'Z') || ('a' <= c <= 'z') || ('0' <= c <= '9') || c == '+' || c == '/'
  }

  function ValueOf(c: char): Sextet
    requires IsBase64Char(c)
  {
    if 'A' <= c <= 'Z' then c as int - 'A' as int
    else if 'a' <= c <= 'z' then c as int - 'a' as int + 26
    else if '0' <= c <= '9' then c as int - '0' as int + 52
    else if c == '+' then 62
    else 63
  }

  /** The alphabet is a bijection between 6-bit values and its 64 characters. */
  lemma ValueOfCharOf(v: Sextet)
    ensures ValueOf(CharOf(v)) == v
  {
  }

  // The four 6-bit values of a group of three bytes, most significant bits first.

  function Sextet0(b0: Byte): Sextet { b0 / 4 }

  function Sextet1(b0: Byte, b1: Byte): Sextet { (b0 % 4) * 16 + b1 / 16 }

  function Sextet2(b1: Byte, b2: Byte): Sextet { (b1 % 16) * 4 + b2 / 64 }

  function Sextet3(b2: Byte): Sextet { b2 % 64 }

  lemma GroupMod(n: nat, m: nat)
    requires n >= 3
    ensures (n - 3) % 3 == n % 3 && (4 + m) % 4 == m % 4
  {
  }

  /** Bytes to 6-bit values, three bytes to four values; a trailing one or two bytes give two or three. */
  function Sextets(bs: seq<Byte>): (vs: seq<Sextet>)
    ensures |vs| % 4 == (if |bs| % 3 == 0 then 0 else |bs| % 3 + 1)
    ensures |bs| > 0 ==> |vs| > 0
    decreases |bs|
  {
    if |bs| == 0 then []
    else if |bs| == 1 then [Sextet0(bs[0]), Sextet1(bs[0], 0)]
    else if |bs| == 2 then [Sextet0(bs[0]), Sextet1(bs[0], bs[1]), Sextet2(bs[1], 0)]
    else
      var rest := Sextets(bs[3..]);
      GroupMod(|bs|, |rest|);
      [Sextet0(bs[0]), Sextet1(bs[0], bs[1]), Sextet2(bs[1], bs[2]), Sextet3(bs[2])] + rest
  }

  /** Each 6-bit value as its character. */
  function Chars(vs: seq<Sextet>): (s: string)
    ensures |s| == |vs| && forall i :: 0 <= i < |s| ==> IsBase64Char(s[i])
  {
    if vs == [] then "" else [CharOf(vs[0])] + Chars(vs[1..])
  }

  /** Bytes to characters, three bytes to four characters, without padding. */
  function EncodeBody(bs: seq<Byte>): (s: string)
    ensures forall i :: 0 <= i < |s| ==> IsBase64Char(s[i])
    ensures |s| % 4 == (if |bs| % 3 == 0 then 0 else |bs| % 3 + 1)
    ensures |bs| > 0 ==> |s| > 0
  {
    Chars(Sextets(bs))
  }

  function Padding(n: nat): string {
    if n % 3 == 1 then "==" else if n % 3 == 2 then "=" else ""
  }

  /** `btoa` on bytes: the padded encoding, always a multiple of four characters. */
  function Encode(bs: seq<Byte>): (s: string)
    ensures |s| % 4 == 0
  {
    EncodeBody(bs) + Padding(|bs|)
  }

  /** The ASCII whitespace `atob` ignores: tab, line feed, form feed, carriage return and space. */
  predicate IsAsciiWhitespace(c: char) {
    c == '\t' || c == '\n' || c == '\U{C}' || c == '\r' || c == ' '
  }

  function RemoveWhitespace(s: string): (r: string)
    ensures forall i :: 0 <= i < |r| ==> !IsAsciiWhitespace(r[i])
  {
    if s == [] then ""
    else RemoveWhitespace(s[..|s| - 1]) + (if IsAsciiWhitespace(Last(s)) then "" else [Last(s)])
  }

  lemma {:induction false} RemoveNoWhitespace(s: string)
    requires forall i :: 0 <= i < |s| ==> !IsAsciiWhitespace(s[i])
    ensures RemoveWhitespace(s) == s
  {
    if s != [] {
      RemoveNoWhitespace(s[..|s| - 1]);
      assert s[..|s| - 1] + [Last(s)] == s;
    }
  }

  /** With a length that is a multiple of four, one or two final '=' are dropped. */
  function StripPadding(d: string): string {
    if |d| % 4 == 0 && EndsWith(d, "==") then d[..|d| - 2]
    else if |d| % 4 == 0 && EndsWith(d, "=") then d[..|d| - 1]
    else d
  }

  // The three bytes of a group of four 6-bit values.

  function Byte0(v0: Sextet, v1: Sextet): Byte { v0 * 4 + v1 / 16 }

  function Byte1(v1: Sextet, v2: Sextet): Byte { (v1 % 16) * 16 + v2 / 4 }

  function Byte2(v2: Sextet, v3: Sextet): Byte { (v2 % 4) * 64 + v3 }

  /** Each alphabet character as its 6-bit value. */
  function Values(s: string): (vs: seq<Sextet>)
    requires forall i :: 0 <= i < |s| ==> IsBase64Char(s[i])
    ensures |vs| == |s|
  {
    if s == [] then [] else [ValueOf(s[0])] + Values(s[1..])
  }

  /** 6-bit values to bytes, four values to three bytes; two or three final values give one or two. */
  function Bytes(vs: seq<Sextet>): seq<Byte>
    requires |vs| % 4 != 1
    decreases |vs|
  {
    if |vs| == 0 then []
    else if |vs| == 2 then [Byte0(vs[0], vs[1])]
    else if |vs| == 3 then [Byte0(vs[0], vs[1]), Byte1(vs[1], vs[2])]
    else [Byte0(vs[0], vs[1]), Byte1(vs[1], vs[2]), Byte2(vs[2], vs[3])] + Bytes(vs[4..])
  }

  /** Characters to bytes, four characters to three bytes; two or three final characters give one or two. */
  function DecodeBody(s: string): seq<Byte>
    requires forall i :: 0 <= i < |s| ==> IsBase64Char(s[i])
    requires |s| % 4 != 1
  {
    Bytes(Values(s))
  }

  /** `atob`, the forgiving decoder: None where `atob` throws. */
  function Decode(s: string): Option<seq<Byte>> {
    var d := StripPadding(RemoveWhitespace(s));
    if |d| % 4 == 1 || !(forall i :: 0 <= i < |d| ==> IsBase64Char(d[i])) then None
    else Some(DecodeBody(d))
  }

  /** Decoding one encoded group of three bytes gives the three bytes back. */
  lemma GroupRoundTrip(b0: Byte, b1: Byte, b2: Byte)
    ensures Byte0(Sextet0(b0), Sextet1(b0, b1)) == b0
    ensures Byte1(Sextet1(b0, b1), Sextet2(b1, b2)) == b1
    ensures Byte2(Sextet2(b1, b2), Sextet3(b2)) == b2
  {
    var hi := b0 % 4;
    var mid := b1 / 16;
    assert ((hi * 16 + mid) / 16) == hi && (hi * 16 + mid) % 16 == mid;
    var lo := b1 % 16;
    var top := b2 / 64;
    assert (lo * 4 + top) / 4 == lo && (lo * 4 + top) % 4 == top;
  }

  /** Reading the characters of 6-bit values gives the values back. */
  lemma {:induction false} ValuesChars(vs: seq<Sextet>)
    ensures Values(Chars(vs)) == vs
  {
    if vs != [] {
      var s := Chars(vs);
      ValueOfCharOf(vs[0]);
      ValuesChars(vs[1..]);
      assert s[1..] == Chars(vs[1..]);
    }
  }

  // Two or three final values give one or two bytes.

  lemma BytesOfTwo(v0: Sextet, v1: Sextet)
    ensures Bytes([v0, v1]) == [Byte0(v0, v1)]
  {
  }

  lemma BytesOfThree(v0: Sextet, v1: Sextet, v2: Sextet)
    ensures Bytes([v0, v1, v2]) == [Byte0(v0, v1), Byte1(v1, v2)]
  {
  }

  /** A full group of four values followed by more decodes to three bytes, then the rest. */
  lemma BytesOfGroup(v0: Sextet, v1: Sextet, v2: Sextet, v3: Sextet, rest: seq<Sextet>)
    requires |rest| % 4 != 1
    ensures Bytes([v0, v1, v2, v3] + rest) == [Byte0(v0, v1), Byte1(v1, v2), Byte2(v2, v3)] + Bytes(rest)
  {
    var vs := [v0, v1, v2, v3] + rest;
    assert vs[4..] == rest;
  }

  /** One trailing byte survives its two 6-bit values. */
  lemma OneByteRoundTrip(b0: Byte)
    ensures Bytes(Sextets([b0])) == [b0]
  {
    BytesOfTwo(Sextet0(b0), Sextet1(b0, 0));
    GroupRoundTrip(b0, 0, 0);
  }

  /** Two trailing bytes survive their three 6-bit values. */
  lemma TwoBytesRoundTrip(b0: Byte, b1: Byte)
    ensures Bytes(Sextets([b0, b1])) == [b0, b1]
  {
    BytesOfThree(Sextet0(b0), Sextet1(b0, b1), Sextet2(b1, 0));
    GroupRoundTrip(b0, b1, 0);
  }

  /** A full group of three bytes survives its four 6-bit values, whatever follows. */
  lemma GroupBytesRoundTrip(b0: Byte, b1: Byte, b2: Byte, rest: seq<Sextet>)
    requires |rest| % 4 != 1
    ensures Bytes([Sextet0(b0), Sextet1(b0, b1), Sextet2(b1, b2), Sextet3(b2)] + rest) == [b0, b1, b2] + Bytes(rest)
  {
    BytesOfGroup(Sextet0(b0), Sextet1(b0, b1), Sextet2(b1, b2), Sextet3(b2), rest);
    GroupRoundTrip(b0, b1, b2);
  }

  /** Regrouping the 6-bit values of bytes into bytes gives the bytes back. */
  lemma {:induction false} BytesSextets(bs: seq<Byte>)
    ensures Bytes(Sextets(bs)) == bs
    decreases |bs|
  {
    if |bs| == 1 {
      assert bs == [bs[0]];
      OneByteRoundTrip(bs[0]);
    } else if |bs| == 2 {
      assert bs == [bs[0], bs[1]];
      TwoBytesRoundTrip(bs[0], bs[1]);
    } else if |bs| >= 3 {
      BytesSextets(bs[3..]);
      GroupBytesRoundTrip(bs[0], bs[1], bs[2], Sextets(bs[3..]));
      assert bs == [bs[0], bs[1], bs[2]] + bs[3..];
    }
  }

  lemma DecodeEncodeBody(bs: seq<Byte>)
    ensures DecodeBody(EncodeBody(bs)) == bs
  {
    ValuesChars(Sextets(bs));
    BytesSextets(bs);
  }

  lemma StripEncodedPadding(bs: seq<Byte>)
    ensures StripPadding(Encode(bs)) == EncodeBody(bs)
  {
    var body := EncodeBody(bs);
    var s := Encode(bs);
    if |bs| % 3 == 1 {
      assert s[..|s| - 2] == body;
    } else if |bs| % 3 == 2 {
      assert s[|s| - 2] == body[|body| - 1];
      assert s[..|s| - 1] == body;
    } else if |body| > 0 {
      assert s == body;
      assert IsBase64Char(s[|s| - 1]);
    }
  }

  /** Decoding what `btoa` produced gives the bytes back (section 4 of RFC 4648). */
  lemma DecodeEncode(bs: seq<Byte>)
    ensures Decode(Encode(bs)) == Some(bs)
  {
    var s := Encode(bs);
    assert forall i :: 0 <= i < |s| ==> IsBase64Char(s[i]) || s[i] == '=';
    RemoveNoWhitespace(s);
    StripEncodedPadding(bs);
    DecodeEncodeBody(bs);
  }

  /** A single character is never valid base64. */
  lemma OneCharIsInvalid(c: char)
    requires !IsAsciiWhitespace(c)
    ensures Decode([c]) == None
  {
    RemoveNoWhitespace([c]);
  }
}
