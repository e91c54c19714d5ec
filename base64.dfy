/** Base 64 encoding with padding, as in section 4 of RFC 4648. */
module Base64 {
  import opened Wrappers
  import Utf8

  type byte = Utf8.byte

  const Pad := '='

  /** Table 1 of RFC 4648: the character for each 6-bit value. */
  function SextetChar(v: int): (c: char)
    requires 0 <= v < 64
  {
    if v < 26 then ('A' as int + v) as char
    else if v < 52 then ('a' as int + (v - 26)) as char
    else if v < 62 then ('0' as int + (v - 52)) as char
    else if v == 62 then '+'
    else '/'
  }

  /** The 6-bit value of a character of the alphabet. */
  function SextetValue(c: char): (r: Option<nat>)
    ensures r.Some? ==> r.value < 64
  {
    if 'A' <= c <= 'Z' then Some(c as int - 'A' as int)
    else if 'a' <= c <= 'z' then Some(c as int - 'a' as int + 26)
    else if '0' <= c <= '9' then Some(c as int - '0' as int + 52)
    else if c == '+' then Some(62)
    else if c == '/' then Some(63)
    else None
  }

  predicate InAlphabet(c: char)
  {
    SextetValue(c).Some?
  }

  /** The encoded form: `Buffer.prototype.toString('base64')`. */
  function Encode(s: seq<byte>): (r: string)
    decreases |s|
  {
    if |s| == 0 then ""
    else if |s| == 1 then
      [SextetChar(s[0] / 4), SextetChar((s[0] % 4) * 16), Pad, Pad]
    else if |s| == 2 then
      [SextetChar(s[0] / 4), SextetChar((s[0] % 4) * 16 + s[1] / 16), SextetChar((s[1] % 16) * 4), Pad]
    else
      [SextetChar(s[0] / 4), SextetChar((s[0] % 4) * 16 + s[1] / 16),
       SextetChar((s[1] % 16) * 4 + s[2] / 64), SextetChar(s[2] % 64)]
      + Encode(s[3..])
  }

  /** Reassembles the bytes of a group of sextets. */
  function Byte0(v0: nat, v1: nat): byte
    requires v0 < 64 && v1 < 64
  {
    v0 * 4 + v1 / 16
  }

  function Byte1(v1: nat, v2: nat): byte
    requires v1 < 64 && v2 < 64
  {
    (v1 % 16) * 16 + v2 / 4
  }

  function Byte2(v2: nat, v3: nat): byte
    requires v2 < 64 && v3 < 64
  {
    (v2 % 4) * 64 + v3
  }

  /** Decodes padded base 64; `None` when the text is not of that form. */
  function Decode(t: string): Option<seq<byte>>
    decreases |t|
  {
    if |t| == 0 then Some([])
    else if |t| < 4 then None
    else
      var v0 := SextetValue(t[0]);
      var v1 := SextetValue(t[1]);
      var v2 := SextetValue(t[2]);
      var v3 := SextetValue(t[3]);
      if v0.None? || v1.None? then None
      else if |t| == 4 && t[2] == Pad && t[3] == Pad then
        Some([Byte0(v0.value, v1.value)])
      else if |t| == 4 && v2.Some? && t[3] == Pad then
        Some([Byte0(v0.value, v1.value), Byte1(v1.value, v2.value)])
      else if v2.None? || v3.None? then None
      else
        match Decode(t[4..])
        case None => None
        case Some(rest) =>
          Some([Byte0(v0.value, v1.value), Byte1(v1.value, v2.value), Byte2(v2.value, v3.value)] + rest)
  }

  lemma SextetRoundTrip(v: int)
    requires 0 <= v < 64
    ensures SextetValue(SextetChar(v)) == Some(v)
    ensures SextetChar(v) != Pad
  {
  }

  /** Splitting bytes into sextets and joining them again gives the bytes back. */
  lemma RegroupBytes(b0: byte, b1: byte, b2: byte)
    ensures Byte0(b0 / 4, (b0 % 4) * 16 + b1 / 16) == b0
    ensures Byte1((b0 % 4) * 16 + b1 / 16, (b1 % 16) * 4 + b2 / 64) == b1
    ensures Byte2((b1 % 16) * 4 + b2 / 64, b2 % 64) == b2
  {
    var v1 := (b0 % 4) * 16 + b1 / 16;
    assert v1 / 16 == b0 % 4;
    assert v1 % 16 == b1 / 16;
    var v2 := (b1 % 16) * 4 + b2 / 64;
    assert v2 / 4 == b1 % 16;
    assert v2 % 4 == b2 / 64;
  }

  /** One trailing byte: two sextets and two pad characters. */
  lemma DecodeEncodeOne(s: seq<byte>)
    requires |s| == 1
    ensures Decode(Encode(s)) == Some(s)
  {
    SextetRoundTrip(s[0] / 4);
    SextetRoundTrip((s[0] % 4) * 16);
    RegroupBytes(s[0], 0, 0);
    var c0, c1 := SextetChar(s[0] / 4), SextetChar((s[0] % 4) * 16);
    var t := Encode(s);
    assert t == [c0, c1, Pad, Pad];
    DecodeLastOne(c0, c1);
    assert [Byte0(s[0] / 4, (s[0] % 4) * 16)] == s;
  }

  lemma DecodeLastOne(c0: char, c1: char)
    requires InAlphabet(c0) && InAlphabet(c1)
    ensures Decode([c0, c1, Pad, Pad]) == Some([Byte0(SextetValue(c0).value, SextetValue(c1).value)])
  {
  }

  /** Two trailing bytes: three sextets and one pad character. */
  lemma DecodeEncodeTwo(s: seq<byte>)
    requires |s| == 2
    ensures Decode(Encode(s)) == Some(s)
  {
    var v0, v1, v2 := s[0] / 4, (s[0] % 4) * 16 + s[1] / 16, (s[1] % 16) * 4;
    EncodeTwoShape(s);
    SextetRoundTrip(v0);
    SextetRoundTrip(v1);
    SextetRoundTrip(v2);
    DecodeLastTwo(SextetChar(v0), SextetChar(v1), SextetChar(v2));
    RegroupBytes(s[0], s[1], 0);
    assert (s[1] % 16) * 4 + 0 / 64 == v2;
    assert Byte0(v0, v1) == s[0] && Byte1(v1, v2) == s[1];
    assert [Byte0(v0, v1), Byte1(v1, v2)] == [s[0], s[1]] == s;
  }

  lemma EncodeTwoShape(s: seq<byte>)
    requires |s| == 2
    ensures Encode(s) ==
      [SextetChar(s[0] / 4), SextetChar((s[0] % 4) * 16 + s[1] / 16), SextetChar((s[1] % 16) * 4), Pad]
  {
  }

  lemma DecodeLastTwo(c0: char, c1: char, c2: char)
    requires InAlphabet(c0) && InAlphabet(c1) && InAlphabet(c2)
    ensures var v0, v1, v2 := SextetValue(c0).value, SextetValue(c1).value, SextetValue(c2).value;
      Decode([c0, c1, c2, Pad]) == Some([Byte0(v0, v1), Byte1(v1, v2)])
  {
  }

  /** A full group of three bytes in front of the rest. */
  lemma DecodeEncodeGroup(s: seq<byte>)
    requires |s| >= 3
    requires Decode(Encode(s[3..])) == Some(s[3..])
    ensures Decode(Encode(s)) == Some(s)
  {
    var v0, v1 := s[0] / 4, (s[0] % 4) * 16 + s[1] / 16;
    var v2, v3 := (s[1] % 16) * 4 + s[2] / 64, s[2] % 64;
    var t := Encode(s);
    EncodeGroupShape(s);
    SextetRoundTrip(v0);
    SextetRoundTrip(v1);
    SextetRoundTrip(v2);
    SextetRoundTrip(v3);
    assert t[4..] == Encode(s[3..]);
    RegroupFront(s);
    DecodeFront(t, s);
  }

  /** A text whose first four characters carry the sextets of the first three bytes decodes to them. */
  lemma DecodeFront(t: string, s: seq<byte>)
    requires |t| >= 4 && |s| >= 3
    requires SextetValue(t[0]) == Some(s[0] / 4)
    requires SextetValue(t[1]) == Some((s[0] % 4) * 16 + s[1] / 16)
    requires SextetValue(t[2]) == Some((s[1] % 16) * 4 + s[2] / 64)
    requires SextetValue(t[3]) == Some(s[2] % 64)
    requires Decode(t[4..]) == Some(s[3..])
    ensures Decode(t) == Some(s)
  {
    RegroupFront(s);
  }

  /** The encoding of three or more bytes starts with the four characters of the first group. */
  lemma EncodeGroupShape(s: seq<byte>)
    requires |s| >= 3
    ensures Encode(s) ==
      [SextetChar(s[0] / 4), SextetChar((s[0] % 4) * 16 + s[1] / 16),
       SextetChar((s[1] % 16) * 4 + s[2] / 64), SextetChar(s[2] % 64)] + Encode(s[3..])
  {
  }

  lemma RegroupFront(s: seq<byte>)
    requires |s| >= 3
    ensures var v1, v2 := (s[0] % 4) * 16 + s[1] / 16, (s[1] % 16) * 4 + s[2] / 64;
      [Byte0(s[0] / 4, v1), Byte1(v1, v2), Byte2(v2, s[2] % 64)] + s[3..] == s
  {
    RegroupBytes(s[0], s[1], s[2]);
  }

  /** Base 64 round trip: decoding the encoding returns the bytes. */
  lemma {:induction false} DecodeEncode(s: seq<byte>)
    ensures Decode(Encode(s)) == Some(s)
    decreases |s|
  {
    if |s| == 1 {
      DecodeEncodeOne(s);
    } else if |s| == 2 {
      DecodeEncodeTwo(s);
    } else if |s| >= 3 {
      DecodeEncode(s[3..]);
      DecodeEncodeGroup(s);
    }
  }

  /** Every started group of three bytes becomes four characters: the length is `4 * ceil(n / 3)`. */
  lemma {:induction false} EncodeLength(s: seq<byte>)
    ensures |Encode(s)| == 4 * ((|s| + 2) / 3)
    decreases |s|
  {
    if |s| >= 3 {
      EncodeGroupShape(s);
      EncodeLength(s[3..]);
      GroupCount(|s|);
    }
  }

  /** One more group of three input bytes adds one to `ceil(n / 3)`. */
  lemma GroupCount(n: nat)
    requires n >= 3
    ensures (n + 2) / 3 == (n - 3 + 2) / 3 + 1
  {
  }

  /** The encoding uses only the 64 characters of the alphabet and the pad character. */
  lemma {:induction false} EncodeAlphabet(s: seq<byte>)
    ensures forall i :: 0 <= i < |Encode(s)| ==> InAlphabet(Encode(s)[i]) || Encode(s)[i] == Pad
    decreases |s|
  {
    if |s| == 1 {
      SextetRoundTrip(s[0] / 4);
      SextetRoundTrip((s[0] % 4) * 16);
    } else if |s| == 2 {
      SextetRoundTrip(s[0] / 4);
      SextetRoundTrip((s[0] % 4) * 16 + s[1] / 16);
      SextetRoundTrip((s[1] % 16) * 4);
    } else if |s| >= 3 {
      EncodeGroupShape(s);
      SextetRoundTrip(s[0] / 4);
      SextetRoundTrip((s[0] % 4) * 16 + s[1] / 16);
      SextetRoundTrip((s[1] % 16) * 4 + s[2] / 64);
      SextetRoundTrip(s[2] % 64);
      EncodeAlphabet(s[3..]);
    }
  }

  /** Different byte sequences have different encodings. */
  lemma EncodeInjective(s: seq<byte>, u: seq<byte>)
    requires Encode(s) == Encode(u)
    ensures s == u
  {
    DecodeEncode(s);
    DecodeEncode(u);
  }
}
