/**
 * UTF-8 (RFC 3629) over Dafny's characters, which are Unicode scalar values,
 * together with the UTF-16 length JavaScript reports as `string.length`.
 */
module Utf8 {
  import opened Wrappers

  type byte = b: int | 0 <= b < 256

  /** Scalar values that do not fit one UTF-16 code unit take two. */
  function Utf16Units(c: char): nat
  {
    if c as int >= 0x10000 then 2 else 1
  }

  /** `s.length` in JavaScript: the number of UTF-16 code units. */
  function Utf16Length(s: string): nat
  {
    if s == [] then 0 else Utf16Units(s[0]) + Utf16Length(s[1..])
  }

  /** The one to four bytes of RFC 3629, section 3. */
  function EncodeChar(c: char): (r: seq<byte>)
    ensures 1 <= |r| <= 4
    ensures |r| >= Utf16Units(c)
  {
    var n := c as int;
    if n < 0x80 then [n]
    else if n < 0x800 then [0xC0 + n / 64, 0x80 + n % 64]
    else if n < 0x10000 then [0xE0 + n / 4096, 0x80 + (n / 64) % 64, 0x80 + n % 64]
    else [0xF0 + n / 262144, 0x80 + (n / 4096) % 64, 0x80 + (n / 64) % 64, 0x80 + n % 64]
  }

  /** `Buffer.from(s)`: the UTF-8 bytes of `s`, character after character. */
  function Encode(s: string): seq<byte>
  {
    if s == [] then [] else EncodeChar(s[0]) + Encode(s[1..])
  }

  predicate IsContinuation(b: byte)
  {
    0x80 <= b < 0xC0
  }

  /** A decoded value becomes a character only if it is a Unicode scalar value. */
  function ScalarOf(v: int, least: int): Option<char>
  {
    if least <= v && (0 <= v < 0xD800 || 0xE000 <= v < 0x110000) then Some(v as char) else None
  }

  /**
   * The character at the front of `b` and the number of bytes it takes; `None`
   * for a bad lead byte, a missing or bad continuation byte, an over-long form
   * or a value that is no scalar value.
   */
  function DecodeChar(b: seq<byte>): (r: Option<(char, nat)>)
    ensures r.Some? ==> 1 <= r.value.1 <= |b| && r.value.1 <= 4
  {
    if |b| == 0 then None
    else if b[0] < 0x80 then Some((b[0] as char, 1))
    else if b[0] < 0xC0 then None
    else if b[0] < 0xE0 then
      if |b| < 2 || !IsContinuation(b[1]) then None
      else
        var c := ScalarOf((b[0] as int - 0xC0) * 64 + (b[1] as int - 0x80), 0x80);
        if c.Some? then Some((c.value, 2)) else None
    else if b[0] < 0xF0 then
      if |b| < 3 || !IsContinuation(b[1]) || !IsContinuation(b[2]) then None
      else
        var c := ScalarOf((b[0] as int - 0xE0) * 4096 + (b[1] as int - 0x80) * 64 + (b[2] as int - 0x80), 0x800);
        if c.Some? then Some((c.value, 3)) else None
    else if b[0] < 0xF8 then
      if |b| < 4 || !IsContinuation(b[1]) || !IsContinuation(b[2]) || !IsContinuation(b[3]) then None
      else
        var c := ScalarOf((b[0] as int - 0xF0) * 262144 + (b[1] as int - 0x80) * 4096 + (b[2] as int - 0x80) * 64 + (b[3] as int - 0x80), 0x10000);
        if c.Some? then Some((c.value, 4)) else None
    else None
  }

  /** Decodes a whole byte sequence, or fails. */
  function Decode(b: seq<byte>): Option<string>
    decreases |b|
  {
    if b == [] then Some([])
    else
      match DecodeChar(b)
      case None => None
      case Some((c, n)) =>
        match Decode(b[n..])
        case None => None
        case Some(rest) => Some([c] + rest)
  }

  /** The four-byte split of a value below 0x110000 is undone by the decoder's sum. */
  lemma SplitFour(n: int)
    requires 0 <= n
    ensures (n / 262144) * 262144 + ((n / 4096) % 64) * 4096 + ((n / 64) % 64) * 64 + n % 64 == n
  {
    var q1 := n / 64;
    var q2 := q1 / 64;
    var q3 := q2 / 64;
    assert n == q1 * 64 + n % 64;
    assert q1 == q2 * 64 + q1 % 64;
    assert q2 == q3 * 64 + q2 % 64;
    assert n / 4096 == q2 by {
      assert n == q2 * 4096 + (q1 % 64) * 64 + n % 64;
    }
    assert n / 262144 == q3 by {
      assert n == q3 * 262144 + (q2 % 64) * 4096 + (q1 % 64) * 64 + n % 64;
    }
  }

  /** The three-byte split undone. */
  lemma SplitThree(n: int)
    requires 0 <= n
    ensures (n / 4096) * 4096 + ((n / 64) % 64) * 64 + n % 64 == n
  {
    var q1 := n / 64;
    var q2 := q1 / 64;
    assert n == q1 * 64 + n % 64;
    assert q1 == q2 * 64 + q1 % 64;
    assert n / 4096 == q2 by {
      assert n == q2 * 4096 + (q1 % 64) * 64 + n % 64;
    }
  }

  /** Decoding the bytes of one character, whatever follows, gives that character back. */
  lemma DecodeEncodeChar(c: char, rest: seq<byte>)
    ensures DecodeChar(EncodeChar(c) + rest) == Some((c, |EncodeChar(c)|))
  {
    var n := c as int;
    var b := EncodeChar(c) + rest;
    if n < 0x80 {
    } else if n < 0x800 {
      assert (b[0] as int - 0xC0) * 64 + (b[1] as int - 0x80) == n;
    } else if n < 0x10000 {
      SplitThree(n);
      assert (b[0] as int - 0xE0) * 4096 + (b[1] as int - 0x80) * 64 + (b[2] as int - 0x80) == n;
    } else {
      SplitFour(n);
      assert (b[0] as int - 0xF0) * 262144 + (b[1] as int - 0x80) * 4096 + (b[2] as int - 0x80) * 64 + (b[3] as int - 0x80) == n;
    }
  }

  /** UTF-8 round trip: decoding the encoding returns the string. */
  lemma {:induction false} DecodeEncode(s: string)
    ensures Decode(Encode(s)) == Some(s)
  {
    if s != [] {
      var e := EncodeChar(s[0]);
      var tail := Encode(s[1..]);
      assert Encode(s) == e + tail;
      DecodeEncodeChar(s[0], tail);
      assert (e + tail)[|e|..] == tail;
      DecodeEncode(s[1..]);
      assert [s[0]] + s[1..] == s;
    }
  }

  /** Different strings have different encodings. */
  lemma EncodeInjective(s: string, t: string)
    requires Encode(s) == Encode(t)
    ensures s == t
  {
    DecodeEncode(s);
    DecodeEncode(t);
  }

  /** A string never has more UTF-16 code units than UTF-8 bytes. */
  lemma {:induction false} Utf16LengthAtMostBytes(s: string)
    ensures Utf16Length(s) <= |Encode(s)|
  {
    if s != [] {
      Utf16LengthAtMostBytes(s[1..]);
    }
  }

  /** Characters of the Basic Multilingual Plane count one code unit each. */
  lemma {:induction false} Utf16LengthOfBmp(s: string)
    requires forall i :: 0 <= i < |s| ==> s[i] as int < 0x10000
    ensures Utf16Length(s) == |s|
  {
    if s != [] {
      Utf16LengthOfBmp(s[1..]);
    }
  }
}
