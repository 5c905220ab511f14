/**
 * UTF-8, as `str.encode('utf-8')` produces it, with a decoder that inverts it.
 * Dafny characters are Unicode scalar values, so every character has an encoding.
 */
module Utf8 {
  import opened Wrappers

  type Byte = b: int | 0 <= b < 0x100

  /** A continuation byte `10xxxxxx`. */
  predicate IsContinuation(b: Byte) {
    0x80 <= b < 0xC0
  }

  /** The one to four bytes of one character. */
  function EncodeChar(c: char): (r: seq<Byte>)
    ensures 1 <= |r| <= 4
    ensures |r| == 1 <==> (c as int) < 0x80
    ensures forall i :: 1 <= i < |r| ==> IsContinuation(r[i])
  {
    var n := c as int;
    var q1 := n / 0x40;
    var q2 := q1 / 0x40;
    if n < 0x80 then [n]
    else if n < 0x800 then [0xC0 + q1, 0x80 + n % 0x40]
    else if n < 0x1_0000 then [0xE0 + q2, 0x80 + q1 % 0x40, 0x80 + n % 0x40]
    else [0xF0 + q2 / 0x40, 0x80 + q2 % 0x40, 0x80 + q1 % 0x40, 0x80 + n % 0x40]
  }

  /** The encoding of a string: the encodings of its characters, in order. */
  function Encode(s: string): (r: seq<Byte>)
    ensures |r| >= |s|
  {
    if s == [] then [] else EncodeChar(s[0]) + Encode(s[1..])
  }

  /** ASCII text encodes to one byte per character, each byte the character's code. */
  predicate IsAscii(s: string) {
    forall i :: 0 <= i < |s| ==> (s[i] as int) < 0x80
  }

  lemma {:induction false} EncodeAscii(s: string)
    requires IsAscii(s)
    ensures |Encode(s)| == |s|
    ensures forall i :: 0 <= i < |s| ==> Encode(s)[i] == s[i] as int
  {
    if s != [] {
      EncodeAscii(s[1..]);
    }
  }

  /** An ASCII string encodes to the given bytes when each byte is its character's code. */
  lemma EncodeAsciiIs(s: string, bytes: seq<Byte>)
    requires IsAscii(s) && |bytes| == |s|
    requires forall i :: 0 <= i < |s| ==> bytes[i] == s[i] as int
    ensures Encode(s) == bytes
  {
    EncodeAscii(s);
  }

  /** Decodes well-formed UTF-8 (shortest form, no surrogates, at most U+10FFFF). */
  function Decode(b: seq<Byte>): (r: Option<string>)
    decreases |b|
  {
    if b == [] then Some([])
    else
      var b0 := b[0] as int;
      if b0 < 0x80 then
        Prepend(b0 as char, Decode(b[1..]))
      else if 0xC2 <= b0 < 0xE0 && |b| >= 2 && IsContinuation(b[1]) then
        var v := (b0 - 0xC0) * 0x40 + (b[1] as int - 0x80);
        Prepend(v as char, Decode(b[2..]))
      else if 0xE0 <= b0 < 0xF0 && |b| >= 3 && IsContinuation(b[1]) && IsContinuation(b[2]) then
        var v := (b0 - 0xE0) * 0x1000 + (b[1] as int - 0x80) * 0x40 + (b[2] as int - 0x80);
        if 0x800 <= v < 0xD800 || 0xE000 <= v then Prepend(v as char, Decode(b[3..])) else None
      else if 0xF0 <= b0 < 0xF5 && |b| >= 4 && IsContinuation(b[1]) && IsContinuation(b[2]) && IsContinuation(b[3]) then
        var v := (b0 - 0xF0) * 0x4_0000 + (b[1] as int - 0x80) * 0x1000 + (b[2] as int - 0x80) * 0x40 + (b[3] as int - 0x80);
        if 0x1_0000 <= v < 0x11_0000 then Prepend(v as char, Decode(b[4..])) else None
      else None
  }

  function Prepend(c: char, rest: Option<string>): Option<string> {
    match rest
    case None => None
    case Some(s) => Some([c] + s)
  }

  /** Decoding one character's encoding followed by anything gives that character first. */
  lemma DecodeEncodeChar(c: char, rest: seq<Byte>)
    ensures Decode(EncodeChar(c) + rest) == Prepend(c, Decode(rest))
  {
    var n := c as int;
    if n < 0x80 {
      DecodeOneByte(c, rest);
    } else if n < 0x800 {
      DecodeTwoBytes(c, rest);
    } else if n < 0x1_0000 {
      DecodeThreeBytes(c, rest);
    } else {
      DecodeFourBytes(c, rest);
    }
  }

  lemma DecodeOneByte(c: char, rest: seq<Byte>)
    requires (c as int) < 0x80
    ensures Decode(EncodeChar(c) + rest) == Prepend(c, Decode(rest))
  {
    var b := EncodeChar(c) + rest;
    assert b[0] == c as int;
    assert b[1..] == rest;
  }

  lemma DecodeTwoBytes(c: char, rest: seq<Byte>)
    requires 0x80 <= (c as int) < 0x800
    ensures Decode(EncodeChar(c) + rest) == Prepend(c, Decode(rest))
  {
    var n := c as int;
    var q1, l0 := n / 0x40, n % 0x40;
    assert n == q1 * 0x40 + l0 && 2 <= q1 < 0x20;
    var b := EncodeChar(c) + rest;
    assert b[0] == 0xC0 + q1 && b[1] == 0x80 + l0;
    assert b[2..] == rest;
  }

  lemma DecodeThreeBytes(c: char, rest: seq<Byte>)
    requires 0x800 <= (c as int) < 0x1_0000
    ensures Decode(EncodeChar(c) + rest) == Prepend(c, Decode(rest))
  {
    var n := c as int;
    var q1, l0 := n / 0x40, n % 0x40;
    var q2, l1 := q1 / 0x40, q1 % 0x40;
    assert n == q1 * 0x40 + l0 && q1 == q2 * 0x40 + l1 && q2 < 0x10;
    var b := EncodeChar(c) + rest;
    assert b[0] == 0xE0 + q2 && b[1] == 0x80 + l1 && b[2] == 0x80 + l0;
    assert b[3..] == rest;
  }

  lemma DecodeFourBytes(c: char, rest: seq<Byte>)
    requires 0x1_0000 <= (c as int)
    ensures Decode(EncodeChar(c) + rest) == Prepend(c, Decode(rest))
  {
    var n := c as int;
    var q1, l0 := n / 0x40, n % 0x40;
    var q2, l1 := q1 / 0x40, q1 % 0x40;
    var q3, l2 := q2 / 0x40, q2 % 0x40;
    assert n == q1 * 0x40 + l0 && q1 == q2 * 0x40 + l1 && q2 == q3 * 0x40 + l2 && q3 < 5;
    var b := EncodeChar(c) + rest;
    assert b[0] == 0xF0 + q3 && b[1] == 0x80 + l2 && b[2] == 0x80 + l1 && b[3] == 0x80 + l0;
    assert b[4..] == rest;
  }

  /** `Decode` inverts `Encode`: the encoded bytes determine the text exactly. */
  lemma {:induction false} DecodeEncode(s: string)
    ensures Decode(Encode(s)) == Some(s)
  {
    if s != [] {
      assert Encode(s) == EncodeChar(s[0]) + Encode(s[1..]);
      DecodeEncodeChar(s[0], Encode(s[1..]));
      DecodeEncode(s[1..]);
      assert [s[0]] + s[1..] == s;
    }
  }

  /** Hence encoding is injective. */
  lemma EncodeInjective(s: string, t: string)
    requires Encode(s) == Encode(t)
    ensures s == t
  {
    DecodeEncode(s);
    DecodeEncode(t);
  }
}
