/**
  * UTF-8 (RFC 3629), the encoding the event publisher applies to every text
  * element of a record before it goes on the bus.
  */
module Utf8 {
  import opened Wrappers

  newtype byte = x: int | 0 <= x < 256

  /** The UTF-8 form of one Unicode scalar value (section 3 of RFC 3629). */
  function EncodeChar(c: char): (r: seq<byte>)
    ensures 1 <= |r| <= 4
  {
    var cp := c as int;
    if cp < 0x80 then [cp as byte]
    else if cp < 0x800 then
      [(0xC0 + cp / 64) as byte, (0x80 + cp % 64) as byte]
    else if cp < 0x1_0000 then
      [(0xE0 + cp / 4096) as byte, (0x80 + cp / 64 % 64) as byte, (0x80 + cp % 64) as byte]
    else
      [(0xF0 + cp / 262144) as byte, (0x80 + cp / 4096 % 64) as byte,
       (0x80 + cp / 64 % 64) as byte, (0x80 + cp % 64) as byte]
  }

  /** The UTF-8 form of a string: the forms of its characters, in order. */
  function Encode(s: string): seq<byte>
  {
    if s == [] then [] else EncodeChar(s[0]) + Encode(s[1..])
  }

  predicate IsContinuation(b: byte) { 0x80 <= b < 0xC0 }

  /**
    * Reads one scalar value from the front of `bs`, rejecting overlong forms,
    * surrogates and values above U+10FFFF; yields the character and the number
    * of bytes it took.
    */
  function DecodeFirst(bs: seq<byte>): (r: Option<(char, nat)>)
    ensures r.Some? ==> 1 <= r.value.1 <= |bs|
  {
    if |bs| == 0 then None
    else
      var b0 := bs[0] as int;
      if b0 < 0x80 then Some((b0 as char, 1))
      else if 0xC2 <= b0 < 0xE0 && |bs| >= 2 && IsContinuation(bs[1]) then
        var cp := (b0 - 0xC0) * 64 + (bs[1] as int - 0x80);
        Some((cp as char, 2))
      else if 0xE0 <= b0 < 0xF0 && |bs| >= 3 && IsContinuation(bs[1]) && IsContinuation(bs[2]) then
        var cp := (b0 - 0xE0) * 4096 + (bs[1] as int - 0x80) * 64 + (bs[2] as int - 0x80);
        if cp < 0x800 || 0xD800 <= cp < 0xE000 then None else Some((cp as char, 3))
      else if 0xF0 <= b0 < 0xF5 && |bs| >= 4
              && IsContinuation(bs[1]) && IsContinuation(bs[2]) && IsContinuation(bs[3]) then
        var cp := (b0 - 0xF0) * 262144 + (bs[1] as int - 0x80) * 4096
                  + (bs[2] as int - 0x80) * 64 + (bs[3] as int - 0x80);
        if cp < 0x1_0000 || cp > 0x10_FFFF then None else Some((cp as char, 4))
      else None
  }

  /** Decodes a whole byte string; None when it is not well-formed UTF-8. */
  function Decode(bs: seq<byte>): Option<string>
    decreases |bs|
  {
    if bs == [] then Some([])
    else match DecodeFirst(bs)
      case None => None
      case Some((c, n)) =>
        match Decode(bs[n..])
        case None => None
        case Some(rest) => Some([c] + rest)
  }

  /** Reading back the first character of an encoding gives that character. */
  lemma DecodeFirstEncodeChar(c: char, rest: seq<byte>)
    ensures DecodeFirst(EncodeChar(c) + rest) == Some((c, |EncodeChar(c)|))
  {
    var cp := c as int;
    if cp < 0x80 {
    } else if cp < 0x800 {
      DecodeTwo(c, rest);
    } else if cp < 0x1_0000 {
      DecodeThree(c, rest);
    } else {
      DecodeFour(c, rest);
    }
  }

  lemma DecodeTwo(c: char, rest: seq<byte>)
    requires 0x80 <= c as int < 0x800
    ensures DecodeFirst(EncodeChar(c) + rest) == Some((c, 2))
  {
    var cp := c as int;
    var hi, lo := cp / 64, cp % 64;
    assert cp == hi * 64 + lo;
    var bs := EncodeChar(c) + rest;
    assert bs[0] as int == 0xC0 + hi && bs[1] as int == 0x80 + lo;
  }

  lemma DecodeThree(c: char, rest: seq<byte>)
    requires 0x800 <= c as int < 0x1_0000
    ensures DecodeFirst(EncodeChar(c) + rest) == Some((c, 3))
  {
    var cp := c as int;
    var a, b, d := cp / 4096, cp / 64 % 64, cp % 64;
    assert cp / 64 == a * 64 + b;
    assert cp == a * 4096 + b * 64 + d;
    var bs := EncodeChar(c) + rest;
    assert bs[0] as int == 0xE0 + a && bs[1] as int == 0x80 + b && bs[2] as int == 0x80 + d;
  }

  lemma DecodeFour(c: char, rest: seq<byte>)
    requires 0x1_0000 <= c as int
    ensures DecodeFirst(EncodeChar(c) + rest) == Some((c, 4))
  {
    var cp := c as int;
    var a, b, e, d := cp / 262144, cp / 4096 % 64, cp / 64 % 64, cp % 64;
    assert cp / 4096 == a * 64 + b;
    assert cp / 64 == (cp / 4096) * 64 + e;
    assert cp == (cp / 64) * 64 + d;
    assert cp == a * 262144 + b * 4096 + e * 64 + d;
    var bs := EncodeChar(c) + rest;
    assert bs[0] as int == 0xF0 + a && bs[1] as int == 0x80 + b;
    assert bs[2] as int == 0x80 + e && bs[3] as int == 0x80 + d;
  }

  /** Decoding undoes encoding: no text element is altered by the publisher. */
  lemma {:induction false} DecodeEncode(s: string)
    ensures Decode(Encode(s)) == Some(s)
  {
    if s != [] {
      var head := EncodeChar(s[0]);
      var bs := head + Encode(s[1..]);
      DecodeFirstEncodeChar(s[0], Encode(s[1..]));
      assert bs[|head|..] == Encode(s[1..]);
      DecodeEncode(s[1..]);
      assert [s[0]] + s[1..] == s;
    }
  }

  /** The bytes one character was read from are that character's encoding. */
  lemma EncodeCharDecodeFirst(bs: seq<byte>)
    requires DecodeFirst(bs).Some?
    ensures EncodeChar(DecodeFirst(bs).value.0) == bs[..DecodeFirst(bs).value.1]
  {
    var b0 := bs[0] as int;
    if b0 < 0x80 {
    } else if 0xC2 <= b0 < 0xE0 {
      EncodeTwo(bs);
    } else if 0xE0 <= b0 < 0xF0 {
      EncodeThree(bs);
    } else {
      EncodeFour(bs);
    }
  }

  lemma EncodeTwo(bs: seq<byte>)
    requires DecodeFirst(bs).Some? && 0xC2 <= bs[0] < 0xE0
    ensures EncodeChar(DecodeFirst(bs).value.0) == bs[..2]
  {
    var hi, lo := bs[0] as int - 0xC0, bs[1] as int - 0x80;
    var cp := hi * 64 + lo;
    assert DecodeFirst(bs).value.0 as int == cp;
    assert cp / 64 == hi && cp % 64 == lo;
  }

  lemma EncodeThree(bs: seq<byte>)
    requires DecodeFirst(bs).Some? && 0xE0 <= bs[0] < 0xF0
    ensures EncodeChar(DecodeFirst(bs).value.0) == bs[..3]
  {
    var a, b, d := bs[0] as int - 0xE0, bs[1] as int - 0x80, bs[2] as int - 0x80;
    var cp := a * 4096 + b * 64 + d;
    assert DecodeFirst(bs).value.0 as int == cp;
    assert cp / 64 == a * 64 + b && cp % 64 == d;
    assert cp / 4096 == a && cp / 64 % 64 == b;
  }

  lemma EncodeFour(bs: seq<byte>)
    requires DecodeFirst(bs).Some? && 0xF0 <= bs[0]
    ensures EncodeChar(DecodeFirst(bs).value.0) == bs[..4]
  {
    var a, b, e, d := bs[0] as int - 0xF0, bs[1] as int - 0x80, bs[2] as int - 0x80, bs[3] as int - 0x80;
    var cp := a * 262144 + b * 4096 + e * 64 + d;
    assert DecodeFirst(bs).value.0 as int == cp;
    assert cp / 64 == a * 4096 + b * 64 + e && cp % 64 == d;
    assert cp / 4096 == a * 64 + b && cp / 64 % 64 == e;
    assert cp / 262144 == a && cp / 4096 % 64 == b;
  }

  /**
    * Encoding undoes decoding: a well-formed UTF-8 byte string is exactly the
    * encoding of the text it decodes to.
    */
  lemma {:induction false} EncodeDecode(bs: seq<byte>)
    requires Decode(bs).Some?
    ensures Encode(Decode(bs).value) == bs
    decreases |bs|
  {
    if bs != [] {
      var (c, n) := DecodeFirst(bs).value;
      var rest := Decode(bs[n..]).value;
      EncodeCharDecodeFirst(bs);
      EncodeDecode(bs[n..]);
      var s := [c] + rest;
      assert s[0] == c && s[1..] == rest;
      assert bs == bs[..n] + bs[n..];
    }
  }

  /** Distinct strings have distinct encodings. */
  lemma EncodeInjective(s: string, t: string)
    ensures Encode(s) == Encode(t) ==> s == t
  {
    DecodeEncode(s);
    DecodeEncode(t);
  }
}
