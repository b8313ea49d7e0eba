/**
 * UTF-8 as RFC 3629 defines it: the encoding `str.encode("utf-8")` produces and the strict
 * decoding `bytes.decode("utf-8")` performs (overlong forms, surrogates and code points above
 * U+10FFFF are rejected).
 */
module Utf8 {
  import opened Wrappers

  newtype byte = x: int | 0 <= x < 256

  /** A continuation byte, 10xxxxxx. */
  predicate IsContinuation(b: byte) {
    0x80 <= b < 0xC0
  }

  /** The bytes of one character: one to four, by the size of its code point. */
  function EncodeChar(c: char): (r: seq<byte>)
    ensures 1 <= |r| <= 4
    ensures (|r| == 1) <==> (c as int < 0x80)
  {
    var cp := c as int;
    if cp < 0x80 then
      [cp as byte]
    else if cp < 0x800 then
      [(0xC0 + cp / 64) as byte, (0x80 + cp % 64) as byte]
    else if cp < 0x1_0000 then
      [(0xE0 + cp / 4096) as byte, (0x80 + (cp / 64) % 64) as byte, (0x80 + cp % 64) as byte]
    else
      [(0xF0 + cp / 262144) as byte, (0x80 + (cp / 4096) % 64) as byte,
       (0x80 + (cp / 64) % 64) as byte, (0x80 + cp % 64) as byte]
  }

  /** The encoding of a string: its characters' encodings, in order. */
  function Encode(s: string): seq<byte> {
    if s == [] then [] else EncodeChar(s[0]) + Encode(s[1..])
  }

  /** Whether a code point may be the value of a char (a Unicode scalar value). */
  predicate IsScalar(cp: int) {
    (0 <= cp < 0xD800) || (0xE000 <= cp < 0x11_0000)
  }

  /** Decodes the first character of `b`, giving it and the number of bytes it took, or None if `b` does not start with a well-formed sequence. */
  function DecodeChar(b: seq<byte>): (r: Option<(char, nat)>)
    requires |b| > 0
    ensures r.Some? ==> 1 <= r.value.1 <= |b| && r.value.1 <= 4
  {
    var b0 := b[0] as int;
    if b0 < 0x80 then
      Some((b0 as char, 1))
    else if 0xC2 <= b0 < 0xE0 then
      if |b| < 2 || !IsContinuation(b[1]) then None
      else
        var cp := (b0 - 0xC0) * 64 + (b[1] as int - 0x80);
        Some((cp as char, 2))
    else if 0xE0 <= b0 < 0xF0 then
      if |b| < 3 || !IsContinuation(b[1]) || !IsContinuation(b[2]) then None
      else
        var cp := (b0 - 0xE0) * 4096 + (b[1] as int - 0x80) * 64 + (b[2] as int - 0x80);
        if cp < 0x800 || (0xD800 <= cp < 0xE000) then None else Some((cp as char, 3))
    else if 0xF0 <= b0 < 0xF5 then
      if |b| < 4 || !IsContinuation(b[1]) || !IsContinuation(b[2]) || !IsContinuation(b[3]) then None
      else
        var cp := (b0 - 0xF0) * 262144 + (b[1] as int - 0x80) * 4096
                  + (b[2] as int - 0x80) * 64 + (b[3] as int - 0x80);
        if cp < 0x1_0000 || cp >= 0x11_0000 then None else Some((cp as char, 4))
    else
      None
  }

  /** Strict decoding of a whole byte sequence; None where Python raises UnicodeDecodeError. */
  function Decode(b: seq<byte>): Option<string>
    decreases |b|
  {
    if b == [] then Some([])
    else
      match DecodeChar(b)
      case None => None
      case Some((c, n)) =>
        match Decode(b[n..])
        case None => None
        case Some(rest) => Some([c] + rest)
  }

  /** A character's encoding decodes back to it, whatever bytes follow. */
  lemma DecodeEncodeChar(c: char, rest: seq<byte>)
    ensures DecodeChar(EncodeChar(c) + rest) == Some((c, |EncodeChar(c)|))
  {
    var cp := c as int;
    var b := EncodeChar(c) + rest;
    if cp < 0x80 {
    } else if cp < 0x800 {
      assert cp == (cp / 64) * 64 + cp % 64;
    } else if cp < 0x1_0000 {
      var q := cp / 64;
      assert cp == q * 64 + cp % 64;
      assert q == (q / 64) * 64 + q % 64;
      assert q / 64 == cp / 4096;
    } else {
      var q := cp / 64;
      var q2 := q / 64;
      assert cp == q * 64 + cp % 64;
      assert q == q2 * 64 + q % 64;
      assert q2 == (q2 / 64) * 64 + q2 % 64;
      assert q2 == cp / 4096;
      assert q2 / 64 == cp / 262144;
    }
  }

  /** Encoding distributes over concatenation. */
  lemma {:induction false} EncodeAppend(s: string, t: string)
    ensures Encode(s + t) == Encode(s) + Encode(t)
  {
    if s == [] {
      assert s + t == t;
    } else {
      assert (s + t)[1..] == s[1..] + t;
      EncodeAppend(s[1..], t);
    }
  }

  /** Round trip: decoding an encoded string gives it back. */
  lemma {:induction false} DecodeEncode(s: string)
    ensures Decode(Encode(s)) == Some(s)
  {
    if s != [] {
      var head := EncodeChar(s[0]);
      DecodeEncodeChar(s[0], Encode(s[1..]));
      assert (head + Encode(s[1..]))[|head|..] == Encode(s[1..]);
      DecodeEncode(s[1..]);
      assert [s[0]] + s[1..] == s;
    }
  }

  /** Only the NUL character encodes to a 0 byte: every other character's bytes are non-zero. */
  lemma {:induction false} EncodeHasNoZero(s: string)
    requires '\0' !in s
    ensures 0 !in Encode(s)
  {
    if s != [] {
      assert s[0] in s;
      EncodeHasNoZero(s[1..]);
    }
  }

  /** n NUL characters encode to n zero bytes. */
  lemma {:induction false} EncodeNuls(n: nat)
    ensures Encode(seq(n, _ => '\0')) == seq(n, _ => 0 as byte)
  {
    if n > 0 {
      var s := seq(n, _ => '\0');
      assert s[1..] == seq(n - 1, _ => '\0');
      EncodeNuls(n - 1);
      assert [0 as byte] + seq(n - 1, _ => 0 as byte) == seq(n, _ => 0 as byte);
    }
  }

  /** Splitting off the low six bits of q * 64 + r gives back q and r. */
  lemma DivMod64(q: int, r: int)
    requires 0 <= r < 64
    ensures (q * 64 + r) / 64 == q && (q * 64 + r) % 64 == r
  {
  }

  /** The two-byte form: a code point assembled from a lead and one continuation re-encodes to them. */
  lemma EncodeTwo(hi: int, x1: int)
    requires 0 <= x1 < 64 && 2 <= hi < 32
    ensures EncodeChar((hi * 64 + x1) as char) == [(0xC0 + hi) as byte, (0x80 + x1) as byte]
  {
    DivMod64(hi, x1);
  }

  /** The three-byte form, for a code point at or above U+0800 that is not a surrogate. */
  lemma EncodeThree(hi: int, x1: int, x2: int)
    requires 0 <= x1 < 64 && 0 <= x2 < 64 && 0 <= hi < 16
    requires var cp := (hi * 64 + x1) * 64 + x2; 0x800 <= cp && !(0xD800 <= cp < 0xE000)
    ensures EncodeChar(((hi * 64 + x1) * 64 + x2) as char)
      == [(0xE0 + hi) as byte, (0x80 + x1) as byte, (0x80 + x2) as byte]
  {
    var cp := (hi * 64 + x1) * 64 + x2;
    DivMod64(hi * 64 + x1, x2);
    DivMod64(hi, x1);
    assert cp / 4096 == (cp / 64) / 64;
  }

  /** The four-byte form, for a code point from U+10000 to U+10FFFF. */
  lemma EncodeFour(hi: int, x1: int, x2: int, x3: int)
    requires 0 <= x1 < 64 && 0 <= x2 < 64 && 0 <= x3 < 64 && 0 <= hi < 5
    requires var cp := ((hi * 64 + x1) * 64 + x2) * 64 + x3; 0x1_0000 <= cp < 0x11_0000
    ensures EncodeChar((((hi * 64 + x1) * 64 + x2) * 64 + x3) as char)
      == [(0xF0 + hi) as byte, (0x80 + x1) as byte, (0x80 + x2) as byte, (0x80 + x3) as byte]
  {
    var q2 := hi * 64 + x1;
    var q1 := q2 * 64 + x2;
    var cp := q1 * 64 + x3;
    DivMod64(q1, x3);
    DivMod64(q2, x2);
    DivMod64(hi, x1);
    assert cp / 4096 == (cp / 64) / 64;
    assert cp / 262144 == (cp / 4096) / 64;
  }

  /** Decoding is canonical: a well-formed first sequence is exactly its character's encoding. */
  lemma EncodeDecodeChar(b: seq<byte>)
    requires |b| > 0 && DecodeChar(b).Some?
    ensures EncodeChar(DecodeChar(b).value.0) == b[..DecodeChar(b).value.1]
  {
    var b0 := b[0] as int;
    if b0 < 0x80 {
    } else if b0 < 0xE0 {
      var x1 := b[1] as int - 0x80;
      EncodeTwo(b0 - 0xC0, x1);
      assert b[..2] == [b[0], b[1]];
    } else if b0 < 0xF0 {
      var x1, x2 := b[1] as int - 0x80, b[2] as int - 0x80;
      assert (b0 - 0xE0) * 4096 + x1 * 64 + x2 == ((b0 - 0xE0) * 64 + x1) * 64 + x2;
      EncodeThree(b0 - 0xE0, x1, x2);
      assert b[..3] == [b[0], b[1], b[2]];
    } else {
      var x1, x2, x3 := b[1] as int - 0x80, b[2] as int - 0x80, b[3] as int - 0x80;
      assert (b0 - 0xF0) * 262144 + x1 * 4096 + x2 * 64 + x3 == (((b0 - 0xF0) * 64 + x1) * 64 + x2) * 64 + x3;
      EncodeFour(b0 - 0xF0, x1, x2, x3);
      assert b[..4] == [b[0], b[1], b[2], b[3]];
    }
  }

  /** Decoding is canonical: whatever decodes re-encodes to the very same bytes. */
  lemma {:induction false} EncodeDecode(b: seq<byte>)
    requires Decode(b).Some?
    ensures Encode(Decode(b).value) == b
    decreases |b|
  {
    if b != [] {
      var c := DecodeChar(b).value.0;
      var n := DecodeChar(b).value.1;
      EncodeDecodeChar(b);
      EncodeDecode(b[n..]);
      var s := Decode(b).value;
      assert s == [c] + Decode(b[n..]).value;
      assert s[1..] == Decode(b[n..]).value;
      assert b == b[..n] + b[n..];
    }
  }
}
