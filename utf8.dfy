/**
 * UTF-8 (RFC 3629) as Java's `String.getBytes(UTF_8)` produces it. A Dafny
 * `char` is a Unicode scalar value, so no surrogate ever needs replacing.
 */
module Utf8 {
  import opened Wrappers

  newtype byte = x: int | 0 <= x < 256

  predicate IsContinuation(b: byte) {
    0x80 <= b < 0xC0
  }

  /** The one to four bytes that encode a single scalar value. */
  function EncodeChar(c: char): (r: seq<byte>)
    ensures 1 <= |r| <= 4
    ensures |r| == 1 <==> c as int < 0x80
    ensures r[0] < 0x80 || 0xC0 <= r[0] < 0xF8
    ensures forall i :: 1 <= i < |r| ==> IsContinuation(r[i])
  {
    var n := c as int;
    if n < 0x80 then
      [n as byte]
    else if n < 0x800 then
      [(0xC0 + n / 64) as byte, (0x80 + n % 64) as byte]
    else if n < 0x10000 then
      [(0xE0 + n / 4096) as byte, (0x80 + n / 64 % 64) as byte, (0x80 + n % 64) as byte]
    else
      [(0xF0 + n / 262144) as byte, (0x80 + n / 4096 % 64) as byte,
       (0x80 + n / 64 % 64) as byte, (0x80 + n % 64) as byte]
  }

  function Encode(s: string): (r: seq<byte>)
    ensures |s| <= |r| <= 4 * |s|
  {
    if s == [] then [] else EncodeChar(s[0]) + Encode(s[1..])
  }

  /** Accepts `n` as a scalar value decoded from a `len`-byte form whose shortest range starts at `least`. */
  function Scalar(n: int, least: int, len: nat): Option<(char, nat)> {
    if least <= n && (0 <= n < 0xD800 || 0xE000 <= n < 0x110000) then Some((n as char, len)) else None
  }

  /** Decodes the scalar value at the start of `b` and the number of bytes it takes; `None` for a malformed form. */
  function DecodeChar(b: seq<byte>): (r: Option<(char, nat)>)
    requires |b| > 0
    ensures r.Some? ==> 1 <= r.value.1 <= |b|
  {
    var b0 := b[0] as int;
    if b0 < 0x80 then
      Some((b0 as char, 1))
    else if 0xC0 <= b0 < 0xE0 && |b| >= 2 && IsContinuation(b[1]) then
      Scalar((b0 - 0xC0) * 64 + (b[1] as int - 0x80), 0x80, 2)
    else if 0xE0 <= b0 < 0xF0 && |b| >= 3 && IsContinuation(b[1]) && IsContinuation(b[2]) then
      Scalar((b0 - 0xE0) * 4096 + (b[1] as int - 0x80) * 64 + (b[2] as int - 0x80), 0x800, 3)
    else if 0xF0 <= b0 < 0xF8 && |b| >= 4 && IsContinuation(b[1]) && IsContinuation(b[2]) && IsContinuation(b[3]) then
      Scalar((b0 - 0xF0) * 262144 + (b[1] as int - 0x80) * 4096 + (b[2] as int - 0x80) * 64 + (b[3] as int - 0x80),
             0x10000, 4)
    else
      None
  }

  /** Decodes a whole byte sequence; `None` when some form in it is malformed. */
  function Decode(b: seq<byte>): (r: Option<string>)
    ensures r.Some? ==> |r.value| <= |b|
    decreases |b|
  {
    if b == [] then Some([])
    else match DecodeChar(b)
      case None => None
      case Some((c, k)) =>
        match Decode(b[k..])
        case None => None
        case Some(s) => Some([c] + s)
  }

  lemma Split64(n: int)
    requires 0 <= n
    ensures n == (n / 64) * 64 + n % 64 && 0 <= n % 64 < 64
  {
  }

  lemma Split4096(n: int)
    requires 0 <= n
    ensures n == (n / 4096) * 4096 + (n / 64 % 64) * 64 + n % 64
  {
    Split64(n);
    Split64(n / 64);
    assert n / 64 / 64 == n / 4096;
  }

  lemma Split262144(n: int)
    requires 0 <= n
    ensures n == (n / 262144) * 262144 + (n / 4096 % 64) * 4096 + (n / 64 % 64) * 64 + n % 64
  {
    Split4096(n);
    Split64(n / 4096);
    assert n / 4096 / 64 == n / 262144;
  }

  lemma DecodeEncodedChar(c: char, rest: seq<byte>)
    ensures DecodeChar(EncodeChar(c) + rest) == Some((c, |EncodeChar(c)|))
  {
    var n := c as int;
    var e := EncodeChar(c);
    var b := e + rest;
    if n < 0x80 {
      assert b[0] == e[0];
    } else if n < 0x800 {
      assert b[0] == e[0] && b[1] == e[1];
      Split64(n);
      assert (b[0] as int - 0xC0) * 64 + (b[1] as int - 0x80) == n;
    } else if n < 0x10000 {
      assert b[0] == e[0] && b[1] == e[1] && b[2] == e[2];
      Split4096(n);
      assert (b[0] as int - 0xE0) * 4096 + (b[1] as int - 0x80) * 64 + (b[2] as int - 0x80) == n;
    } else {
      assert b[0] == e[0] && b[1] == e[1] && b[2] == e[2] && b[3] == e[3];
      Split262144(n);
      assert (b[0] as int - 0xF0) * 262144 + (b[1] as int - 0x80) * 4096 + (b[2] as int - 0x80) * 64
             + (b[3] as int - 0x80) == n;
    }
  }

  /** Decoding undoes encoding: every string survives the round trip through UTF-8. */
  lemma {:induction false} DecodeEncode(s: string)
    ensures Decode(Encode(s)) == Some(s)
  {
    if s != [] {
      var e := EncodeChar(s[0]);
      DecodeEncodedChar(s[0], Encode(s[1..]));
      assert (e + Encode(s[1..]))[|e|..] == Encode(s[1..]);
      DecodeEncode(s[1..]);
      assert [s[0]] + s[1..] == s;
    }
  }

  lemma Compose64(q: int, r: int)
    requires 0 <= q && 0 <= r < 64
    ensures (q * 64 + r) / 64 == q && (q * 64 + r) % 64 == r
  {
  }

  lemma Compose4096(q: int, m: int, r: int)
    requires 0 <= q && 0 <= m < 64 && 0 <= r < 64
    ensures var n := q * 4096 + m * 64 + r; n / 4096 == q && n / 64 % 64 == m && n % 64 == r
  {
    var n := q * 4096 + m * 64 + r;
    assert n == (q * 64 + m) * 64 + r;
    Compose64(q * 64 + m, r);
    Compose64(q, m);
    assert n / 64 / 64 == n / 4096;
  }

  lemma Compose262144(q: int, h: int, m: int, r: int)
    requires 0 <= q && 0 <= h < 64 && 0 <= m < 64 && 0 <= r < 64
    ensures var n := q * 262144 + h * 4096 + m * 64 + r;
            n / 262144 == q && n / 4096 % 64 == h && n / 64 % 64 == m && n % 64 == r
  {
    var n := q * 262144 + h * 4096 + m * 64 + r;
    assert n == (q * 64 + h) * 4096 + m * 64 + r;
    Compose4096(q * 64 + h, m, r);
    Compose64(q, h);
    assert n / 4096 / 64 == n / 262144;
  }

  lemma DecodedTwoByteForm(b: seq<byte>, c: char, k: nat)
    requires |b| >= 2 && 0xC0 <= b[0] < 0xE0 && IsContinuation(b[1]) && DecodeChar(b) == Some((c, k))
    ensures k == 2 && b[..2] == EncodeChar(c)
  {
    Compose64(b[0] as int - 0xC0, b[1] as int - 0x80);
    assert b[..2] == [b[0], b[1]];
  }

  lemma DecodedThreeByteForm(b: seq<byte>, c: char, k: nat)
    requires |b| >= 3 && 0xE0 <= b[0] < 0xF0 && IsContinuation(b[1]) && IsContinuation(b[2])
    requires DecodeChar(b) == Some((c, k))
    ensures k == 3 && b[..3] == EncodeChar(c)
  {
    Compose4096(b[0] as int - 0xE0, b[1] as int - 0x80, b[2] as int - 0x80);
    assert b[..3] == [b[0], b[1], b[2]];
  }

  lemma DecodedFourByteForm(b: seq<byte>, c: char, k: nat)
    requires |b| >= 4 && 0xF0 <= b[0] < 0xF8 && IsContinuation(b[1]) && IsContinuation(b[2]) && IsContinuation(b[3])
    requires DecodeChar(b) == Some((c, k))
    ensures k == 4 && b[..4] == EncodeChar(c)
  {
    Compose262144(b[0] as int - 0xF0, b[1] as int - 0x80, b[2] as int - 0x80, b[3] as int - 0x80);
    assert b[..4] == [b[0], b[1], b[2], b[3]];
  }

  /** A form DecodeChar accepts is the one EncodeChar writes: overlong forms are rejected. */
  lemma DecodeCharIsEncodeChar(b: seq<byte>, c: char, k: nat)
    requires |b| > 0 && DecodeChar(b) == Some((c, k))
    ensures k <= |b| && b[..k] == EncodeChar(c)
  {
    var b0 := b[0] as int;
    if b0 < 0x80 {
      assert b[..1] == [b[0]];
    } else if 0xC0 <= b0 < 0xE0 {
      DecodedTwoByteForm(b, c, k);
    } else if 0xE0 <= b0 < 0xF0 {
      DecodedThreeByteForm(b, c, k);
    } else {
      DecodedFourByteForm(b, c, k);
    }
  }

  /** A successful decode of a non-empty sequence is its first scalar value in front of the decoded rest. */
  lemma DecodeStep(b: seq<byte>)
    requires b != [] && Decode(b).Some?
    ensures DecodeChar(b).Some?
    ensures var k := DecodeChar(b).value.1;
            Decode(b[k..]).Some? && Decode(b).value == [DecodeChar(b).value.0] + Decode(b[k..]).value
  {
  }

  lemma EncodeCons(c: char, rest: string)
    ensures Encode([c] + rest) == EncodeChar(c) + Encode(rest)
  {
    assert ([c] + rest)[1..] == rest;
  }

  lemma SplitAt(b: seq<byte>, k: nat)
    requires k <= |b|
    ensures b == b[..k] + b[k..]
  {
  }

  /** Decoding succeeds only on the encoding of what it returns. */
  lemma {:induction false} DecodeIsEncode(b: seq<byte>, s: string)
    requires Decode(b) == Some(s)
    ensures b == Encode(s)
    decreases |b|
  {
    if b != [] {
      DecodeStep(b);
      var (c, k) := DecodeChar(b).value;
      var rest := Decode(b[k..]).value;
      DecodeIsEncode(b[k..], rest);
      DecodeCharIsEncodeChar(b, c, k);
      EncodeCons(c, rest);
      SplitAt(b, k);
    }
  }

  /** Only the empty string encodes to no bytes. */
  lemma EncodeEmpty(s: string)
    ensures Encode(s) == [] <==> s == []
  {
  }

  /** Decoding fails only on sequences that encode no string at all. */
  lemma DecodeFailsOffEncodings(b: seq<byte>)
    requires Decode(b).None?
    ensures forall t :: b != Encode(t)
  {
    forall t
      ensures b != Encode(t)
    {
      DecodeEncode(t);
    }
  }

  /** Different strings have different encodings. */
  lemma EncodeInjective(s: string, t: string)
    requires Encode(s) == Encode(t)
    ensures s == t
  {
    DecodeEncode(s);
    DecodeEncode(t);
  }
}
