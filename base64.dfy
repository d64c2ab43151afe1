/**
 * The Base64 encoding of section 4 of RFC 4648: the standard alphabet
 * A-Z, a-z, 0-9, '+', '/', with '=' padding to a multiple of four characters,
 * as Spring's `Base64Utils.encodeToString` produces it.
 */
module Base64 {
  import opened Wrappers
  import opened Utf8

  const PadChar: char := '='

  /** The character of the RFC 4648 table (section 4, Table 1) for the 6-bit value `i`. */
  function CharOf(i: int): (c: char)
    requires 0 <= i < 64
    ensures IsAlphabetChar(c)
  {
    if i < 26 then (('A' as int) + i) as char
    else if i < 52 then (('a' as int) + i - 26) as char
    else if i < 62 then (('0' as int) + i - 52) as char
    else if i == 62 then '+'
    else '/'
  }

  predicate IsAlphabetChar(c: char) {
    ('A' <= c <= 'Z') || ('a' <= c <= 'z') || ('0' <= c <= '9') || c == '+' || c == '/'
  }

  /** The 6-bit value a table character stands for; `None` for any other character. */
  function ValueOf(c: char): (r: Option<int>)
    ensures r.Some? <==> IsAlphabetChar(c)
    ensures r.Some? ==> 0 <= r.value < 64 && CharOf(r.value) == c
  {
    if 'A' <= c <= 'Z' then Some(c as int - 'A' as int)
    else if 'a' <= c <= 'z' then Some(c as int - 'a' as int + 26)
    else if '0' <= c <= '9' then Some(c as int - '0' as int + 52)
    else if c == '+' then Some(62)
    else if c == '/' then Some(63)
    else None
  }

  lemma ValueOfCharOf(i: int)
    requires 0 <= i < 64
    ensures ValueOf(CharOf(i)) == Some(i)
  {
  }

  /** Every character Base64 writes: a table character or the pad. */
  predicate IsEncodedChar(c: char) {
    IsAlphabetChar(c) || c == PadChar
  }

  /** The four characters Encode writes for a full three-byte group. */
  function Quad(x0: int, x1: int, x2: int): string
    requires 0 <= x0 < 256 && 0 <= x1 < 256 && 0 <= x2 < 256
  {
    [CharOf(x0 / 4), CharOf(x0 % 4 * 16 + x1 / 16), CharOf(x1 % 16 * 4 + x2 / 64), CharOf(x2 % 64)]
  }

  /** The four characters Encode writes for one final byte, and for two. */
  function Single(x0: int): string
    requires 0 <= x0 < 256
  {
    [CharOf(x0 / 4), CharOf(x0 % 4 * 16), PadChar, PadChar]
  }

  function Pair(x0: int, x1: int): string
    requires 0 <= x0 < 256 && 0 <= x1 < 256
  {
    [CharOf(x0 / 4), CharOf(x0 % 4 * 16 + x1 / 16), CharOf(x1 % 16 * 4), PadChar]
  }

  /** `encodeToString`: each group of three bytes becomes four table characters; a final group of one or two is padded. */
  function Encode(b: seq<byte>): (r: string)
    ensures 4 * |b| <= 3 * |r| <= 4 * |b| + 8
    ensures r == "" <==> b == []
  {
    if |b| == 0 then ""
    else if |b| == 1 then Single(b[0] as int)
    else if |b| == 2 then Pair(b[0] as int, b[1] as int)
    else Quad(b[0] as int, b[1] as int, b[2] as int) + Encode(b[3..])
  }

  /** The bytes of one four-character block whose values are `v0`..`v3`; `v2`/`v3` absent for padding. */
  function Block(v0: int, v1: int, v2: Option<int>, v3: Option<int>): seq<byte>
    requires 0 <= v0 < 64 && 0 <= v1 < 64
    requires v2.Some? ==> 0 <= v2.value < 64
    requires v3.Some? ==> 0 <= v3.value < 64 && v2.Some?
  {
    if v2.None? then [(v0 * 4 + v1 / 16) as byte]
    else if v3.None? then [(v0 * 4 + v1 / 16) as byte, (v1 % 16 * 16 + v2.value / 4) as byte]
    else [(v0 * 4 + v1 / 16) as byte, (v1 % 16 * 16 + v2.value / 4) as byte, (v2.value % 4 * 64 + v3.value) as byte]
  }

  /**
   * Decodes Base64 text as the basic decoder of `java.util.Base64` does, which
   * `Base64Utils.decodeFromString` uses: the final group may come with its
   * padding or, with two or three characters, without it. `None` when a
   * character is outside the table, a single character is left over, the
   * padding is wrong, or anything follows it.
   */
  function Decode(s: string): (r: Option<seq<byte>>)
    ensures r.Some? ==> 4 * |r.value| <= 3 * |s|
    ensures r.Some? && s != "" ==> |r.value| > 0
    decreases |s|
  {
    if |s| == 0 then Some([])
    else if |s| == 1 then None
    else if |s| < 4 then
      var v0, v1 := ValueOf(s[0]), ValueOf(s[1]);
      var v2 := if |s| == 3 then ValueOf(s[2]) else None;
      if v0.None? || v1.None? || (|s| == 3 && v2.None?) then None
      else Some(Block(v0.value, v1.value, v2, None))
    else
      var v0, v1 := ValueOf(s[0]), ValueOf(s[1]);
      var v2 := if s[2] == PadChar && s[3] == PadChar then Some(None) else if ValueOf(s[2]).Some? then Some(ValueOf(s[2])) else None;
      var v3 := if s[3] == PadChar then Some(None) else if ValueOf(s[3]).Some? then Some(ValueOf(s[3])) else None;
      if v0.None? || v1.None? || v2.None? || v3.None? || (v2.value.None? && v3.value.Some?) then None
      else if v3.value.None? then
        if |s| == 4 then Some(Block(v0.value, v1.value, v2.value, None)) else None
      else
        match Decode(s[4..])
        case None => None
        case Some(tail) => Some(Block(v0.value, v1.value, v2.value, v3.value) + tail)
  }

  lemma GroupArithmetic(x0: int, x1: int, x2: int)
    requires 0 <= x0 < 256 && 0 <= x1 < 256 && 0 <= x2 < 256
    ensures x0 / 4 * 4 + (x0 % 4 * 16 + x1 / 16) / 16 == x0
    ensures (x0 % 4 * 16 + x1 / 16) % 16 * 16 + (x1 % 16 * 4 + x2 / 64) / 4 == x1
    ensures (x1 % 16 * 4 + x2 / 64) % 4 * 64 + x2 % 64 == x2
  {
    assert (x0 % 4 * 16 + x1 / 16) / 16 == x0 % 4;
    assert (x0 % 4 * 16 + x1 / 16) % 16 == x1 / 16;
    assert (x1 % 16 * 4 + x2 / 64) / 4 == x1 % 16;
    assert (x1 % 16 * 4 + x2 / 64) % 4 == x2 / 64;
  }

  lemma DecodeQuad(y0: byte, y1: byte, y2: byte, tail: string)
    ensures Decode(Quad(y0 as int, y1 as int, y2 as int) + tail) ==
            match Decode(tail)
            case None => None
            case Some(t) => Some([y0, y1, y2] + t)
  {
    var x0, x1, x2 := y0 as int, y1 as int, y2 as int;
    var c0, c1, c2, c3 := x0 / 4, x0 % 4 * 16 + x1 / 16, x1 % 16 * 4 + x2 / 64, x2 % 64;
    var s := [CharOf(c0), CharOf(c1), CharOf(c2), CharOf(c3)] + tail;
    ValueOfCharOf(c0);
    ValueOfCharOf(c1);
    ValueOfCharOf(c2);
    ValueOfCharOf(c3);
    assert s[4..] == tail;
    DecodeFullGroup(s, c0, c1, c2, c3);
    QuadBlock(x0, x1, x2);
  }

  /** A full group of four table characters decodes to the block of their values in front of the rest. */
  lemma DecodeFullGroup(s: string, v0: int, v1: int, v2: int, v3: int)
    requires 0 <= v0 < 64 && 0 <= v1 < 64 && 0 <= v2 < 64 && 0 <= v3 < 64
    requires |s| >= 4 && ValueOf(s[0]) == Some(v0) && ValueOf(s[1]) == Some(v1)
    requires ValueOf(s[2]) == Some(v2) && ValueOf(s[3]) == Some(v3)
    ensures Decode(s) ==
            match Decode(s[4..])
            case None => None
            case Some(t) => Some(Block(v0, v1, Some(v2), Some(v3)) + t)
  {
  }

  /** The block of a group's four values is the group's three bytes. */
  lemma QuadBlock(x0: int, x1: int, x2: int)
    requires 0 <= x0 < 256 && 0 <= x1 < 256 && 0 <= x2 < 256
    ensures Block(x0 / 4, x0 % 4 * 16 + x1 / 16, Some(x1 % 16 * 4 + x2 / 64), Some(x2 % 64)) == [x0 as byte, x1 as byte, x2 as byte]
  {
    GroupArithmetic(x0, x1, x2);
  }

  lemma EncodeOne(y0: byte)
    ensures Encode([y0]) == Single(y0 as int)
  {
  }

  lemma EncodeTwo(y0: byte, y1: byte)
    ensures Encode([y0, y1]) == Pair(y0 as int, y1 as int)
  {
  }

  lemma DecodeSingle(y0: byte)
    ensures Decode(Single(y0 as int)) == Some([y0])
  {
    var x0 := y0 as int;
    GroupArithmetic(x0, 0, 0);
    ValueOfCharOf(x0 / 4);
    ValueOfCharOf(x0 % 4 * 16);
  }

  lemma DecodePair(y0: byte, y1: byte)
    ensures Decode(Pair(y0 as int, y1 as int)) == Some([y0, y1])
  {
    var x0, x1 := y0 as int, y1 as int;
    var c0, c1, c2 := x0 / 4, x0 % 4 * 16 + x1 / 16, x1 % 16 * 4;
    ValueOfCharOf(c0);
    ValueOfCharOf(c1);
    ValueOfCharOf(c2);
    DecodeOnePad([CharOf(c0), CharOf(c1), CharOf(c2), PadChar], c0, c1, c2);
    PairBlock(x0, x1);
  }

  /** A final group of three table characters and a pad decodes to the block of their values. */
  lemma DecodeOnePad(s: string, v0: int, v1: int, v2: int)
    requires 0 <= v0 < 64 && 0 <= v1 < 64 && 0 <= v2 < 64
    requires |s| == 4 && ValueOf(s[0]) == Some(v0) && ValueOf(s[1]) == Some(v1) && ValueOf(s[2]) == Some(v2)
    requires s[3] == PadChar
    ensures Decode(s) == Some(Block(v0, v1, Some(v2), None))
  {
  }

  /** The block of a pair's three values is the pair's two bytes. */
  lemma PairBlock(x0: int, x1: int)
    requires 0 <= x0 < 256 && 0 <= x1 < 256
    ensures Block(x0 / 4, x0 % 4 * 16 + x1 / 16, Some(x1 % 16 * 4), None) == [x0 as byte, x1 as byte]
  {
    GroupArithmetic(x0, x1, 0);
  }

  /** Encode writes a full group as its Quad in front of the rest. */
  lemma EncodeGroup(b: seq<byte>)
    requires |b| >= 3
    ensures Encode(b) == Quad(b[0] as int, b[1] as int, b[2] as int) + Encode(b[3..])
  {
  }

  lemma SplitGroup(b: seq<byte>)
    requires |b| >= 3
    ensures [b[0], b[1], b[2]] + b[3..] == b
  {
  }

  /** One full group in front of a tail that round-trips. */
  lemma DecodeEncodeGroup(b: seq<byte>)
    requires |b| >= 3 && Decode(Encode(b[3..])) == Some(b[3..])
    ensures Decode(Encode(b)) == Some(b)
  {
    EncodeGroup(b);
    DecodeQuad(b[0], b[1], b[2], Encode(b[3..]));
    SplitGroup(b);
  }

  /** Decoding undoes encoding, for every byte sequence. */
  lemma {:induction false} DecodeEncode(b: seq<byte>)
    ensures Decode(Encode(b)) == Some(b)
    decreases |b|
  {
    if |b| == 1 {
      assert b == [b[0]];
      EncodeOne(b[0]);
      DecodeSingle(b[0]);
    } else if |b| == 2 {
      assert b == [b[0], b[1]];
      EncodeTwo(b[0], b[1]);
      DecodePair(b[0], b[1]);
    } else if |b| >= 3 {
      DecodeEncode(b[3..]);
      DecodeEncodeGroup(b);
    }
  }

  /** Encoding writes four characters for every started group of three bytes. */
  lemma {:induction false} EncodeLength(b: seq<byte>)
    ensures |Encode(b)| == 4 * ((|b| + 2) / 3)
    decreases |b|
  {
    if |b| >= 3 {
      EncodeLength(b[3..]);
      assert (|b| + 2) / 3 == (|b[3..]| + 2) / 3 + 1;
    }
  }

  /** Base64 text consists of table characters and the pad only. */
  lemma {:induction false} EncodeAlphabet(b: seq<byte>)
    ensures forall i :: 0 <= i < |Encode(b)| ==> IsEncodedChar(Encode(b)[i])
    decreases |b|
  {
    if |b| >= 3 {
      EncodeAlphabet(b[3..]);
      var head := Quad(b[0] as int, b[1] as int, b[2] as int);
      assert Encode(b) == head + Encode(b[3..]);
      assert forall i :: 0 <= i < |head| ==> IsEncodedChar(head[i]);
    }
  }

  /** Base64 text never contains '{', so it can never be mistaken for a JSON object. */
  lemma EncodedHasNoBrace(b: seq<byte>)
    ensures forall i :: 0 <= i < |Encode(b)| ==> Encode(b)[i] != '{'
  {
    EncodeAlphabet(b);
  }

  /** The padding of the final group may be left out: `e30` and `e30=` both decode to the bytes of `{}`. */
  lemma UnpaddedFinalGroup()
    ensures Decode("e30") == Some([123, 125]) && Decode("e30=") == Some([123, 125])
    ensures Decode("e") == None && Decode("e3=") == None
  {
    assert ValueOf('e') == Some(30) && ValueOf('3') == Some(55) && ValueOf('0') == Some(52);
  }

  /** Past the first group, text decodes only when its remainder does. */
  lemma DecodeTailSome(s: string)
    requires |s| > 4 && Decode(s).Some?
    ensures Decode(s[4..]).Some?
  {
  }

  /** Past the first group, the decoding depends only on that group and the decoding of the remainder. */
  lemma SameGroupSameDecode(s: string, t: string)
    requires |s| > 4 && |t| > 4 && s[..4] == t[..4] && Decode(s[4..]) == Decode(t[4..])
    ensures Decode(s) == Decode(t)
  {
    assert s[0] == t[0] && s[1] == t[1] && s[2] == t[2] && s[3] == t[3];
  }

  /** Dropping a group of four keeps the length of the final group. */
  lemma DropGroupLength(n: int)
    requires n >= 4
    ensures (n - 4) % 4 == n % 4
  {
  }

  /** Text that decodes with an unpadded final group of three characters decodes the same with its one pad written. */
  lemma {:induction false} PadOneKeepsDecode(s: string)
    requires |s| % 4 == 3 && Decode(s).Some?
    ensures Decode(s + [PadChar]) == Decode(s)
    decreases |s|
  {
    var t := s + [PadChar];
    if |s| > 4 {
      assert t[..4] == s[..4] && t[4..] == s[4..] + [PadChar];
      DecodeTailSome(s);
      DropGroupLength(|s|);
      PadOneKeepsDecode(s[4..]);
      SameGroupSameDecode(s, t);
    }
  }

  /** Text that decodes with an unpadded final group of two characters decodes the same with its two pads written. */
  lemma {:induction false} PadTwoKeepsDecode(s: string)
    requires |s| % 4 == 2 && Decode(s).Some?
    ensures Decode(s + [PadChar, PadChar]) == Decode(s)
    decreases |s|
  {
    var t := s + [PadChar, PadChar];
    if |s| > 4 {
      assert t[..4] == s[..4] && t[4..] == s[4..] + [PadChar, PadChar];
      DecodeTailSome(s);
      DropGroupLength(|s|);
      PadTwoKeepsDecode(s[4..]);
      SameGroupSameDecode(s, t);
    }
  }
}
