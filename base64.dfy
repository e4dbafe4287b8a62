/**
 * The standard base64 encoding of section 4 of RFC 4648 (alphabet `A-Z a-z 0-9 + /`,
 * padding `=`), as used by Go's `base64.StdEncoding.EncodeToString`.
 *
 * `Encode` is the encoder; `Decode` is an independent, strict decoder (it rejects
 * characters outside the alphabet, misplaced padding and non-zero padding bits).
 * The two are proved to be inverse: `Decode(s) == Some(b)` exactly when `s == Encode(b)`.
 */
module Base64 {
  import opened Wrappers

  /** An octet, Go's `byte`. */
  type byte = bv8

  /** The padding character `=`. */
  const Pad: byte := 61

  /** The alphabet of section 4 of RFC 4648: the character that stands for a 6-bit value. */
  function SextetChar(v: bv6): (c: byte)
    ensures c != Pad
  {
    if v < 26 then (v as byte) + 65        // 'A' .. 'Z'
    else if v < 52 then (v as byte) + 71   // 'a' .. 'z'
    else if v < 62 then (v as byte) - 4    // '0' .. '9'
    else if v == 62 then 43                // '+'
    else 47                                // '/'
  }

  /** The 6-bit value a character of the alphabet stands for; `None` for any other byte. */
  function CharSextet(c: byte): (r: Option<bv6>)
    ensures r.Some? ==> SextetChar(r.value) == c
  {
    if 65 <= c <= 90 then Some((c - 65) as bv6)
    else if 97 <= c <= 122 then Some((c - 71) as bv6)
    else if 48 <= c <= 57 then Some((c + 4) as bv6)
    else if c == 43 then Some(62)
    else if c == 47 then Some(63)
    else None
  }

  lemma SextetRoundTrip(v: bv6)
    ensures CharSextet(SextetChar(v)) == Some(v)
  {
  }

  /** Splits three octets into four sextets, most significant bits first. */
  function Split(b0: byte, b1: byte, b2: byte): (bv6, bv6, bv6, bv6) {
    ((b0 >> 2) as bv6,
     (((b0 & 3) << 4) | (b1 >> 4)) as bv6,
     (((b1 & 15) << 2) | (b2 >> 6)) as bv6,
     (b2 & 63) as bv6)
  }

  /** Joins four sextets into three octets; the inverse of `Split`. */
  function Join(s0: bv6, s1: bv6, s2: bv6, s3: bv6): (byte, byte, byte) {
    (((s0 as byte) << 2) | ((s1 as byte) >> 4),
     ((s1 as byte) << 4) | ((s2 as byte) >> 2),
     ((s2 as byte) << 6) | (s3 as byte))
  }

  lemma JoinSplit(b0: byte, b1: byte, b2: byte)
    ensures var (s0, s1, s2, s3) := Split(b0, b1, b2); Join(s0, s1, s2, s3) == (b0, b1, b2)
  {
  }

  lemma SplitJoin(s0: bv6, s1: bv6, s2: bv6, s3: bv6)
    ensures var (b0, b1, b2) := Join(s0, s1, s2, s3); Split(b0, b1, b2) == (s0, s1, s2, s3)
  {
  }

  /** Four characters for a complete group of three octets. */
  function EncodeGroup(b0: byte, b1: byte, b2: byte): (s: seq<byte>)
    ensures |s| == 4
  {
    var (s0, s1, s2, s3) := Split(b0, b1, b2);
    [SextetChar(s0), SextetChar(s1), SextetChar(s2), SextetChar(s3)]
  }

  /** A final group of one octet: two characters and two pads (the missing octets count as zero). */
  function EncodeOne(b0: byte): (s: seq<byte>)
    ensures |s| == 4
    ensures s[0] != Pad && s[1] != Pad && s[2] == Pad && s[3] == Pad
  {
    var (s0, s1, _, _) := Split(b0, 0, 0);
    [SextetChar(s0), SextetChar(s1), Pad, Pad]
  }

  /** A final group of two octets: three characters and one pad. */
  function EncodeTwo(b0: byte, b1: byte): (s: seq<byte>)
    ensures |s| == 4
    ensures s[0] != Pad && s[1] != Pad && s[2] != Pad && s[3] == Pad
  {
    var (s0, s1, s2, _) := Split(b0, b1, 0);
    [SextetChar(s0), SextetChar(s1), SextetChar(s2), Pad]
  }

  /** The padded standard base64 text of `b`. */
  function Encode(b: seq<byte>): (s: seq<byte>)
    ensures |s| == 4 * ((|b| + 2) / 3)
    decreases |b|
  {
    if |b| == 0 then []
    else if |b| == 1 then EncodeOne(b[0])
    else if |b| == 2 then EncodeTwo(b[0], b[1])
    else EncodeGroup(b[0], b[1], b[2]) + Encode(b[3..])
  }

  /** Four alphabet characters back to three octets. */
  function DecodeGroup(c0: byte, c1: byte, c2: byte, c3: byte): Option<seq<byte>> {
    match (CharSextet(c0), CharSextet(c1), CharSextet(c2), CharSextet(c3))
    case (Some(s0), Some(s1), Some(s2), Some(s3)) =>
      var (b0, b1, b2) := Join(s0, s1, s2, s3);
      Some([b0, b1, b2])
    case _ => None
  }

  /** The last group of the text, which may carry one or two pads. */
  function DecodeLast(c0: byte, c1: byte, c2: byte, c3: byte): Option<seq<byte>> {
    if c3 != Pad then DecodeGroup(c0, c1, c2, c3)
    else if c2 == Pad then
      match (CharSextet(c0), CharSextet(c1))
      case (Some(s0), Some(s1)) =>
        if s1 & 15 != 0 then None
        else var (b0, _, _) := Join(s0, s1, 0, 0); Some([b0])
      case _ => None
    else
      match (CharSextet(c0), CharSextet(c1), CharSextet(c2))
      case (Some(s0), Some(s1), Some(s2)) =>
        if s2 & 3 != 0 then None
        else var (b0, b1, _) := Join(s0, s1, s2, 0); Some([b0, b1])
      case _ => None
  }

  /** Strict decoder of padded standard base64; `None` for text that no octet string encodes to. */
  function Decode(s: seq<byte>): Option<seq<byte>>
    decreases |s|
  {
    if |s| == 0 then Some([])
    else if |s| < 4 then None
    else if |s| == 4 then DecodeLast(s[0], s[1], s[2], s[3])
    else
      match DecodeGroup(s[0], s[1], s[2], s[3])
      case None => None
      case Some(head) =>
        match Decode(s[4..])
        case None => None
        case Some(tail) => Some(head + tail)
  }

  lemma DecodeEncodeGroup(b0: byte, b1: byte, b2: byte)
    ensures var s := EncodeGroup(b0, b1, b2); DecodeGroup(s[0], s[1], s[2], s[3]) == Some([b0, b1, b2])
  {
    var (s0, s1, s2, s3) := Split(b0, b1, b2);
    SextetRoundTrip(s0); SextetRoundTrip(s1); SextetRoundTrip(s2); SextetRoundTrip(s3);
    JoinSplit(b0, b1, b2);
  }

  lemma DecodeEncodeOne(b0: byte)
    ensures var s := EncodeOne(b0); DecodeLast(s[0], s[1], s[2], s[3]) == Some([b0])
  {
    var (s0, s1, s2, s3) := Split(b0, 0, 0);
    assert s1 & 15 == 0;
    SextetRoundTrip(s0); SextetRoundTrip(s1);
    JoinSplit(b0, 0, 0);
  }

  lemma DecodeEncodeTwo(b0: byte, b1: byte)
    ensures var s := EncodeTwo(b0, b1); DecodeLast(s[0], s[1], s[2], s[3]) == Some([b0, b1])
  {
    var (s0, s1, s2, s3) := Split(b0, b1, 0);
    assert s3 == 0 && s2 & 3 == 0;
    SextetRoundTrip(s0); SextetRoundTrip(s1); SextetRoundTrip(s2);
    JoinSplit(b0, b1, 0);
  }

  lemma DecodeEncodeLast(b: seq<byte>)
    requires 1 <= |b| <= 3
    ensures var s := Encode(b); |s| == 4 && DecodeLast(s[0], s[1], s[2], s[3]) == Some(b)
  {
    if |b| == 1 {
      DecodeEncodeOne(b[0]);
      assert b == [b[0]];
    } else if |b| == 2 {
      DecodeEncodeTwo(b[0], b[1]);
      assert b == [b[0], b[1]];
    } else {
      var s := Encode(b);
      assert s == EncodeGroup(b[0], b[1], b[2]) + Encode(b[3..]);
      assert b[3..] == [];
      assert s == EncodeGroup(b[0], b[1], b[2]);
      DecodeEncodeGroup(b[0], b[1], b[2]);
      assert s[3] != Pad;
      assert b == [b[0], b[1], b[2]];
    }
  }

  /** Decoding undoes encoding. */
  lemma {:induction false} DecodeEncode(b: seq<byte>)
    ensures Decode(Encode(b)) == Some(b)
    decreases |b|
  {
    if 1 <= |b| <= 3 {
      DecodeEncodeLast(b);
    } else if |b| > 3 {
      var s := Encode(b);
      var head := EncodeGroup(b[0], b[1], b[2]);
      assert s == head + Encode(b[3..]);
      assert s[..4] == head && s[4..] == Encode(b[3..]);
      DecodeEncodeGroup(b[0], b[1], b[2]);
      DecodeEncode(b[3..]);
      assert b == [b[0], b[1], b[2]] + b[3..];
    }
  }

  lemma EncodeDecodeGroup(c0: byte, c1: byte, c2: byte, c3: byte)
    requires DecodeGroup(c0, c1, c2, c3).Some?
    ensures var b := DecodeGroup(c0, c1, c2, c3).value;
            |b| == 3 && EncodeGroup(b[0], b[1], b[2]) == [c0, c1, c2, c3]
  {
    var s0, s1, s2, s3 := CharSextet(c0).value, CharSextet(c1).value, CharSextet(c2).value, CharSextet(c3).value;
    SplitJoin(s0, s1, s2, s3);
  }

  lemma EncodeDecodeLast(c0: byte, c1: byte, c2: byte, c3: byte)
    requires DecodeLast(c0, c1, c2, c3).Some?
    ensures var b := DecodeLast(c0, c1, c2, c3).value;
            1 <= |b| <= 3 && Encode(b) == [c0, c1, c2, c3]
  {
    if c3 != Pad {
      EncodeDecodeGroup(c0, c1, c2, c3);
      var b := DecodeLast(c0, c1, c2, c3).value;
      assert Encode(b) == EncodeGroup(b[0], b[1], b[2]) + Encode([]);
    } else if c2 == Pad {
      var s0, s1 := CharSextet(c0).value, CharSextet(c1).value;
      SplitJoin(s0, s1, 0, 0);
    } else {
      var s0, s1, s2 := CharSextet(c0).value, CharSextet(c1).value, CharSextet(c2).value;
      SplitJoin(s0, s1, s2, 0);
    }
  }

  /** Every text the decoder accepts is the encoding of what it decodes to: encodings are canonical. */
  lemma {:induction false} EncodeDecode(s: seq<byte>)
    requires Decode(s).Some?
    ensures Encode(Decode(s).value) == s
    decreases |s|
  {
    if |s| == 4 {
      EncodeDecodeLast(s[0], s[1], s[2], s[3]);
    } else if |s| > 4 {
      var head := DecodeGroup(s[0], s[1], s[2], s[3]).value;
      EncodeDecodeGroup(s[0], s[1], s[2], s[3]);
      EncodeDecode(s[4..]);
      var tail := Decode(s[4..]).value;
      var b := head + tail;
      assert Encode(tail) == s[4..];
      assert tail != [];
      assert b[3..] == tail;
      assert Encode(b) == EncodeGroup(b[0], b[1], b[2]) + Encode(tail);
      assert s == s[..4] + s[4..];
    }
  }

  /** Both directions together: `Decode` accepts exactly the encodings, and inverts `Encode`. */
  lemma DecodeIffEncode(s: seq<byte>, b: seq<byte>)
    ensures Decode(s) == Some(b) <==> s == Encode(b)
  {
    if Decode(s) == Some(b) { EncodeDecode(s); }
    if s == Encode(b) { DecodeEncode(b); }
  }
}
