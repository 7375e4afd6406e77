/**
 * The basic Base64 encoding of section 4 of RFC 4648 (alphabet of Table 1,
 * `=` padding, no line breaks), which `java.util.Base64.getEncoder()` implements,
 * together with its decoder.
 */
module Base64 {

  type Byte = x: int | 0 <= x < 256

  /** Table 1 of RFC 4648: the character that encodes a 6-bit value. */
  function Sextet(v: int): (c: char)
    requires 0 <= v < 64
    ensures c != '='
  {
    if v < 26 then ('A' as int + v) as char
    else if v < 52 then ('a' as int + (v - 26)) as char
    else if v < 62 then ('0' as int + (v - 52)) as char
    else if v == 62 then '+'
    else '/'
  }

  predicate IsAlphabetChar(c: char) {
    'A' <= c <= 'Z' || 'a' <= c <= 'z' || '0' <= c <= '9' || c == '+' || c == '/'
  }

  /** The 6-bit value of an alphabet character (0 for anything else, such as the pad). */
  function SextetValue(c: char): (v: int)
    ensures 0 <= v < 64
  {
    if 'A' <= c <= 'Z' then c as int - 'A' as int
    else if 'a' <= c <= 'z' then c as int - 'a' as int + 26
    else if '0' <= c <= '9' then c as int - '0' as int + 52
    else if c == '+' then 62
    else if c == '/' then 63
    else 0
  }

  lemma SextetRoundTrip(v: int)
    requires 0 <= v < 64
    ensures IsAlphabetChar(Sextet(v)) && SextetValue(Sextet(v)) == v
  {
  }

  /** Every output character is an alphabet character or the pad `=`. */
  predicate IsEncodedText(s: string) {
    forall i :: 0 <= i < |s| ==> IsAlphabetChar(s[i]) || s[i] == '='
  }

  /** One 24-bit group (RFC 4648 section 4); fewer than three bytes are padded with `=`. */
  function EncodeGroup(b: seq<Byte>): (q: string)
    requires 1 <= |b| <= 3
    ensures |q| == 4 && IsEncodedText(q)
  {
    SextetRoundTrip(b[0] / 4);
    if |b| == 1 then
      SextetRoundTrip((b[0] % 4) * 16);
      [Sextet(b[0] / 4), Sextet((b[0] % 4) * 16), '=', '=']
    else if |b| == 2 then
      SextetRoundTrip((b[0] % 4) * 16 + b[1] / 16);
      SextetRoundTrip((b[1] % 16) * 4);
      [Sextet(b[0] / 4), Sextet((b[0] % 4) * 16 + b[1] / 16), Sextet((b[1] % 16) * 4), '=']
    else
      SextetRoundTrip((b[0] % 4) * 16 + b[1] / 16);
      SextetRoundTrip((b[1] % 16) * 4 + b[2] / 64);
      SextetRoundTrip(b[2] % 64);
      [Sextet(b[0] / 4), Sextet((b[0] % 4) * 16 + b[1] / 16),
       Sextet((b[1] % 16) * 4 + b[2] / 64), Sextet(b[2] % 64)]
  }

  /** `Base64.getEncoder().encode(b)`: the text is 4 * ceil(n / 3) characters long. */
  function Encode(b: seq<Byte>): (s: string)
    ensures |s| == 4 * ((|b| + 2) / 3)
    ensures IsEncodedText(s)
    decreases |b|
  {
    if |b| == 0 then []
    else if |b| <= 3 then EncodeGroup(b)
    else
      var head, tail := EncodeGroup(b[..3]), Encode(b[3..]);
      assert (|b| + 2) / 3 == (|b| - 1) / 3 + 1;
      EncodedConcat(head, tail);
      head + tail
  }

  lemma EncodedConcat(a: string, b: string)
    requires IsEncodedText(a) && IsEncodedText(b)
    ensures IsEncodedText(a + b)
  {
    forall i | 0 <= i < |a + b|
      ensures IsAlphabetChar((a + b)[i]) || (a + b)[i] == '='
    {
      if i >= |a| {
        assert (a + b)[i] == b[i - |a|];
      }
    }
  }

  /** The bytes of one four-character group; a pad in the third or fourth place shortens it. */
  function DecodeGroup(q: string): (b: seq<Byte>)
    requires |q| == 4
    ensures 1 <= |b| <= 3
  {
    var c0, c1, c2, c3 := SextetValue(q[0]), SextetValue(q[1]), SextetValue(q[2]), SextetValue(q[3]);
    var b0: Byte := c0 * 4 + c1 / 16;
    var b1: Byte := (c1 % 16) * 16 + c2 / 4;
    var b2: Byte := (c2 % 4) * 64 + c3;
    if q[2] == '=' then [b0]
    else if q[3] == '=' then [b0, b1]
    else [b0, b1, b2]
  }

  /** The decoder of RFC 4648 section 4, group by group; a remainder shorter than a group is dropped. */
  function Decode(s: string): seq<Byte>
    decreases |s|
  {
    if |s| < 4 then [] else DecodeGroup(s[..4]) + Decode(s[4..])
  }

  lemma GroupRoundTrip(b: seq<Byte>)
    requires 1 <= |b| <= 3
    ensures DecodeGroup(EncodeGroup(b)) == b
  {
    if |b| == 1 {
      OneByteRoundTrip(b[0]);
      assert b == [b[0]];
    } else if |b| == 2 {
      TwoBytesRoundTrip(b[0], b[1]);
      assert b == [b[0], b[1]];
    } else {
      ThreeBytesRoundTrip(b[0], b[1], b[2]);
      assert b == [b[0], b[1], b[2]];
    }
  }

  lemma OneByteRoundTrip(x: Byte)
    ensures DecodeGroup(EncodeGroup([x])) == [x]
  {
    SextetRoundTrip(x / 4);
    SextetRoundTrip((x % 4) * 16);
  }

  lemma TwoBytesRoundTrip(x: Byte, y: Byte)
    ensures DecodeGroup(EncodeGroup([x, y])) == [x, y]
  {
    SextetRoundTrip(x / 4);
    SextetRoundTrip((x % 4) * 16 + y / 16);
    SextetRoundTrip((y % 16) * 4);
  }

  lemma ThreeBytesRoundTrip(x: Byte, y: Byte, z: Byte)
    ensures DecodeGroup(EncodeGroup([x, y, z])) == [x, y, z]
  {
    var c0, c1, c2, c3 := x / 4, (x % 4) * 16 + y / 16, (y % 16) * 4 + z / 64, z % 64;
    var q := EncodeGroup([x, y, z]);
    assert q == [Sextet(c0), Sextet(c1), Sextet(c2), Sextet(c3)];
    DecodeSextets(c0, c1, c2, c3);
    RegroupBits(x, y, z);
    var e := DecodeGroup(q);
    assert |e| == 3 && e[0] == x && e[1] == y && e[2] == z;
  }

  /** A group of four alphabet characters decodes to the three bytes their 6-bit values spell. */
  lemma DecodeSextets(c0: int, c1: int, c2: int, c3: int)
    requires 0 <= c0 < 64 && 0 <= c1 < 64 && 0 <= c2 < 64 && 0 <= c3 < 64
    ensures DecodeGroup([Sextet(c0), Sextet(c1), Sextet(c2), Sextet(c3)])
      == [c0 * 4 + c1 / 16, (c1 % 16) * 16 + c2 / 4, (c2 % 4) * 64 + c3]
  {
    SextetRoundTrip(c0);
    SextetRoundTrip(c1);
    SextetRoundTrip(c2);
    SextetRoundTrip(c3);
  }

  /** The three bytes are recovered from their four 6-bit pieces. */
  lemma RegroupBits(x: Byte, y: Byte, z: Byte)
    ensures var c0, c1, c2, c3 := x / 4, (x % 4) * 16 + y / 16, (y % 16) * 4 + z / 64, z % 64;
      && c0 * 4 + c1 / 16 == x
      && (c1 % 16) * 16 + c2 / 4 == y
      && (c2 % 4) * 64 + c3 == z
  {
    var c1, c2 := (x % 4) * 16 + y / 16, (y % 16) * 4 + z / 64;
    assert c1 / 16 == x % 4 && c1 % 16 == y / 16;
    assert c2 / 4 == y % 16 && c2 % 4 == z / 64;
  }

  /** Decoding the encoder's output gives back the encoded bytes. */
  lemma {:induction false} DecodeEncode(b: seq<Byte>)
    ensures Decode(Encode(b)) == b
    decreases |b|
  {
    if |b| == 0 {
    } else if |b| <= 3 {
      var s := Encode(b);
      GroupRoundTrip(b);
      assert s[..4] == s && s[4..] == [];
    } else {
      var s := Encode(b);
      GroupRoundTrip(b[..3]);
      DecodeEncode(b[3..]);
      assert s[..4] == EncodeGroup(b[..3]);
      assert s[4..] == Encode(b[3..]);
      assert b[..3] + b[3..] == b;
    }
  }

  /** Encoding is one-to-one, so the signature determines the signed bytes. */
  lemma EncodeInjective(a: seq<Byte>, b: seq<Byte>)
    requires Encode(a) == Encode(b)
    ensures a == b
  {
    DecodeEncode(a);
    DecodeEncode(b);
  }

  /** Worked vectors from section 10 of RFC 4648: "fo" is "Zm8=". */
  lemma TwoByteVector()
    ensures Encode([0x66, 0x6f]) == "Zm8="
  {
    assert Encode([0x66, 0x6f]) == EncodeGroup([0x66, 0x6f]);
    assert Sextet(25) == 'Z' && Sextet(38) == 'm' && Sextet(60) == '8';
  }

  /** "foob" is "Zm9vYg==": one whole group, then a group with two pads. */
  lemma FourByteVector()
    ensures Encode([0x66, 0x6f, 0x6f, 0x62]) == "Zm9vYg=="
  {
    var b: seq<Byte> := [0x66, 0x6f, 0x6f, 0x62];
    assert b[..3] == [0x66, 0x6f, 0x6f] && b[3..] == [0x62];
    assert Sextet(25) == 'Z' && Sextet(38) == 'm' && Sextet(61) == '9' && Sextet(47) == 'v';
    assert EncodeGroup(b[..3]) == "Zm9v";
    assert Sextet(24) == 'Y' && Sextet(32) == 'g';
    assert Encode(b[3..]) == "Yg==";
  }
}
