/**
 * The decoder returned by java.util.Base64.getDecoder(): the standard
 * alphabet of section 4 of RFC 4648 (with '+' and '/', not the URL-safe '-'
 * and '_' of section 5), padding with '=' accepted but not required, and
 * every other character refused. An unpadded encoder over the same alphabet
 * is its partner: decoding undoes encoding.
 */
module Base64 {
  import opened Wrappers

  type byte = x: int | 0 <= x < 256
  type sextet = x: int | 0 <= x < 64

  /** The character that stands for a 6-bit value. */
  function CharOf(v: sextet): char {
    if v < 26 then ('A' as int + v) as char
    else if v < 52 then ('a' as int + (v - 26)) as char
    else if v < 62 then ('0' as int + (v - 52)) as char
    else if v == 62 then '+'
    else '/'
  }

  /** The 6-bit value a character stands for, if it is in the alphabet. */
  function ValueOf(c: char): Option<sextet> {
    if 'A' <= c <= 'Z' then Some(c as int - 'A' as int)
    else if 'a' <= c <= 'z' then Some(c as int - 'a' as int + 26)
    else if '0' <= c <= '9' then Some(c as int - '0' as int + 52)
    else if c == '+' then Some(62)
    else if c == '/' then Some(63)
    else None
  }

  predicate InAlphabet(c: char) {
    ValueOf(c).Some?
  }

  lemma ValueOfCharOf(v: sextet)
    ensures ValueOf(CharOf(v)) == Some(v)
  {
  }

  /** Decodes four characters into three bytes, or the first two or three
      characters of a final unit into one or two bytes; bits beyond the last
      whole byte are ignored, as Java does. */
  function Byte0(c0: char, c1: char): byte
    requires InAlphabet(c0) && InAlphabet(c1)
  {
    ValueOf(c0).value * 4 + ValueOf(c1).value / 16
  }

  function Byte1(c1: char, c2: char): byte
    requires InAlphabet(c1) && InAlphabet(c2)
  {
    (ValueOf(c1).value % 16) * 16 + ValueOf(c2).value / 4
  }

  function Byte2(c2: char, c3: char): byte
    requires InAlphabet(c2) && InAlphabet(c3)
  {
    (ValueOf(c2).value % 4) * 64 + ValueOf(c3).value
  }

  /** Base64.Decoder.decode(String). None is the IllegalArgumentException the
      decoder throws: a character outside the alphabet, a final unit of one
      character, "xx=" without its second '=', '=' at the start of a unit, or
      anything after the padding. */
  function Decode(s: string): (r: Option<seq<byte>>)
    ensures r.Some? ==> |s| % 4 != 1
    ensures r.Some? && '=' !in s ==> 4 * |r.value| <= 3 * |s| < 4 * |r.value| + 4
    decreases |s|
  {
    if |s| == 0 then Some([])
    else if |s| >= 4 && InAlphabet(s[0]) && InAlphabet(s[1]) && InAlphabet(s[2]) && InAlphabet(s[3]) then
      match Decode(s[4..])
      case None => None
      case Some(rest) => Some([Byte0(s[0], s[1]), Byte1(s[1], s[2]), Byte2(s[2], s[3])] + rest)
    else if |s| == 2 || (|s| == 4 && s[2] == '=' && s[3] == '=') then
      if InAlphabet(s[0]) && InAlphabet(s[1]) then Some([Byte0(s[0], s[1])]) else None
    else if |s| == 3 || (|s| == 4 && s[3] == '=') then
      if InAlphabet(s[0]) && InAlphabet(s[1]) && InAlphabet(s[2]) then
        Some([Byte0(s[0], s[1]), Byte1(s[1], s[2])])
      else None
    else None
  }

  /** Standard-alphabet encoding without padding, the form the segments of a
      compact JSON Web Signature (section 7.1 of RFC 7515) take. */
  function Encode(b: seq<byte>): string
    decreases |b|
  {
    if |b| == 0 then ""
    else if |b| == 1 then [CharOf(b[0] / 4), CharOf((b[0] % 4) * 16)]
    else if |b| == 2 then
      [CharOf(b[0] / 4), CharOf((b[0] % 4) * 16 + b[1] / 16), CharOf((b[1] % 16) * 4)]
    else EncodeUnit(b[0], b[1], b[2]) + Encode(b[3..])
  }

  lemma {:induction false} EncodedCharsInAlphabet(b: seq<byte>)
    ensures forall i :: 0 <= i < |Encode(b)| ==> InAlphabet(Encode(b)[i])
    decreases |b|
  {
    if |b| >= 3 {
      EncodedCharsInAlphabet(b[3..]);
      var s := Encode(b);
      forall i | 4 <= i < |s| ensures InAlphabet(s[i]) {
        assert s[i] == Encode(b[3..])[i - 4];
      }
    }
  }

  /** The bit arithmetic of one unit: splitting bytes into sextets and joining
      them again gives the bytes back. */
  lemma UnitRoundTrip(b0: byte, b1: byte, b2: byte)
    ensures Byte0(CharOf(b0 / 4), CharOf((b0 % 4) * 16 + b1 / 16)) == b0
    ensures Byte1(CharOf((b0 % 4) * 16 + b1 / 16), CharOf((b1 % 16) * 4 + b2 / 64)) == b1
    ensures Byte2(CharOf((b1 % 16) * 4 + b2 / 64), CharOf(b2 % 64)) == b2
  {
    ValueOfCharOf(b0 / 4);
    ValueOfCharOf((b0 % 4) * 16 + b1 / 16);
    ValueOfCharOf((b1 % 16) * 4 + b2 / 64);
    ValueOfCharOf(b2 % 64);
  }

  lemma DecodeEncodeOne(b0: byte)
    ensures Decode(Encode([b0])) == Some([b0])
  {
    var s := Encode([b0]);
    UnitRoundTrip(b0, 0, 0);
    ValueOfCharOf(b0 / 4);
    ValueOfCharOf((b0 % 4) * 16);
    assert |s| == 2 && InAlphabet(s[0]) && InAlphabet(s[1]);
  }

  lemma DecodeEncodeTwo(b0: byte, b1: byte)
    ensures Decode(Encode([b0, b1])) == Some([b0, b1])
  {
    var s := Encode([b0, b1]);
    UnitRoundTrip(b0, b1, 0);
    ValueOfCharOf(b0 / 4);
    ValueOfCharOf((b0 % 4) * 16 + b1 / 16);
    ValueOfCharOf((b1 % 16) * 4);
    assert |s| == 3 && InAlphabet(s[0]) && InAlphabet(s[1]) && InAlphabet(s[2]);
  }

  /** The four characters Encode writes for three bytes. */
  function EncodeUnit(b0: byte, b1: byte, b2: byte): string {
    [CharOf(b0 / 4), CharOf((b0 % 4) * 16 + b1 / 16), CharOf((b1 % 16) * 4 + b2 / 64), CharOf(b2 % 64)]
  }

  /** A whole unit in front of any text decodes to its three bytes in front of
      whatever that text decodes to. */
  lemma DecodeUnit(b0: byte, b1: byte, b2: byte, rest: string)
    ensures Decode(EncodeUnit(b0, b1, b2) + rest) ==
              match Decode(rest)
              case None => None
              case Some(r) => Some([b0, b1, b2] + r)
  {
    var u := EncodeUnit(b0, b1, b2);
    var s := u + rest;
    UnitRoundTrip(b0, b1, b2);
    ValueOfCharOf(b0 / 4);
    ValueOfCharOf((b0 % 4) * 16 + b1 / 16);
    ValueOfCharOf((b1 % 16) * 4 + b2 / 64);
    ValueOfCharOf(b2 % 64);
    assert s[0] == u[0] && s[1] == u[1] && s[2] == u[2] && s[3] == u[3];
    assert InAlphabet(s[0]) && InAlphabet(s[1]) && InAlphabet(s[2]) && InAlphabet(s[3]);
    assert s[4..] == rest;
  }

  /** Decoding undoes encoding. */
  lemma {:induction false} DecodeEncode(b: seq<byte>)
    ensures Decode(Encode(b)) == Some(b)
    decreases |b|
  {
    if |b| == 1 {
      DecodeEncodeOne(b[0]);
      assert [b[0]] == b;
    } else if |b| == 2 {
      DecodeEncodeTwo(b[0], b[1]);
      assert [b[0], b[1]] == b;
    } else if |b| >= 3 {
      DecodeEncode(b[3..]);
      DecodeUnit(b[0], b[1], b[2], Encode(b[3..]));
      assert [b[0], b[1], b[2]] + b[3..] == b;
    }
  }

  /** A character outside the alphabet, other than the padding '=', anywhere
      in the text makes the decoder refuse it. */
  lemma {:induction false} DecodeRefusesForeignChar(s: string, i: nat)
    requires i < |s| && !InAlphabet(s[i]) && s[i] != '='
    ensures Decode(s) == None
    decreases |s|
  {
    if |s| >= 4 && InAlphabet(s[0]) && InAlphabet(s[1]) && InAlphabet(s[2]) && InAlphabet(s[3]) {
      assert s[4..][i - 4] == s[i];
      DecodeRefusesForeignChar(s[4..], i - 4);
    }
  }

  /** A base64url text holding '-' or '_' is refused by the standard decoder. */
  lemma DecodeRefusesUrlSafe(s: string)
    requires '-' in s || '_' in s
    ensures Decode(s) == None
  {
    var i :| 0 <= i < |s| && (s[i] == '-' || s[i] == '_');
    DecodeRefusesForeignChar(s, i);
  }
}
