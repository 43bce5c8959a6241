/**
 * Standard base64 decoding as Go's `base64.StdEncoding.DecodeString` performs it
 * (section 4 of RFC 4648): padding with '=' is required, carriage returns and
 * line feeds anywhere in the input are skipped, and the unused low bits of the
 * last quantum are ignored (the encoding is not in strict mode).
 * `Encode` is the partner used to state the round trip.
 */
module Base64 {
  import opened Wrappers

  type Byte = x: int | 0 <= x < 256
  type Sextet = x: int | 0 <= x < 64

  /** The character of the standard alphabet that stands for `v`: A-Z, a-z, 0-9, '+', '/'. */
  function Digit(v: Sextet): char
  {
    if v < 26 then ('A' as int + v) as char
    else if v < 52 then ('a' as int + v - 26) as char
    else if v < 62 then ('0' as int + v - 52) as char
    else if v == 62 then '+'
    else '/'
  }

  /** The value of one alphabet character, or None for any other character. */
  function CharValue(c: char): (r: Option<Sextet>)
    ensures r.Some? ==> Digit(r.value) == c
  {
    if 'A' <= c <= 'Z' then Some(c as int - 'A' as int)
    else if 'a' <= c <= 'z' then Some(c as int - 'a' as int + 26)
    else if '0' <= c <= '9' then Some(c as int - '0' as int + 52)
    else if c == '+' then Some(62)
    else if c == '/' then Some(63)
    else None
  }

  lemma CharValueOfDigit(v: Sextet)
    ensures CharValue(Digit(v)) == Some(v)
  {
  }

  /** The input with every '\r' and '\n' removed; the decoder skips them. */
  function StripNewlines(s: string): (r: string)
    ensures |r| <= |s|
    ensures forall i :: 0 <= i < |r| ==> r[i] != '\n' && r[i] != '\r'
  {
    if s == [] then []
    else if s[0] == '\n' || s[0] == '\r' then StripNewlines(s[1..])
    else [s[0]] + StripNewlines(s[1..])
  }

  /** Bytes of one full quantum of four sextets. */
  function Bytes3(s0: Sextet, s1: Sextet, s2: Sextet, s3: Sextet): seq<Byte>
  {
    [s0 * 4 + s1 / 16, (s1 % 16) * 16 + s2 / 4, (s2 % 4) * 64 + s3]
  }

  /** Decodes the quanta of a newline-free input; '=' may only close the last one. */
  function DecodeQuanta(s: string): (r: Option<seq<Byte>>)
    requires |s| % 4 == 0
    decreases |s|
  {
    if s == [] then Some([])
    else
      var v0, v1, v2, v3 := CharValue(s[0]), CharValue(s[1]), CharValue(s[2]), CharValue(s[3]);
      if v0.None? || v1.None? then None
      else if |s| == 4 && s[2] == '=' && s[3] == '=' then
        Some([v0.value * 4 + v1.value / 16])
      else if v2.None? then None
      else if |s| == 4 && s[3] == '=' then
        Some([v0.value * 4 + v1.value / 16, (v1.value % 16) * 16 + v2.value / 4])
      else if v3.None? then None
      else
        match DecodeQuanta(s[4..])
        case None => None
        case Some(rest) => Some(Bytes3(v0.value, v1.value, v2.value, v3.value) + rest)
  }

  /** `base64.StdEncoding.DecodeString`: None is the decoder's error. */
  function Decode(s: string): Option<seq<Byte>>
  {
    var t := StripNewlines(s);
    if |t| % 4 != 0 then None else DecodeQuanta(t)
  }

  /** Standard padded base64 encoding, without line breaks. */
  function Encode(b: seq<Byte>): (r: string)
    ensures |r| % 4 == 0
    ensures forall i :: 0 <= i < |r| ==> CharValue(r[i]).Some? || r[i] == '='
  {
    if |b| == 0 then ""
    else if |b| == 1 then
      CharValueOfDigit(b[0] / 4);
      CharValueOfDigit((b[0] % 4) * 16);
      [Digit(b[0] / 4), Digit((b[0] % 4) * 16), '=', '=']
    else if |b| == 2 then
      CharValueOfDigit(b[0] / 4);
      CharValueOfDigit((b[0] % 4) * 16 + b[1] / 16);
      CharValueOfDigit((b[1] % 16) * 4);
      [Digit(b[0] / 4), Digit((b[0] % 4) * 16 + b[1] / 16), Digit((b[1] % 16) * 4), '=']
    else
      Quantum(b[0], b[1], b[2]) + Encode(b[3..])
  }

  /** The four characters that encode three bytes. */
  function Quantum(b0: Byte, b1: Byte, b2: Byte): (r: string)
    ensures |r| == 4
    ensures forall i :: 0 <= i < 4 ==> CharValue(r[i]).Some?
  {
    var s0, s1, s2, s3 := b0 / 4, (b0 % 4) * 16 + b1 / 16, (b1 % 16) * 4 + b2 / 64, b2 % 64;
    CharValueOfDigit(s0);
    CharValueOfDigit(s1);
    CharValueOfDigit(s2);
    CharValueOfDigit(s3);
    [Digit(s0), Digit(s1), Digit(s2), Digit(s3)]
  }

  lemma QuantumBytes(b0: Byte, b1: Byte, b2: Byte)
    ensures var q := Quantum(b0, b1, b2);
      Bytes3(CharValue(q[0]).value, CharValue(q[1]).value, CharValue(q[2]).value, CharValue(q[3]).value) == [b0, b1, b2]
  {
    var s0, s1, s2, s3 := b0 / 4, (b0 % 4) * 16 + b1 / 16, (b1 % 16) * 4 + b2 / 64, b2 % 64;
    CharValueOfDigit(s0);
    CharValueOfDigit(s1);
    CharValueOfDigit(s2);
    CharValueOfDigit(s3);
    assert s1 / 16 == b0 % 4 && s1 % 16 == b1 / 16;
    assert s2 / 4 == b1 % 16 && s2 % 4 == b2 / 64;
  }

  lemma {:induction false} StripNewlinesOfClean(s: string)
    requires forall i :: 0 <= i < |s| ==> s[i] != '\n' && s[i] != '\r'
    ensures StripNewlines(s) == s
  {
    if s != [] {
      StripNewlinesOfClean(s[1..]);
    }
  }

  lemma DecodeOneByte(b0: Byte)
    ensures DecodeQuanta(Encode([b0])) == Some([b0])
  {
    CharValueOfDigit(b0 / 4);
    CharValueOfDigit((b0 % 4) * 16);
  }

  lemma DecodeTwoBytes(b0: Byte, b1: Byte)
    ensures DecodeQuanta(Encode([b0, b1])) == Some([b0, b1])
  {
    var s0, s1, s2 := b0 / 4, (b0 % 4) * 16 + b1 / 16, (b1 % 16) * 4;
    CharValueOfDigit(s0);
    CharValueOfDigit(s1);
    CharValueOfDigit(s2);
    assert CharValue('=').None?;
    var e := Encode([b0, b1]);
    assert e == [Digit(s0), Digit(s1), Digit(s2), '='];
    assert e[2] != '=';
    assert s0 * 4 + s1 / 16 == b0;
    assert (s1 % 16) * 16 + s2 / 4 == b1;
  }

  /** A quantum of four alphabet characters decodes to its three bytes, followed by the rest's. */
  lemma DecodeQuantaStep(q: string, rest: string, t: seq<Byte>)
    requires |q| == 4 && |rest| % 4 == 0 && DecodeQuanta(rest) == Some(t)
    requires forall i :: 0 <= i < 4 ==> CharValue(q[i]).Some?
    ensures DecodeQuanta(q + rest) ==
      Some(Bytes3(CharValue(q[0]).value, CharValue(q[1]).value, CharValue(q[2]).value, CharValue(q[3]).value) + t)
  {
    var e := q + rest;
    assert CharValue('=').None?;
    assert e[0] == q[0] && e[1] == q[1] && e[2] == q[2] && e[3] == q[3];
    assert CharValue(e[2]).Some? && CharValue(e[3]).Some?;
    assert e[4..] == rest;
  }

  lemma SplitFirstThree(b: seq<Byte>)
    requires |b| >= 3
    ensures b == [b[0], b[1], b[2]] + b[3..]
  {
  }

  /** Three or more bytes: the first quantum decodes to the first three, given the rest round-trips. */
  lemma DecodeQuantaEncodeLong(b: seq<Byte>)
    requires |b| >= 3 && DecodeQuanta(Encode(b[3..])) == Some(b[3..])
    ensures DecodeQuanta(Encode(b)) == Some(b)
  {
    var q, rest := Quantum(b[0], b[1], b[2]), Encode(b[3..]);
    assert Encode(b) == q + rest;
    DecodeQuantaStep(q, rest, b[3..]);
    QuantumBytes(b[0], b[1], b[2]);
    SplitFirstThree(b);
  }

  lemma {:induction false} DecodeQuantaEncode(b: seq<Byte>)
    ensures DecodeQuanta(Encode(b)) == Some(b)
    decreases |b|
  {
    if |b| == 1 {
      DecodeOneByte(b[0]);
      assert b == [b[0]];
    } else if |b| == 2 {
      DecodeTwoBytes(b[0], b[1]);
      assert b == [b[0], b[1]];
    } else if |b| >= 3 {
      DecodeQuantaEncode(b[3..]);
      DecodeQuantaEncodeLong(b);
    }
  }

  /** Decoding what `Encode` produced gives the original bytes back. */
  lemma DecodeEncode(b: seq<Byte>)
    ensures Decode(Encode(b)) == Some(b)
  {
    var e := Encode(b);
    forall i | 0 <= i < |e| ensures e[i] != '\n' && e[i] != '\r' {
      assert CharValue(e[i]).Some? || e[i] == '=';
    }
    StripNewlinesOfClean(e);
    DecodeQuantaEncode(b);
  }

  /**
   * Content split over several lines, as GitHub serves a file, decodes like
   * the same content on one line.
   */
  lemma DecodeWrapped(s: string, b: seq<Byte>)
    requires StripNewlines(s) == Encode(b)
    ensures Decode(s) == Some(b)
  {
    DecodeQuantaEncode(b);
  }
}
