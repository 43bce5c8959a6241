/**
 * `strconv.FormatInt(n, 10)`: the base-10 rendering of a repository ID, which
 * becomes a project's RemoteProjectID. `Parse` reads such a rendering back; the
 * round trip shows that distinct IDs give distinct RemoteProjectIDs.
 */
module Decimal {
  import opened Wrappers

  function DigitChar(d: nat): (c: char)
    requires d < 10
    ensures '0' <= c <= '9'
  {
    ('0' as int + d) as char
  }

  /** Digits of a natural number, most significant first, with no leading zero. */
  function NatDigits(n: nat): (r: string)
    ensures |r| > 0
    ensures forall i :: 0 <= i < |r| ==> '0' <= r[i] <= '9'
    ensures n > 0 ==> r[0] != '0'
  {
    if n < 10 then [DigitChar(n)] else NatDigits(n / 10) + [DigitChar(n % 10)]
  }

  /** `strconv.FormatInt(n, 10)`: a '-' sign for negative numbers, then the digits. */
  function Format(n: int): (r: string)
    ensures |r| > 0
    ensures r[0] == '-' <==> n < 0
  {
    if n < 0 then "-" + NatDigits(-n) else NatDigits(n)
  }

  /** The value of a non-empty string of decimal digits. */
  function ParseNat(s: string): (r: Option<nat>)
    decreases |s|
  {
    if s == [] || !('0' <= s[|s| - 1] <= '9') then None
    else
      var d := s[|s| - 1] as int - '0' as int;
      if |s| == 1 then Some(d)
      else match ParseNat(s[..|s| - 1])
        case None => None
        case Some(m) => Some(m * 10 + d)
  }

  /** Reads back a rendering of `Format`: an optional '-' followed by digits. */
  function Parse(s: string): Option<int>
  {
    if |s| > 0 && s[0] == '-' then
      match ParseNat(s[1..])
      case None => None
      case Some(m) => Some(-(m as int))
    else
      match ParseNat(s)
      case None => None
      case Some(m) => Some(m as int)
  }

  lemma {:induction false} ParseNatDigits(n: nat)
    ensures ParseNat(NatDigits(n)) == Some(n)
  {
    if n >= 10 {
      var s := NatDigits(n);
      assert s[..|s| - 1] == NatDigits(n / 10);
      ParseNatDigits(n / 10);
    }
  }

  lemma ParseSigned(m: nat)
    ensures Parse("-" + NatDigits(m)) == Some(-(m as int))
  {
    var s := "-" + NatDigits(m);
    assert s[1..] == NatDigits(m);
    ParseNatDigits(m);
    assert ParseNat(s[1..]) == Some(m);
  }

  lemma ParseUnsigned(m: nat)
    ensures Parse(NatDigits(m)) == Some(m as int)
  {
    var s := NatDigits(m);
    assert s[0] != '-';
    ParseNatDigits(m);
  }

  /** Parsing a rendering gives the number back. */
  lemma ParseFormat(n: int)
    ensures Parse(Format(n)) == Some(n)
  {
    if n < 0 {
      var m: nat := -n;
      assert Format(n) == "-" + NatDigits(m);
      ParseSigned(m);
    } else {
      assert Format(n) == NatDigits(n);
      ParseUnsigned(n);
    }
  }

  /** Distinct repository IDs have distinct renderings. */
  lemma FormatInjective(m: int, n: int)
    ensures Format(m) == Format(n) <==> m == n
  {
    if Format(m) == Format(n) {
      ParseFormat(m);
      ParseFormat(n);
    }
  }
}
