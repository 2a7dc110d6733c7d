/** User and message identifiers cross between two representations in the hub:
    claims, registry values and message payloads carry them as strings, the
    messages and users tables as 32-bit integers. `int.Parse` turns the first
    into the second, `Int32.ToString()` the second into the first. */
module Ids {
  import opened Common

  const Int32Min: int := -0x8000_0000
  const Int32Max: int := 0x7FFF_FFFF

  predicate InInt32(n: int)
  {
    Int32Min <= n <= Int32Max
  }

  /** The white space `int.Parse` skips around the number (U+0009 to U+000D and the space). */
  predicate IsWhite(c: char)
  {
    c == ' ' || '\t' <= c <= '\r'
  }

  predicate IsDigit(c: char)
  {
    '0' <= c <= '9'
  }

  predicate AllDigits(s: string)
  {
    forall i | 0 <= i < |s| :: IsDigit(s[i])
  }

  function TrimStart(s: string): string
  {
    if |s| > 0 && IsWhite(s[0]) then TrimStart(s[1..]) else s
  }

  function TrimEnd(s: string): string
  {
    if |s| > 0 && IsWhite(s[|s| - 1]) then TrimEnd(s[..|s| - 1]) else s
  }

  function DigitValue(c: char): nat
    requires IsDigit(c)
  {
    c as int - '0' as int
  }

  function Digit(d: nat): char
    requires d < 10
  {
    ('0' as int + d) as char
  }

  /** The value of a run of decimal digits, most significant first. */
  function DigitsValue(s: string): nat
    requires AllDigits(s)
  {
    if s == [] then 0 else DigitsValue(s[..|s| - 1]) * 10 + DigitValue(s[|s| - 1])
  }

  /** `int.Parse(s)` with the invariant culture: optional white space, an optional
      sign, at least one digit, optional white space; a value outside the 32-bit
      range throws, as does any other text. */
  function ParseInt32(s: string): (r: Option<int>)
    ensures r.Some? ==> InInt32(r.value)
  {
    var t := TrimEnd(TrimStart(s));
    var signed := |t| > 0 && (t[0] == '-' || t[0] == '+');
    var digits := if signed then t[1..] else t;
    if |digits| == 0 || !AllDigits(digits) then None
    else
      var magnitude: int := DigitsValue(digits);
      var v := if signed && t[0] == '-' then -magnitude else magnitude;
      if InInt32(v) then Some(v) else None
  }

  /** Decimal digits of `n` without leading zeros. */
  function FormatNat(n: nat): (s: string)
    ensures |s| > 0 && AllDigits(s)
    ensures s[0] == '0' <==> n == 0
  {
    if n < 10 then [Digit(n)] else FormatNat(n / 10) + [Digit(n % 10)]
  }

  /** `n.ToString()` for an integer: a minus sign for negative values, then the digits. */
  function FormatInt(n: int): (s: string)
    ensures |s| > 0
    ensures n < 0 <==> s[0] == '-'
    ensures n >= 0 ==> AllDigits(s)
    ensures n < 0 ==> |s| > 1 && AllDigits(s[1..])
    ensures n != 0 ==> s[if n < 0 then 1 else 0] != '0'
  {
    if n < 0 then "-" + FormatNat(-n) else FormatNat(n)
  }

  lemma {:induction false} FormatNatValue(n: nat)
    ensures DigitsValue(FormatNat(n)) == n
  {
    if n >= 10 {
      var s := FormatNat(n);
      assert s[..|s| - 1] == FormatNat(n / 10);
      FormatNatValue(n / 10);
    }
  }

  lemma TrimNothing(s: string)
    requires |s| > 0 && !IsWhite(s[0]) && !IsWhite(s[|s| - 1])
    ensures TrimEnd(TrimStart(s)) == s
  {
  }

  /** Formatting an identifier and parsing it back gives the identifier again: the
      string id the roster and the read receipt compare against the registry names
      the same user as the integer in the table. */
  lemma ParseFormatRoundTrip(n: int)
    requires InInt32(n)
    ensures ParseInt32(FormatInt(n)) == Some(n)
  {
    var s := FormatInt(n);
    var m: nat := if n < 0 then -n else n;
    FormatNatValue(m);
    TrimNothing(s);
    if n < 0 {
      assert s[1..] == FormatNat(m);
    }
  }

  /** Distinct integers have distinct string forms. */
  lemma FormatIntInjective(a: int, b: int)
    requires FormatInt(a) == FormatInt(b)
    ensures a == b
  {
    var ma: nat := if a < 0 then -a else a;
    var mb: nat := if b < 0 then -b else b;
    FormatNatValue(ma);
    FormatNatValue(mb);
    if a < 0 {
      assert FormatInt(a)[0] == '-';
      assert FormatInt(a)[1..] == FormatNat(ma);
    }
    if b < 0 {
      assert FormatInt(b)[0] == '-';
      assert FormatInt(b)[1..] == FormatNat(mb);
    }
  }

  /** The converse of the round trip fails: parsing accepts non-canonical text, so a
      string id and the formatted form of its parsed value can differ. */
  lemma ParseAcceptsNonCanonical()
    ensures ParseInt32("07") == Some(7) && FormatInt(7) != "07"
    ensures ParseInt32(" 7") == Some(7) && ParseInt32("+7") == Some(7)
  {
    assert TrimEnd(TrimStart("07")) == "07";
    assert DigitsValue("07") == 7 by {
      assert "07"[..1] == "0";
      assert "0"[..0] == "";
    }
    assert TrimStart(" 7") == "7" by { assert " 7"[1..] == "7"; }
    assert TrimEnd("7") == "7";
    assert DigitsValue("7") == 7 by { assert "7"[..0] == ""; }
    assert TrimEnd(TrimStart("+7")) == "+7";
    assert "+7"[1..] == "7";
  }
}
