/**
  Decimal rendering of integers, as Swift's `String(_:)` does it for every
  integer width: digits with no leading zero, and a `-` sign only for negative
  values. `Parse` is the independent reading of such text, and the two lemmas at
  the end show that `Show` is exactly the canonical decimal form.
 */
module Decimal {

  import opened Results

  predicate IsDigit(c: char)
  {
    '0' <= c <= '9'
  }

  predicate AllDigits(s: string)
  {
    forall i :: 0 <= i < |s| ==> IsDigit(s[i])
  }

  function DigitChar(d: nat): (c: char)
    requires d < 10
    ensures IsDigit(c)
  {
    (('0' as int) + d) as char
  }

  function DigitValue(c: char): (d: nat)
    requires IsDigit(c)
    ensures d < 10
  {
    (c as int) - ('0' as int)
  }

  /** Decimal digits of a natural number, most significant first. */
  function ShowNat(n: nat): (r: string)
    ensures |r| >= 1 && AllDigits(r)
    ensures r[0] == '0' <==> n == 0
    ensures n == 0 ==> r == "0"
    decreases n
  {
    if n < 10 then [DigitChar(n)] else ShowNat(n / 10) + [DigitChar(n % 10)]
  }

  /** `String(value)` for an integer of any width. */
  function Show(i: int): (r: string)
    ensures |r| >= 1
    ensures r[0] == '-' <==> i < 0
    ensures AllDigits(if i < 0 then r[1..] else r)
  {
    if i < 0 then "-" + ShowNat(-i) else ShowNat(i)
  }

  /** The value of a string of digits, read left to right. */
  function ParseNat(s: string): nat
    requires AllDigits(s)
    decreases |s|
  {
    if |s| == 0 then 0 else ParseNat(s[..|s| - 1]) * 10 + DigitValue(s[|s| - 1])
  }

  /** A digit string with no superfluous leading zero. */
  predicate CanonicalDigits(s: string)
  {
    |s| >= 1 && AllDigits(s) && (|s| > 1 ==> s[0] != '0')
  }

  /** Reads an optionally negative decimal integer; `None` for anything else. */
  function Parse(s: string): Option<int>
  {
    if |s| >= 2 && s[0] == '-' && AllDigits(s[1..]) then Some(0 - ParseNat(s[1..]))
    else if |s| >= 1 && AllDigits(s) then Some(ParseNat(s))
    else None
  }

  /** Decimal text in the form `Show` produces: canonical digits, and no `-0`. */
  predicate Canonical(s: string)
  {
    if |s| >= 1 && s[0] == '-' then CanonicalDigits(s[1..]) && s[1..] != "0"
    else CanonicalDigits(s)
  }

  lemma {:induction false} ParseShowNat(n: nat)
    ensures ParseNat(ShowNat(n)) == n
    decreases n
  {
    if n >= 10 {
      var r := ShowNat(n);
      var prefix := ShowNat(n / 10);
      assert r[..|r| - 1] == prefix;
      ParseShowNat(n / 10);
    }
  }

  lemma {:induction false} ParseNatPositive(s: string)
    requires CanonicalDigits(s) && s[0] != '0'
    ensures ParseNat(s) >= 1
    decreases |s|
  {
    if |s| > 1 {
      var p := s[..|s| - 1];
      assert p[0] == s[0];
      ParseNatPositive(p);
    }
  }

  lemma {:induction false} ShowParseNat(s: string)
    requires CanonicalDigits(s)
    ensures ShowNat(ParseNat(s)) == s
    decreases |s|
  {
    if |s| > 1 {
      var p := s[..|s| - 1];
      var d := DigitValue(s[|s| - 1]);
      assert p[0] == s[0];
      ParseNatPositive(p);
      ShowParseNat(p);
      var n := ParseNat(s);
      assert n == ParseNat(p) * 10 + d;
      assert n / 10 == ParseNat(p) && n % 10 == d;
      assert DigitChar(d) == s[|s| - 1];
      assert s == p + [s[|s| - 1]];
    }
  }

  /** Reading back what `Show` wrote gives the integer again. */
  lemma ParseShow(i: int)
    ensures Parse(Show(i)) == Some(i)
  {
    if i < 0 {
      ParseShowNat(-i);
      assert Show(i)[1..] == ShowNat(-i);
    } else {
      ParseShowNat(i);
    }
  }

  /** `Show` writes canonical text, and canonical text is what `Show` writes of its value. */
  lemma ShowIsCanonical(i: int, s: string)
    ensures Canonical(Show(i))
    ensures Canonical(s) && Parse(s) == Some(i) ==> Show(i) == s
  {
    if i < 0 {
      assert Show(i)[1..] == ShowNat(-i);
    }
    if Canonical(s) && Parse(s) == Some(i) {
      if |s| >= 1 && s[0] == '-' {
        var t := s[1..];
        ShowParseNat(t);
        assert t[0] != '0';
        ParseNatPositive(t);
        assert s == "-" + t;
      } else {
        ShowParseNat(s);
      }
    }
  }
}
