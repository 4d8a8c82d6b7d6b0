/** `strconv.Itoa` and `strconv.Atoi` on unbounded integers. */
module Decimal {
  import opened Common

  function DigitChar(d: nat): char
    requires d < 10
  {
    '0' + d as char
  }

  predicate IsDigit(c: char) {
    '0' <= c <= '9'
  }

  function Digits(n: nat): (s: string)
    ensures s != [] && IsDigit(s[0])
  {
    if n < 10 then [DigitChar(n)] else Digits(n / 10) + [DigitChar(n % 10)]
  }

  function Itoa(n: int): string {
    if n < 0 then "-" + Digits(-n) else Digits(n)
  }

  /** The value of a possibly empty run of digits. */
  function DigitsValue(s: string): Option<nat> {
    if s == [] then Some(0)
    else if !IsDigit(s[|s| - 1]) then None
    else
      match DigitsValue(s[..|s| - 1])
      case None => None
      case Some(v) => Some(10 * v + (s[|s| - 1] - '0') as int)
  }

  /** An optional sign and at least one digit. */
  function Atoi(s: string): Option<int> {
    if s == [] then None
    else if s[0] == '-' || s[0] == '+' then
      if |s| == 1 then None
      else
        match DigitsValue(s[1..])
        case None => None
        case Some(v) => var value: int := v; Some(if s[0] == '-' then -value else value)
    else DigitsValue(s)
  }

  lemma {:induction false} DigitsRoundTrip(n: nat)
    ensures DigitsValue(Digits(n)) == Some(n)
  {
    var s := Digits(n);
    if n < 10 {
      assert s[..0] == [];
    } else {
      DigitsRoundTrip(n / 10);
      assert s[..|s| - 1] == Digits(n / 10);
    }
  }

  /** What Itoa writes, Atoi reads back. */
  lemma AtoiItoa(n: int)
    ensures Atoi(Itoa(n)) == Some(n)
  {
    if n < 0 {
      DigitsRoundTrip(-n);
      assert Itoa(n)[1..] == Digits(-n);
    } else {
      DigitsRoundTrip(n);
    }
  }

  /** Atoi accepts an optional sign and one digit or more, and nothing else. */
  lemma AtoiAccepts(s: string)
    ensures var digits := if s != [] && s[0] in {'-', '+'} then s[1..] else s;
            Atoi(s).Some? <==> digits != [] && forall c | c in digits :: '0' <= c <= '9'
  {
    DigitsOnly(if s != [] && s[0] in {'-', '+'} then s[1..] else s);
  }

  lemma {:induction false} DigitsOnly(s: string)
    ensures DigitsValue(s).Some? <==> forall c | c in s :: IsDigit(c)
  {
    if s != [] {
      DigitsOnly(s[..|s| - 1]);
      assert s == s[..|s| - 1] + [s[|s| - 1]];
    }
  }

  /** One more digit on the right is one more decimal place. */
  lemma AtoiReads(s: string, d: nat)
    requires s != [] && IsDigit(s[0]) && Atoi(s).Some? && d < 10
    ensures Atoi(s + [DigitChar(d)]) == Some(10 * Atoi(s).value + d)
    ensures Atoi([DigitChar(d)]) == Some(d)
  {
    var t, u := s + [DigitChar(d)], [DigitChar(d)];
    assert t[0] == s[0] && t[..|t| - 1] == s && t[|t| - 1] == DigitChar(d);
    assert u[..|u| - 1] == [];
    assert DigitsValue(t) == Some(10 * DigitsValue(s).value + d);
    assert DigitsValue(u) == Some(10 * DigitsValue([]).value + d);
  }
}
