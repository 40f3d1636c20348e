/**
  Decimal conversion of Java `int` values, as `Integer.valueOf(String)` (which parses with
  `Integer.parseInt(s, 10)`) and `Integer.toString(int)` perform it on ASCII text.
  A stored ring-mode order is a list of such tokens.
 */
module JavaInteger {
  import opened Wrappers

  /** Bounds of the 32-bit two's-complement `int`. */
  const MIN_VALUE: int := -0x8000_0000
  const MAX_VALUE: int := 0x7FFF_FFFF

  predicate InRange(n: int) {
    MIN_VALUE <= n <= MAX_VALUE
  }

  predicate IsDigit(c: char) {
    '0' <= c <= '9'
  }

  predicate AllDigits(s: string) {
    forall i :: 0 <= i < |s| ==> IsDigit(s[i])
  }

  function DigitValue(c: char): (d: nat)
    requires IsDigit(c)
    ensures d < 10
  {
    (c as int) - ('0' as int)
  }

  function DigitChar(d: nat): (c: char)
    requires d < 10
    ensures IsDigit(c) && DigitValue(c) == d
  {
    (('0' as int) + d) as char
  }

  /** The value of a string of decimal digits, most significant digit first. */
  function DigitsValue(s: string): nat
    requires AllDigits(s)
  {
    if |s| == 0 then 0 else DigitsValue(s[..|s| - 1]) * 10 + DigitValue(s[|s| - 1])
  }

  /** The shortest decimal digit string of `n` (no leading zeros), as `Integer.toString` writes it. */
  function Digits(n: nat): (s: string)
    ensures |s| > 0 && AllDigits(s)
  {
    if n < 10 then [DigitChar(n)] else Digits(n / 10) + [DigitChar(n % 10)]
  }

  /**
    `Integer.parseInt(s, 10)`: an optional '-' or '+' sign followed by at least one decimal
    digit, whose value must fit in an `int`; anything else raises `NumberFormatException`,
    modelled as `None`.
   */
  function ParseInt(s: string): (r: Option<int>)
    ensures r.Some? ==> InRange(r.value)
    ensures r.Some? ==> |s| > 0
  {
    if |s| == 0 then None
    else
      var signed := s[0] == '-' || s[0] == '+';
      var body := if signed then s[1..] else s;
      if |body| == 0 || !AllDigits(body) then None
      else
        var magnitude: int := DigitsValue(body);
        var v: int := if s[0] == '-' then -magnitude else magnitude;
        if InRange(v) then Some(v) else None
  }

  /** `Integer.toString(n)`: a '-' for negative values, then the digits of the magnitude. */
  function ToString(n: int): string {
    if n < 0 then "-" + Digits(-n) else Digits(n)
  }

  lemma {:induction false} DigitsValueOfDigits(n: nat)
    ensures DigitsValue(Digits(n)) == n
  {
    if n >= 10 {
      var s := Digits(n);
      assert s[..|s| - 1] == Digits(n / 10);
      DigitsValueOfDigits(n / 10);
    }
  }

  /** Parsing what `ToString` writes gives back every `int`. */
  lemma ParseToString(n: int)
    requires InRange(n)
    ensures ParseInt(ToString(n)) == Some(n)
  {
    var s := ToString(n);
    if n < 0 {
      DigitsValueOfDigits(-n);
      assert s[1..] == Digits(-n);
    } else {
      DigitsValueOfDigits(n);
      assert s[0] != '-' && s[0] != '+';
    }
  }

  /**
    What `Integer.parseInt` rejects: the empty string, a lone sign, a first character that is
    neither a sign nor a digit, and any non-digit after the first character.
   */
  lemma ParseIntRejects(s: string)
    ensures ParseInt("") == None && ParseInt("-") == None && ParseInt("+") == None
    ensures |s| > 0 && !IsDigit(s[0]) && s[0] != '-' && s[0] != '+' ==> ParseInt(s) == None
    ensures (exists i :: 1 <= i < |s| && !IsDigit(s[i])) ==> ParseInt(s) == None
  {
  }
}
