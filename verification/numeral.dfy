/**
  * Data-point values. The program stores Python floats, written with `str(value)` and read back
  * with `float(text)`; this model keeps values as integers written in plain decimal, with an
  * optional sign on input, so that the writer and the reader form a proved pair.
  */
module Numeral {
  import opened Wrappers

  predicate IsDigit(c: char) {
    '0' <= c <= '9'
  }

  predicate AllDigits(s: string) {
    forall i | 0 <= i < |s| :: IsDigit(s[i])
  }

  function DigitChar(d: nat): (c: char)
    requires d < 10
    ensures IsDigit(c)
  {
    ('0' as int + d) as char
  }

  /** The decimal digits of `n`, most significant first, without leading zeros. */
  function Digits(n: nat): (s: string)
    ensures |s| >= 1 && AllDigits(s)
  {
    if n < 10 then [DigitChar(n)] else Digits(n / 10) + [DigitChar(n % 10)]
  }

  /** The value of a string of decimal digits. */
  function DigitsValue(s: string): nat
    requires AllDigits(s)
  {
    if s == [] then 0
    else DigitsValue(s[..|s| - 1]) * 10 + (s[|s| - 1] as int - '0' as int)
  }

  /** How a value is written into a data line. */
  function Format(v: int): string {
    if v < 0 then "-" + Digits(-v) else Digits(v)
  }

  /** A written value is a minus sign for a negative value, then at least one decimal digit. */
  lemma FormatShape(v: int)
    ensures var s := Format(v);
      && |s| >= 1 && IsDigit(s[|s| - 1])
      && (forall i | 0 <= i < |s| :: IsDigit(s[i]) || (i == 0 && s[i] == '-'))
      && (s[0] == '-' <==> v < 0)
  {
  }

  /** How a value is read back: an optional sign followed by at least one decimal digit. */
  function Parse(s: string): (r: Option<int>)
    ensures r.Some? ==> s != [] && IsDigit(s[|s| - 1])
  {
    if s == [] then None
    else if s[0] == '-' || s[0] == '+' then
      if |s| > 1 && AllDigits(s[1..]) then
        var n: int := DigitsValue(s[1..]);
        Some(if s[0] == '-' then -n else n)
      else None
    else if AllDigits(s) then Some(DigitsValue(s))
    else None
  }

  lemma {:induction false} DigitsValueDigits(n: nat)
    ensures DigitsValue(Digits(n)) == n
  {
    var s := Digits(n);
    if n >= 10 {
      DigitsValueDigits(n / 10);
      assert s[..|s| - 1] == Digits(n / 10);
    }
  }

  /** Reading back what was written gives the value that was written. */
  lemma ParseFormat(v: int)
    ensures Parse(Format(v)) == Some(v)
  {
    if v < 0 {
      DigitsValueDigits(-v);
      assert Format(v)[1..] == Digits(-v);
    } else {
      DigitsValueDigits(v);
    }
  }
}
