/** Python's `str()` of the numbers the two handlers produce, and a reader that
    recovers the number from the text, so that the replies can be shown to carry
    exactly the computed value.

    - `Int(i)` is `str(i)` for a Python int: optional minus sign, decimal digits,
      no leading zeros.
    - `Tenths(t)` is `str(t / 10)` for a Python float whose value has an exact
      one-digit decimal expansion (every `n / 5` does): the digits of the whole
      part, a point, one fractional digit — `1.4`, `-0.2`, `2.0`. */
module Render {

  datatype Option<T> = None | Some(value: T)

  predicate IsDigit(c: char) { '0' <= c <= '9' }

  predicate AllDigits(s: string) { forall i :: 0 <= i < |s| ==> IsDigit(s[i]) }

  function Digit(d: nat): (c: char)
    requires d < 10
    ensures IsDigit(c)
  {
    (d + '0' as int) as char
  }

  function DigitValue(c: char): (d: nat)
    requires IsDigit(c)
    ensures d < 10
  {
    c as int - '0' as int
  }

  /** The decimal digits of `n`, most significant first, without leading zeros. */
  function Digits(n: nat): (s: string)
    ensures |s| >= 1 && AllDigits(s)
    ensures s[0] == '0' ==> n == 0
    decreases n
  {
    if n < 10 then [Digit(n)] else Digits(n / 10) + [Digit(n % 10)]
  }

  /** The number a string of decimal digits denotes (most significant first). */
  function DigitsValue(s: string): nat
    requires AllDigits(s)
    decreases |s|
  {
    if s == [] then 0 else DigitsValue(s[..|s| - 1]) * 10 + DigitValue(s[|s| - 1])
  }

  lemma {:induction false} DigitsRoundTrip(n: nat)
    ensures DigitsValue(Digits(n)) == n
    decreases n
  {
    if n >= 10 {
      var s := Digits(n);
      assert s[..|s| - 1] == Digits(n / 10);
      DigitsRoundTrip(n / 10);
    }
  }

  /** A larger number never has fewer digits. */
  lemma {:induction false} DigitsMonotone(a: nat, b: nat)
    requires a <= b
    ensures |Digits(a)| <= |Digits(b)|
    decreases b
  {
    if a >= 10 {
      DigitsMonotone(a / 10, b / 10);
    }
  }

  /** `str(i)` for a Python int. */
  function Int(i: int): string
  {
    if i < 0 then "-" + Digits(-i) else Digits(i)
  }

  /** `str(x)` for the Python float `x == t / 10`. */
  function Tenths(t: int): string
  {
    var m := if t < 0 then -t else t;
    (if t < 0 then "-" else "") + Digits(m / 10) + "." + [Digit(m % 10)]
  }

  /** Reads an unsigned number in either rendered form: digits, or digits, a
      point and one fractional digit. */
  function ReadUnsigned(s: string): Option<real>
  {
    if |s| >= 3 && s[|s| - 2] == '.' && AllDigits(s[..|s| - 2]) && IsDigit(s[|s| - 1]) then
      Some(DigitsValue(s[..|s| - 2]) as real + DigitValue(s[|s| - 1]) as real / 10.0)
    else if |s| >= 1 && AllDigits(s) then
      Some(DigitsValue(s) as real)
    else
      None
  }

  /** Reads back a rendered number, with its optional leading minus sign. */
  function Read(s: string): Option<real>
  {
    if |s| >= 1 && s[0] == '-' then
      match ReadUnsigned(s[1..])
      case Some(x) => Some(-x)
      case None => None
    else
      ReadUnsigned(s)
  }

  /** An int's rendering reads back as that int. */
  lemma IntReadsBack(i: int)
    ensures Read(Int(i)) == Some(i as real)
  {
    var m := if i < 0 then -i else i;
    var d := Digits(m);
    DigitsRoundTrip(m);
    assert !(|d| >= 3 && d[|d| - 2] == '.') by {
      if |d| >= 3 { assert IsDigit(d[|d| - 2]); }
    }
    assert ReadUnsigned(d) == Some(m as real);
    if i < 0 {
      assert Int(i)[1..] == d;
    } else {
      assert IsDigit(d[0]);
    }
  }

  /** A float's rendering reads back as that float: the fractional digit is kept,
      never truncated away. */
  lemma TenthsReadsBack(t: int)
    ensures Read(Tenths(t)) == Some(t as real / 10.0)
  {
    var m := if t < 0 then -t else t;
    var w := Digits(m / 10);
    var u := w + "." + [Digit(m % 10)];
    DigitsRoundTrip(m / 10);
    assert u[..|u| - 2] == w;
    assert u[|u| - 2] == '.';
    assert DigitValue(u[|u| - 1]) == m % 10;
    assert ReadUnsigned(u) == Some(m as real / 10.0);
    if t < 0 {
      assert Tenths(t)[1..] == u;
    } else {
      assert Tenths(t) == u;
      assert IsDigit(u[0]);
    }
  }

  /** An int and a float never render alike (`2` and `2.0` differ): only a
      float's text has a point. */
  lemma IntAndTenthsDiffer(i: int, t: int)
    ensures Int(i) != Tenths(t)
  {
    var r, s := Int(i), Tenths(t);
    assert forall k :: 1 <= k < |r| ==> IsDigit(r[k]);
    assert |s| >= 3 && s[|s| - 2] == '.';
  }
}
