/** The parts of Kotlin's `Long` arithmetic and of Java's `String.format` that the
    run formatters use: division and remainder that truncate toward zero, decimal
    text, and the `"%02d"` conversion (Locale.US, so ASCII digits). */
module KotlinFormat {

  /** `a / b` on Long or Int: the quotient truncated toward zero. */
  function Quot(a: int, b: int): (q: int)
    requires b > 0
    ensures 0 <= a ==> 0 <= a - q * b < b
    ensures a < 0 ==> -b < a - q * b <= 0
    ensures 0 <= a ==> q == a / b
  {
    if a >= 0 then a / b else -((-a) / b)
  }

  /** `a % b` on Long or Int: the remainder that goes with `Quot`, carrying the sign of `a`. */
  function Rem(a: int, b: int): (r: int)
    requires b > 0
    ensures Quot(a, b) * b + r == a
    ensures 0 <= a ==> 0 <= r < b && r == a % b
    ensures a < 0 ==> -b < r <= 0 && r == -((-a) % b)
  {
    a - Quot(a, b) * b
  }

  predicate IsDigit(c: char) {
    '0' <= c <= '9'
  }

  predicate AllDigits(s: string) {
    forall i :: 0 <= i < |s| ==> IsDigit(s[i])
  }

  function DigitChar(d: int): (c: char)
    requires 0 <= d < 10
    ensures IsDigit(c) && c as int - '0' as int == d
  {
    ('0' as int + d) as char
  }

  /** The value of a string of decimal digits, read most significant first. */
  function ParseDigits(s: string): int {
    if s == [] then 0 else ParseDigits(s[..|s| - 1]) * 10 + (s[|s| - 1] as int - '0' as int)
  }

  /** The shortest decimal text of `n`: digits only, no leading zero. */
  function Digits(n: nat): (s: string)
    ensures 1 <= |s| && AllDigits(s)
    ensures |s| > 1 ==> s[0] != '0'
    ensures n < 10 <==> |s| == 1
    ensures n < 100 ==> |s| <= 2
  {
    if n < 10 then [DigitChar(n)] else Digits(n / 10) + [DigitChar(n % 10)]
  }

  /** Reading back the decimal text of `n` gives `n`. */
  lemma {:induction false} ParseDigitsOfDigits(n: nat)
    ensures ParseDigits(Digits(n)) == n
  {
    if n >= 10 {
      ParseDigitsOfDigits(n / 10);
      var s := Digits(n);
      assert s[..|s| - 1] == Digits(n / 10);
    }
  }

  /** `Long.toString()` / `Int.toString()`: no padding, and a minus sign before
      the digits of a negative number. */
  function DecimalString(n: int): (s: string)
    ensures 0 <= n ==> AllDigits(s) && ParseDigits(s) == n
    ensures 0 <= n && |s| > 1 ==> s[0] != '0'
    ensures n < 0 ==> |s| >= 2 && s[0] == '-'
    ensures |s| >= 1
  {
    if n < 0 then "-" + Digits(-n)
    else
      ParseDigitsOfDigits(n);
      Digits(n)
  }

  /** `String.format("%02d", n)`: at least two characters, zero-padded on the left
      for 0..9; a negative number already has two characters with its sign. */
  function Pad2(n: int): (s: string)
    ensures |s| >= 2
    ensures 0 <= n ==> AllDigits(s) && ParseDigits(s) == n
    ensures 0 <= n < 100 ==> |s| == 2
    ensures 0 <= n && |s| > 2 ==> s[0] != '0'
    ensures n < 0 ==> s[0] == '-'
  {
    if n < 0 then "-" + Digits(-n)
    else if n < 10 then
      var s := "0" + Digits(n);
      assert s[..1] == "0" && ParseDigits("0") == 0;
      assert Digits(n) == [DigitChar(n)];
      s
    else
      ParseDigitsOfDigits(n);
      Digits(n)
  }
}
