/** The counter display: the text that `updateCounter` writes into the counter element,
    `Sheep Count: ` followed by the count in decimal. */
module Display {

  const Prefix: string := "Sheep Count: "

  predicate IsDigit(c: char) {
    '0' <= c <= '9'
  }

  predicate AllDigits(s: string) {
    forall k :: 0 <= k < |s| ==> IsDigit(s[k])
  }

  function DigitValue(c: char): (d: nat)
    requires IsDigit(c)
    ensures d < 10
  {
    c as int - '0' as int
  }

  function DigitChar(d: nat): (c: char)
    requires d < 10
    ensures IsDigit(c) && DigitValue(c) == d
  {
    ('0' as int + d) as char
  }

  /** The decimal rendering of a non-negative integer, as a template literal produces it:
      digits only, no sign, no leading zero except for zero itself. */
  function Decimal(n: nat): (r: string)
    ensures |r| >= 1 && AllDigits(r)
    ensures (r[0] == '0') == (n == 0)
    ensures n < 10 <==> |r| == 1
    decreases n
  {
    if n < 10 then [DigitChar(n)] else Decimal(n / 10) + [DigitChar(n % 10)]
  }

  /** The value a string of decimal digits denotes (most significant digit first). */
  function ParseDecimal(s: string): nat
    requires AllDigits(s)
    decreases |s|
  {
    if s == [] then 0 else ParseDecimal(s[..|s| - 1]) * 10 + DigitValue(s[|s| - 1])
  }

  /** Reading back the rendered digits gives the number that was rendered. */
  lemma {:induction false} ParseDecimalInverse(n: nat)
    ensures ParseDecimal(Decimal(n)) == n
    decreases n
  {
    var r := Decimal(n);
    if n >= 10 {
      var front := Decimal(n / 10);
      assert r[..|r| - 1] == front;
      ParseDecimalInverse(n / 10);
    }
  }

  /** Two counts are shown differently exactly when they differ. */
  lemma DecimalInjective(m: nat, n: nat)
    requires Decimal(m) == Decimal(n)
    ensures m == n
  {
    ParseDecimalInverse(m);
    ParseDecimalInverse(n);
  }

  /** The counter label for count `n`: the fixed prefix, then the canonical decimal digits of `n`. */
  function CounterText(n: nat): (r: string)
    ensures |r| > |Prefix| && r[..|Prefix|] == Prefix
    ensures var digits := r[|Prefix|..];
      AllDigits(digits) && ParseDecimal(digits) == n && (digits[0] == '0' ==> digits == "0")
  {
    ParseDecimalInverse(n);
    var digits := Decimal(n);
    var r := Prefix + digits;
    assert r[|Prefix|..] == digits;
    r
  }
}
