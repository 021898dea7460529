/** JavaScript's `Number(text)` and `String(n)` restricted to decimal integers, which is all the
    core feeds them: select values rendered from numeric ids, and number inputs. */
module JsNumber {

  /** A JavaScript number as far as this model tracks it: an integer, or some other value
      (a fraction, an exponent form, NaN) whose exact value the model does not follow. */
  datatype Number = Int(value: int) | Untracked

  predicate IsDigit(c: char) {
    '0' <= c <= '9'
  }

  predicate AllDigits(s: string) {
    forall i :: 0 <= i < |s| ==> IsDigit(s[i])
  }

  /** The value of a non-empty run of decimal digits, most significant first. */
  function DigitsValue(s: string): nat
    requires AllDigits(s)
    decreases |s|
  {
    if s == [] then 0
    else DigitsValue(s[..|s| - 1]) * 10 + (s[|s| - 1] as int - '0' as int)
  }

  function Digit(d: nat): (c: char)
    requires d < 10
    ensures IsDigit(c) && c as int - '0' as int == d
  {
    (d + '0' as int) as char
  }

  /** `String(n)` for a non-negative integer: its shortest decimal form. */
  function NatToString(n: nat): (s: string)
    ensures |s| >= 1 && AllDigits(s)
    ensures (n == 0) == (s == "0")
    decreases n
  {
    if n < 10 then [Digit(n)] else NatToString(n / 10) + [Digit(n % 10)]
  }

  /** `String(n)` for a safe integer (absolute value at most 2^53 - 1); larger values are
      printed with all their digits, where JavaScript rounds and may use exponent notation. */
  function IntToString(n: int): string {
    if n < 0 then "-" + NatToString(-n) else NatToString(n)
  }

  /** `Number(s)`: the empty string is 0, an optional minus sign followed by digits is that
      integer (exact, where JavaScript rounds beyond 2^53 - 1), and every other text is a
      value the model does not track. */
  function ToNumber(s: string): Number {
    if s == "" then Int(0)
    else if s[0] == '-' && |s| > 1 && AllDigits(s[1..]) then Int(-(DigitsValue(s[1..]) as int))
    else if AllDigits(s) then Int(DigitsValue(s))
    else Untracked
  }

  /** Reading back the digits a non-negative integer prints as gives that integer. */
  lemma {:induction false} DigitsOfNatToString(n: nat)
    ensures DigitsValue(NatToString(n)) == n
    decreases n
  {
    var s := NatToString(n);
    if n >= 10 {
      DigitsOfNatToString(n / 10);
      assert s[..|s| - 1] == NatToString(n / 10);
      assert s[|s| - 1] == Digit(n % 10);
    } else {
      assert s[..|s| - 1] == [];
    }
  }

  /** `Number(String(n)) === n` for every integer `n`. */
  lemma NumberOfIntToString(n: int)
    ensures ToNumber(IntToString(n)) == Int(n)
  {
    var s := IntToString(n);
    if n < 0 {
      var digits := NatToString(-n);
      assert s == "-" + digits && s[1..] == digits;
      DigitsOfNatToString(-n);
      assert s[0] == '-' && |s| > 1 && AllDigits(s[1..]);
    } else {
      DigitsOfNatToString(n);
      assert s != "" && IsDigit(s[0]) && AllDigits(s);
    }
  }
}
