/**
 * Decimal rendering of integers: Python's `str(n)` and the zero-padded `format(n, "0>4d")`
 * format that turns the sequence counters into BIDS identifiers ("0001", "0002", ...).
 */
module Numerals {

  predicate IsDigits(s: string)
  {
    forall i :: 0 <= i < |s| ==> '0' <= s[i] <= '9'
  }

  function DigitChar(d: nat): (c: char)
    requires d < 10
    ensures '0' <= c <= '9'
  {
    ('0' as int + d) as char
  }

  function DigitValue(c: char): (d: nat)
    requires '0' <= c <= '9'
    ensures d < 10
  {
    c as int - '0' as int
  }

  /** Python's `str(n)` for a natural number: no sign, no leading zeros. */
  function Decimal(n: nat): (s: string)
    ensures s != [] && IsDigits(s)
    decreases n
  {
    if n < 10 then [DigitChar(n)] else Decimal(n / 10) + [DigitChar(n % 10)]
  }

  /** The number a digit string denotes, leading zeros allowed: Python's `int(s)`. */
  function DigitsValue(s: string): nat
    requires IsDigits(s)
    decreases |s|
  {
    if s == [] then 0 else DigitsValue(s[..|s| - 1]) * 10 + DigitValue(s[|s| - 1])
  }

  function Zeros(k: nat): (s: string)
    ensures |s| == k && IsDigits(s)
  {
    seq(k, _ => '0')
  }

  /** `format(n, "0>4d")`, as the padding of subject, session and run numbers: the decimal digits of `n`, left-filled with '0' to at least four characters. */
  function Pad4(n: nat): string
  {
    var digits := Decimal(n);
    if |digits| < 4 then Zeros(4 - |digits|) + digits else digits
  }

  /** Python's `str(i)` for any integer, as used for return codes in log messages. */
  function IntToString(i: int): string
  {
    if i < 0 then "-" + Decimal(-i) else Decimal(i)
  }

  /** Reading back the decimal rendering gives the number. */
  lemma {:induction false} DecimalValue(n: nat)
    ensures DigitsValue(Decimal(n)) == n
    decreases n
  {
    if n >= 10 {
      DecimalValue(n / 10);
      var s := Decimal(n);
      assert s[..|s| - 1] == Decimal(n / 10);
    }
  }

  /** Leading zeros do not change the value of a digit string. */
  lemma {:induction false} LeadingZerosValue(k: nat, s: string)
    requires IsDigits(s)
    ensures IsDigits(Zeros(k) + s) && DigitsValue(Zeros(k) + s) == DigitsValue(s)
    decreases |s|, k
  {
    var whole := Zeros(k) + s;
    if s == [] {
      assert whole == Zeros(k);
      if k > 0 {
        assert whole[..|whole| - 1] == Zeros(k - 1) + s;
        LeadingZerosValue(k - 1, s);
      }
    } else {
      var front := s[..|s| - 1];
      assert whole[..|whole| - 1] == Zeros(k) + front;
      LeadingZerosValue(k, front);
    }
  }

  /** A padded identifier is at least four digits long and denotes the counter it was made from. */
  lemma Pad4Value(n: nat)
    ensures |Pad4(n)| >= 4 && IsDigits(Pad4(n))
    ensures DigitsValue(Pad4(n)) == n
  {
    DecimalValue(n);
    var digits := Decimal(n);
    if |digits| < 4 {
      LeadingZerosValue(4 - |digits|, digits);
    }
  }

  /** Distinct counters give distinct identifiers. */
  lemma Pad4Injective(a: nat, b: nat)
    requires Pad4(a) == Pad4(b)
    ensures a == b
  {
    Pad4Value(a);
    Pad4Value(b);
  }
}
