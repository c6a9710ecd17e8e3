/**
 * Decimal rendering of integers as Go's `fmt` verb `%d` writes them, and the
 * parse that reads such a rendering back.
 */
module Format {
  import opened Wrappers

  predicate IsDigit(c: char) {
    '0' <= c <= '9'
  }

  predicate AllDigits(s: string) {
    forall i :: 0 <= i < |s| ==> IsDigit(s[i])
  }

  function DigitValue(c: char): (d: nat)
    requires IsDigit(c)
    ensures d < 10
  {
    (c as int) - ('0' as int)
  }

  function DigitChar(d: nat): (c: char)
    requires d < 10
    ensures IsDigit(c) && DigitValue(c) == d
  {
    (('0' as int) + d) as char
  }

  /** The digits of `n`, most significant first, without leading zeros. */
  function Digits(n: nat): (s: string)
    ensures 1 <= |s| && AllDigits(s)
    ensures s[0] == '0' ==> n == 0
    decreases n
  {
    if n < 10 then [DigitChar(n)] else Digits(n / 10) + [DigitChar(n % 10)]
  }

  /** The number a run of decimal digits denotes (0 for the empty run). */
  function ValueOf(s: string): nat
    requires AllDigits(s)
    decreases |s|
  {
    if s == [] then 0 else ValueOf(s[..|s| - 1]) * 10 + DigitValue(s[|s| - 1])
  }

  lemma {:induction false} ValueOfDigits(n: nat)
    ensures ValueOf(Digits(n)) == n
    decreases n
  {
    if n >= 10 {
      ValueOfDigits(n / 10);
      var s := Digits(n / 10) + [DigitChar(n % 10)];
      assert s[..|s| - 1] == Digits(n / 10);
    }
  }

  /** Reads back a `%d` rendering: an optional minus sign and at least one digit. */
  function ParseInt(s: string): Option<int> {
    if 2 <= |s| && s[0] == '-' && AllDigits(s[1..]) then Some(0 - ValueOf(s[1..]))
    else if 1 <= |s| && AllDigits(s) then Some(ValueOf(s))
    else None
  }

  lemma ParseDigits(n: nat)
    ensures ParseInt(Digits(n)) == Some(n)
  {
    ValueOfDigits(n);
  }

  lemma ParseNegative(n: nat)
    requires 0 < n
    ensures ParseInt("-" + Digits(n)) == Some(0 - n)
  {
    var s := "-" + Digits(n);
    assert s[1..] == Digits(n);
    ValueOfDigits(n);
  }

  /**
   * `fmt.Sprintf("%d", n)`: a minus sign exactly for a negative number, then
   * the digits of its magnitude with no leading zero (zero itself is "0").
   * The rendering is read back as `n` and holds no space.
   */
  function FormatInt(n: int): (s: string)
    ensures 0 < |s| && (s[0] == '-' <==> n < 0)
    ensures
      var magnitude := if n < 0 then s[1..] else s;
      && 0 < |magnitude| && AllDigits(magnitude)
      && (magnitude[0] == '0' ==> magnitude == "0")
    ensures ParseInt(s) == Some(n)
    ensures forall i :: 0 <= i < |s| ==> s[i] != ' '
  {
    if n < 0 then
      ParseNegative(-n);
      "-" + Digits(-n)
    else
      ParseDigits(n);
      Digits(n)
  }
}
