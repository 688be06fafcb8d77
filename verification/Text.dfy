/** Strings joined with a separator that occurs in no part, and decimal numbers. */
module Text {
  import opened VersionedStore

  /** The first separator tells the parts apart. */
  lemma FirstSeparator(c: char, a: string, b: string, a': string, b': string)
    requires c !in a && c !in a' && a + [c] + b == a' + [c] + b'
    ensures a == a' && b == b'
  {
    var s := a + [c] + b;
    assert s[|a|] == c && s[|a'|] == c;
    assert forall i :: 0 <= i < |a| ==> s[i] == a[i];
    assert s == a' + [c] + b';
    assert forall i :: 0 <= i < |a'| ==> s[i] == a'[i];
    assert |a| == |a'|;
    assert a == s[..|a|] == a';
    assert b == s[|a| + 1..] == b';
  }

  predicate IsDigit(c: char) {
    '0' <= c <= '9'
  }

  function Digit(d: nat): (c: char)
    requires d < 10
    ensures IsDigit(c)
  {
    ('0' as int + d) as char
  }

  function DigitValue(c: char): (d: nat)
    requires IsDigit(c)
    ensures d < 10 && Digit(d) == c
  {
    c as int - '0' as int
  }

  /** %d of a non-negative number. */
  function Decimal(n: nat): (s: string)
    ensures s != "" && forall c <- s :: IsDigit(c)
  {
    if n < 10 then [Digit(n)] else Decimal(n / 10) + [Digit(n % 10)]
  }

  function Number(digits: string): nat
    requires forall c <- digits :: IsDigit(c)
  {
    if digits == "" then 0
    else
      var last := digits[|digits| - 1];
      Number(digits[..|digits| - 1]) * 10 + DigitValue(last)
  }

  lemma {:induction false} DecimalRoundTrip(n: nat)
    ensures Number(Decimal(n)) == n
  {
    var s := Decimal(n);
    if n >= 10 {
      DecimalRoundTrip(n / 10);
      assert s[..|s| - 1] == Decimal(n / 10);
    } else {
      assert s[..|s| - 1] == "";
    }
  }

  /** The values of an `int` of a 64-bit Go. */
  type GoInt = n: int | -INT_LIMIT <= n < INT_LIMIT

  const INT_LIMIT: int := 0x8000_0000_0000_0000

  predicate AreDigits(s: string) {
    s != "" && forall c <- s :: IsDigit(c)
  }

  /** strconv.Atoi. */
  function Atoi(s: string): Option<GoInt> {
    var digits := if s != "" && (s[0] == '+' || s[0] == '-') then s[1..] else s;
    if !AreDigits(digits) then None
    else
      var n: int := if s[0] == '-' then -(Number(digits) as int) else Number(digits);
      if -INT_LIMIT <= n < INT_LIMIT then Some(n) else None
  }

  lemma AtoiUndoesItoa(n: GoInt)
    requires 0 <= n
    ensures Atoi(Decimal(n)) == Some(n)
  {
    DecimalRoundTrip(n);
    assert IsDigit(Decimal(n)[0]);
  }
}
