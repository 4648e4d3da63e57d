/** Decimal integer literals, as `json.Number.Int64` reads them and as the JSON
    printer writes them. */
module Decimals {
  import opened Text

  predicate Digit(c: char) { '0' <= c <= '9' }

  predicate Digits(s: string) {
    s != "" && forall i :: 0 <= i < |s| ==> Digit(s[i])
  }

  function DigitsValue(s: string): nat
    requires forall i :: 0 <= i < |s| ==> Digit(s[i])
  {
    if s == "" then 0
    else
      assert Digit(s[|s| - 1]);
      DigitsValue(s[..|s| - 1]) * 10 + (s[|s| - 1] as int - '0' as int)
  }

  /** `json.Number.Int64`: a decimal integer in the int64 range. */
  function Int64(literal: string): Option<int> {
    var negative := literal != "" && literal[0] == '-';
    var digits := if negative then literal[1..] else literal;
    if !Digits(digits) then None
    else
      var n: int := if negative then 0 - DigitsValue(digits) else DigitsValue(digits);
      if -0x8000_0000_0000_0000 <= n <= 0x7fff_ffff_ffff_ffff then Some(n) else None
  }

  function Decimal(n: nat): string {
    if n < 10 then [(n + '0' as int) as char] else Decimal(n / 10) + [(n % 10 + '0' as int) as char]
  }

  lemma {:induction false} DecimalDigits(n: nat)
    ensures Digits(Decimal(n)) && DigitsValue(Decimal(n)) == n && Decimal(n)[0] != '-'
  {
    if n < 10 {
      assert Decimal(n)[..0] == "";
    } else {
      DecimalDigits(n / 10);
      var s := Decimal(n);
      assert s[..|s| - 1] == Decimal(n / 10);
    }
  }

  /** A printed nonnegative int64 reads back as itself. */
  lemma DecimalRoundTrip(n: nat)
    requires n <= 0x7fff_ffff_ffff_ffff
    ensures Int64(Decimal(n)) == Some(n)
  {
    DecimalDigits(n);
  }

  /** The decimal text of a count beyond int64 is refused. */
  lemma TooLargeIsRefused(n: nat)
    requires n > 0x7fff_ffff_ffff_ffff
    ensures Int64(Decimal(n)) == None
  {
    DecimalDigits(n);
  }

  /** A minus in front negates, down to the least int64. */
  lemma NegativeRoundTrip(n: nat)
    requires n <= 0x8000_0000_0000_0000
    ensures Int64("-" + Decimal(n)) == Some(0 - n)
  {
    DecimalDigits(n);
    assert ("-" + Decimal(n))[1..] == Decimal(n);
  }

  /** Nothing but digits behind an optional minus reads as an integer. */
  lemma OnlyDigitsAreRead(s: string)
    requires Int64(s).Some?
    ensures forall i :: 0 <= i < |s| ==> Digit(s[i]) || (i == 0 && s[i] == '-')
    ensures s != "" && s != "-"
  {
    if s[0] == '-' { assert forall i :: 0 < i < |s| ==> s[i] == s[1..][i - 1]; }
  }

  // ---------------------------------------------------------------------
  // The number literals of section 6 of RFC 8259
  // ---------------------------------------------------------------------

  /** The length of the run of digits that starts at `i`. */
  function Run(s: string, i: nat): (n: nat)
    requires i <= |s|
    ensures i + n <= |s|
    decreases |s| - i
  {
    if i < |s| && Digit(s[i]) then 1 + Run(s, i + 1) else 0
  }

  predicate ExponentAt(s: string, i: nat)
    requires i <= |s|
  {
    i == |s| ||
    ((s[i] == 'e' || s[i] == 'E') &&
     var j := if i + 1 < |s| && (s[i + 1] == '+' || s[i + 1] == '-') then i + 2 else i + 1;
     j < |s| && j + Run(s, j) == |s|)
  }

  predicate FractionAt(s: string, i: nat)
    requires i <= |s|
  {
    if i < |s| && s[i] == '.' then Run(s, i + 1) > 0 && ExponentAt(s, i + 1 + Run(s, i + 1)) else ExponentAt(s, i)
  }

  /** An integer part without leading zeros, then fraction and exponent, if any. */
  predicate NumberLiteral(s: string) {
    var i := if s != "" && s[0] == '-' then 1 else 0;
    var n := Run(s, i);
    n > 0 && (s[i] == '0' ==> n == 1) && FractionAt(s, i + n)
  }

  lemma {:induction false} DigitsRun(s: string, i: nat)
    requires i <= |s| && forall j :: i <= j < |s| ==> Digit(s[j])
    ensures Run(s, i) == |s| - i
    decreases |s| - i
  {
    if i < |s| { DigitsRun(s, i + 1); }
  }

  lemma {:induction false} NoLeadingZero(n: nat)
    requires n > 0
    ensures Decimal(n)[0] != '0'
  {
    if n >= 10 { NoLeadingZero(n / 10); }
  }

  /** What the printer writes for a count is a number literal. */
  lemma DecimalIsLiteral(n: nat)
    ensures NumberLiteral(Decimal(n))
  {
    DecimalDigits(n);
    DigitsRun(Decimal(n), 0);
    if n > 0 { NoLeadingZero(n); }
  }
}
