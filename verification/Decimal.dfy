/** Decimal text, as `strconv` prints and parses it (address.go uses it for ports and zones). */
module Decimal {
  import opened Wrappers

  predicate IsDigit(c: char) { '0' <= c <= '9' }

  predicate AllDigits(s: string) { forall i :: 0 <= i < |s| ==> IsDigit(s[i]) }

  function DigitChar(d: int): char
    requires 0 <= d < 10
  {
    '0' + d as char
  }

  function DigitValue(c: char): (d: int)
    requires IsDigit(c)
    ensures 0 <= d < 10
  {
    c as int - '0' as int
  }

  /** The number a string of digits denotes, most significant digit first. */
  function Value(s: string): nat
    requires AllDigits(s)
  {
    if s == "" then 0 else 10 * Value(s[..|s| - 1]) + DigitValue(s[|s| - 1])
  }

  /** `strconv.Itoa` on a number that is not negative. */
  function Print(n: nat): (s: string)
    ensures s != "" && AllDigits(s)
    ensures Value(s) == n
  {
    if n < 10 then [DigitChar(n)] else
      var front := Print(n / 10);
      var s := front + [DigitChar(n % 10)];
      assert s[..|s| - 1] == front;
      s
  }

  /** `strconv.ParseUint(s, 10, bits)` for a given exclusive upper bound: digits only, no sign. */
  function ParseUint(s: string, bound: nat): Option<nat> {
    if s == "" || !AllDigits(s) || Value(s) >= bound then None else Some(Value(s))
  }

  /** `strconv.Atoi`: an optional sign, then digits. */
  function Atoi(s: string): Option<int> {
    var unsigned := if s != "" && (s[0] == '+' || s[0] == '-') then s[1..] else s;
    if unsigned == "" || !AllDigits(unsigned) then None
    else
      var n: int := Value(unsigned);
      Some(if s[0] == '-' then -n else n)
  }

  /** Printing is undone by both parsers. */
  lemma PrintThenParse(n: nat, bound: nat)
    requires n < bound
    ensures ParseUint(Print(n), bound) == Some(n)
    ensures Atoi(Print(n)) == Some(n)
  {
    assert IsDigit(Print(n)[0]);
  }
}
