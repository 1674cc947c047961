/** The few string and character operations of Python's `str` that the board
    model relies on, restricted to ASCII text. */
module Text {

  /** `c.isupper()` on a single ASCII character. */
  predicate IsUpper(c: char) {
    'A' <= c <= 'Z'
  }

  /** `c.islower()` on a single ASCII character. */
  predicate IsLower(c: char) {
    'a' <= c <= 'z'
  }

  /** `c.isspace()` on a single ASCII character: blank, tab, line feed,
      vertical tab, form feed, carriage return and the four separators 28..31. */
  predicate IsSpace(c: char) {
    c == ' ' || 9 <= c as int <= 13 || 28 <= c as int <= 31
  }

  predicate IsDigit(c: char) {
    '0' <= c <= '9'
  }

  /** `c.swapcase()` on a single ASCII character. */
  function SwapCase(c: char): (r: char)
    ensures IsUpper(c) <==> IsLower(r)
    ensures IsLower(c) <==> IsUpper(r)
    ensures IsSpace(c) <==> IsSpace(r)
  {
    if IsUpper(c) then (c as int + 32) as char
    else if IsLower(c) then (c as int - 32) as char
    else c
  }

  /** Swapping case twice gives the character back. */
  lemma SwapCaseTwice(c: char)
    ensures SwapCase(SwapCase(c)) == c
  {
  }

  /** `c.upper()` on a single ASCII character. */
  function ToUpper(c: char): (r: char)
    ensures IsLower(c) ==> IsUpper(r) && r == SwapCase(c)
    ensures !IsLower(c) ==> r == c
  {
    if IsLower(c) then (c as int - 32) as char else c
  }

  /** `s[::-1]`: the string read backwards. */
  function Reverse(s: string): (r: string)
    ensures |r| == |s|
    ensures forall k :: 0 <= k < |s| ==> r[k] == s[|s| - 1 - k]
  {
    if s == [] then [] else Reverse(s[1..]) + [s[0]]
  }

  /** `s.swapcase()`: every letter changes case, everything else stays. */
  function SwapCaseAll(s: string): (r: string)
    ensures |r| == |s|
    ensures forall k :: 0 <= k < |s| ==> r[k] == SwapCase(s[k])
  {
    if s == [] then [] else [SwapCase(s[0])] + SwapCaseAll(s[1..])
  }

  function DigitChar(n: int): (c: char)
    requires 0 <= n <= 9
    ensures IsDigit(c) && c as int - '0' as int == n
  {
    ('0' as int + n) as char
  }

  /** `str(n)` for a non-negative integer: its decimal digits, most significant first. */
  function NatToString(n: nat): (r: string)
    ensures |r| >= 1
    ensures forall k :: 0 <= k < |r| ==> IsDigit(r[k])
    ensures r[|r| - 1] == DigitChar(n % 10)
    ensures (n < 10) == (|r| == 1)
  {
    if n < 10 then [DigitChar(n)] else NatToString(n / 10) + [DigitChar(n % 10)]
  }

  /** `str(n)` for any integer: a minus sign before the digits of a negative number. */
  function IntToString(n: int): string
  {
    if n < 0 then "-" + NatToString(-n) else NatToString(n)
  }
}
