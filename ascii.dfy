/** ASCII character classes standing in for Python's `str.isalpha`, `str.isspace`
    and `str.upper` (the non-ASCII part of those is not modelled). */
module Ascii {

  predicate IsLetter(c: char) {
    'A' <= c <= 'Z' || 'a' <= c <= 'z'
  }

  predicate IsLower(c: char) {
    'a' <= c <= 'z'
  }

  /** The ASCII characters that `str.split()` with no argument splits on. */
  predicate IsSpace(c: char) {
    // space, tab, newline, vertical tab, form feed, carriage return, and the
    // four information separators 0x1C..0x1F
    c == ' ' || 9 <= c as int <= 13 || 28 <= c as int <= 31
  }

  /** `s.isalpha()`: non-empty and made of letters only (so `""` is rejected, as in Python). */
  predicate IsAlpha(s: string) {
    |s| > 0 && forall k :: 0 <= k < |s| ==> IsLetter(s[k])
  }

  function ToUpper(c: char): (u: char)
    ensures !IsLower(u)
    ensures IsLower(c) ==> u as int == c as int - 32 && IsLetter(u)
    ensures !IsLower(c) ==> u == c
  {
    if IsLower(c) then (c as int - 32) as char else c
  }

  /** `s.upper()` restricted to ASCII. */
  function Upper(s: string): (u: string)
    ensures |u| == |s|
    ensures forall k :: 0 <= k < |u| ==> !IsLower(u[k])
    ensures forall k :: 0 <= k < |s| && !IsLower(s[k]) ==> u[k] == s[k]
    ensures forall k :: 0 <= k < |s| && IsLower(s[k]) ==> IsLetter(u[k]) && u[k] as int == s[k] as int - 32
  {
    seq(|s|, i requires 0 <= i < |s| => ToUpper(s[i]))
  }
}
