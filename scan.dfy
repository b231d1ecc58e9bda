/** Character classes and maximal runs, the building blocks of the two
    hand-written token scanners and of PHP's string-to-integer cast. */
module Scan {

  predicate IsDigit(c: char) { '0' <= c <= '9' }

  /** `[A-Za-z0-9]` */
  predicate IsAlnum(c: char) { 'A' <= c <= 'Z' || 'a' <= c <= 'z' || IsDigit(c) }

  /** `\s` of PCRE without the UTF flag: space, tab, LF, VT, FF, CR.  PHP's
      numeric-string parser skips the same six characters. */
  predicate IsSpace(c: char) { c == ' ' || c == '\t' || c == '\n' || c == '\U{B}' || c == '\U{C}' || c == '\r' }

  /** The three character classes the scanners use. */
  datatype CharClass = Space | Alnum | Digit

  predicate InClass(c: char, cls: CharClass)
  {
    match cls
    case Space => IsSpace(c)
    case Alnum => IsAlnum(c)
    case Digit => IsDigit(c)
  }

  predicate AllIn(s: string, cls: CharClass) { forall k :: 0 <= k < |s| ==> InClass(s[k], cls) }

  /** Length of the longest run of characters of class `cls` starting at `i`. */
  function RunLength(s: string, i: nat, cls: CharClass): (n: nat)
    requires i <= |s|
    ensures i + n <= |s|
    ensures forall k :: i <= k < i + n ==> InClass(s[k], cls)
    ensures i + n == |s| || !InClass(s[i + n], cls)
    decreases |s| - i
  {
    if i == |s| || !InClass(s[i], cls) then 0 else 1 + RunLength(s, i + 1, cls)
  }

  /** A run that is in class and ends at the end of `s` or before a character
      outside the class is the longest one. */
  lemma {:induction false} RunLengthIs(s: string, i: nat, n: nat, cls: CharClass)
    requires i + n <= |s|
    requires AllIn(s[i..i + n], cls)
    requires i + n == |s| || !InClass(s[i + n], cls)
    ensures RunLength(s, i, cls) == n
    decreases n
  {
    if n > 0 {
      assert s[i..i + n][0] == s[i];
      assert s[i + 1..i + n] == s[i..i + n][1..];
      RunLengthIs(s, i + 1, n - 1, cls);
    }
  }
}
