/** The pieces of PHP's value semantics the controller relies on: string
    truthiness (`if ($code)`, `!$token`, `empty(...)`), the `(int)` cast and
    `intval`, and the decimal rendering of an integer inside a string. */
module PhpValues {
  import opened Scan

  /** A PHP string is falsy exactly when it is "" or "0". */
  predicate Truthy(s: string) { s != "" && s != "0" }

  function DigitValue(c: char): (d: nat)
    requires IsDigit(c)
    ensures d < 10
  {
    (c as int - '0' as int) as nat
  }

  function DigitChar(d: nat): (c: char)
    requires d < 10
    ensures IsDigit(c) && DigitValue(c) == d
  {
    (('0' as int) + d) as char
  }

  /** The value of a non-empty run of decimal digits (most significant first). */
  function DigitsValue(ds: string): nat
    requires AllIn(ds, Digit)
  {
    if ds == [] then 0 else DigitsValue(ds[..|ds| - 1]) * 10 + DigitValue(ds[|ds| - 1])
  }

  /** The decimal representation of `n`, without leading zeros. */
  function NatToString(n: nat): (s: string)
    ensures |s| > 0 && AllIn(s, Digit)
    ensures s[0] == '0' ==> n == 0
  {
    if n < 10 then [DigitChar(n)] else NatToString(n / 10) + [DigitChar(n % 10)]
  }

  /** How PHP renders an integer when it is interpolated in a string. */
  function IntToString(i: int): string
  {
    if i < 0 then "-" + NatToString(-i) else NatToString(i)
  }

  /** PHP's `(int)` cast of a string: leading whitespace is skipped, then an
      optional sign and the longest run of decimal digits are read; anything
      after them is ignored, and no digits at all give 0. */
  function IntCast(s: string): int
  {
    var i := RunLength(s, 0, Space);
    var signed := i < |s| && (s[i] == '-' || s[i] == '+');
    var j := if signed then i + 1 else i;
    var v: int := DigitsValue(s[j..j + RunLength(s, j, Digit)]);
    if signed && s[i] == '-' then -v else v
  }

  /** A scalar as it arrives in the request payload. */
  datatype RequestValue = IntValue(i: int) | StringValue(s: string) | BoolValue(b: bool) | NullValue

  /** PHP's `intval` on a request scalar. */
  function IntVal(v: RequestValue): int
  {
    match v
    case IntValue(i) => i
    case StringValue(s) => IntCast(s)
    case BoolValue(b) => if b then 1 else 0
    case NullValue => 0
  }

  lemma {:induction false} DigitsValueOfNatToString(n: nat)
    ensures DigitsValue(NatToString(n)) == n
  {
    var s := NatToString(n);
    if n >= 10 {
      DigitsValueOfNatToString(n / 10);
      assert s[..|s| - 1] == NatToString(n / 10);
    }
  }

  /** The `(int)` cast reads back the integer PHP rendered, whatever text
      follows it as long as that text does not begin with a digit. */
  lemma IntCastReadsIntToString(i: int, rest: string)
    requires rest == [] || !IsDigit(rest[0])
    ensures IntCast(IntToString(i) + rest) == i
  {
    if i < 0 {
      NegativeReads(-i, rest);
    } else {
      DigitsThen(i, rest, 0, NatToString(i) + rest);
    }
  }

  /** "-" followed by the digits of `n` reads back as `-n`. */
  lemma NegativeReads(n: nat, rest: string)
    requires n > 0 && (rest == [] || !IsDigit(rest[0]))
    ensures IntCast("-" + NatToString(n) + rest) == -(n as int)
  {
    var s := "-" + NatToString(n) + rest;
    assert s == "-" + (NatToString(n) + rest);
    DigitsThen(n, rest, 1, s);
  }

  /** The digits of `n` at `j` in `s`, then `rest`, with `s` starting at
      `j - 1` with a sign when `j` is 1: the cast skips no whitespace and
      reads exactly those digits. */
  lemma DigitsThen(n: nat, rest: string, j: nat, s: string)
    requires rest == [] || !IsDigit(rest[0])
    requires j <= 1 && j <= |s| && s[j..] == NatToString(n) + rest
    requires j == 1 ==> s[0] == '-'
    ensures j == 0 ==> IntCast(s) == n
    ensures j == 1 ==> IntCast(s) == -(n as int)
  {
    var digits := NatToString(n);
    assert s[j..j + |digits|] == digits;
    assert !IsSpace(s[0]) by {
      if j == 0 { assert s[0] == digits[0]; }
    }
    RunLengthIs(s, 0, 0, Space);
    RunLengthIs(s, j, |digits|, Digit);
    DigitsValueOfNatToString(n);
  }

  /** The `(int)` cast inverts PHP's integer rendering. */
  lemma IntCastRoundTrip(i: int)
    ensures IntCast(IntToString(i)) == i
  {
    IntCastReadsIntToString(i, "");
    assert IntToString(i) + "" == IntToString(i);
  }

  /** Text without a leading sign or digit (after whitespace) casts to 0. */
  lemma IntCastOfNonNumeric(s: string)
    requires forall k :: 0 <= k < |s| ==> !IsDigit(s[k]) && s[k] != '-' && s[k] != '+'
    ensures IntCast(s) == 0
  {
    var i := RunLength(s, 0, Space);
    RunLengthIs(s, i, 0, Digit);
    assert s[i..i] == [];
  }
}
