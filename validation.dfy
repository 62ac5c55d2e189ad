/** The field rules the setters apply, stated as plain predicates over a
    mixed value: `digit`, `alnum`, `notEmpty` and `min` as the records use
    them. Character classes are ASCII. */
module Validation {
  import opened Php

  /** A non-empty string of decimal digits (an empty string is not "digits"). */
  predicate IsDigits(s: string) { s != [] && AllDigits(s) }

  predicate IsAlnumChar(c: char) { IsDigitChar(c) || 'a' <= c <= 'z' || 'A' <= c <= 'Z' }

  /** A non-empty string of ASCII letters and digits. */
  predicate IsAlnum(s: string) { s != [] && forall i :: 0 <= i < |s| ==> IsAlnumChar(s[i]) }

  /** `digit`: a scalar whose text is all digits. */
  predicate Digit(v: Value) { ScalarText(v).Some? && IsDigits(ScalarText(v).value) }

  /** `alnum`: a scalar whose text is all letters and digits. */
  predicate Alnum(v: Value) { ScalarText(v).Some? && IsAlnum(ScalarText(v).value) }

  /** PHP's `empty($v)`: null, false, 0, "", "0", an empty array. */
  predicate Empty(v: Value)
  {
    match v
    case VNull => true
    case VBool(b) => !b
    case VInt(i) => i == 0
    case VStr(s) => s == "" || s == "0"
    case VArr(n) => n == 0
    case VObj => false
  }

  /** `notEmpty`. */
  predicate NotEmpty(v: Value) { !Empty(v) }

  /** `min($m, true)` on a scalar: it compares as a number at least `m`.
      Only digit strings reach it in the records, where PHP's comparison and
      the `(int)` cast agree. */
  predicate AtLeast(v: Value, m: int) { ScalarText(v).Some? && IntOf(v) >= m }

  /** A value that passed `digit` casts to the number its text denotes. */
  lemma DigitIntOf(v: Value)
    requires Digit(v)
    ensures IntOf(v) == DigitsValue(ScalarText(v).value)
  {
    match v
    case VBool(b) =>
      assert ScalarText(v).value == "1";
    case VInt(i) =>
      DigitInt(i);
      IntTextRoundTrip(i);
      NatTextRoundTrip(i);
    case VStr(s) =>
      LeadingDigitsOfDigits(s);
  }

  /** An int passes `digit` exactly when it is not negative. */
  lemma DigitInt(n: int)
    ensures Digit(VInt(n)) <==> n >= 0
  {
    if n < 0 {
      assert IntText(n)[0] == '-';
    }
  }

  /** A digit string is empty in PHP's sense only when it is "0". */
  lemma NotEmptyDigits(t: string)
    requires IsDigits(t)
    ensures NotEmpty(VStr(t)) <==> t != "0"
  {
  }
}
