/** The Luhn check of ISO/IEC 7812-1, Annex B: counting from the rightmost
    digit, double every second digit, subtract 9 from doubles above 9, and
    require the sum to be a multiple of 10. It is one card-number rule that
    agrees with the tested examples. */
module Luhn {
  import opened Php

  function LuhnDigit(d: int, doubled: bool): (r: int)
    requires 0 <= d < 10
    ensures 0 <= r < 10
  {
    if !doubled then d else if 2 * d > 9 then 2 * d - 9 else 2 * d
  }

  /** The Luhn sum of the digits of `s` from index `i` on. The digit at
      index `i` sits at position |s| - 1 - i counted from the right, so it
      is doubled when |s| - i is even. */
  function LuhnSum(s: string, i: nat): nat
    requires AllDigits(s) && i <= |s|
    decreases |s| - i
  {
    if i == |s| then 0
    else LuhnDigit(DigitValue(s[i]), (|s| - i) % 2 == 0) + LuhnSum(s, i + 1)
  }

  predicate LuhnValid(s: string)
  {
    s != [] && AllDigits(s) && LuhnSum(s, 0) % 10 == 0
  }

  /** The partial sums of the number the card tests accept, from the right: 100 in all. */
  lemma AcceptedNumberPasses(s: string)
    requires |s| == 16
    requires s[0] == '4' && s[1] == '9' && s[2] == '2' && s[3] == '3' && s[4] == '9' && s[5] == '9' && s[6] == '3' && s[7] == '8' && s[8] == '2' && s[9] == '7' && s[10] == '9' && s[11] == '5' && s[12] == '1' && s[13] == '6' && s[14] == '2' && s[15] == '7'
    ensures LuhnValid(s)
  {
    assert LuhnSum(s, 15) == 7;
    assert LuhnSum(s, 14) == 11;
    assert LuhnSum(s, 13) == 17;
    assert LuhnSum(s, 12) == 19;
    assert LuhnSum(s, 11) == 24;
    assert LuhnSum(s, 10) == 33;
    assert LuhnSum(s, 9) == 40;
    assert LuhnSum(s, 8) == 44;
    assert LuhnSum(s, 7) == 52;
    assert LuhnSum(s, 6) == 58;
    assert LuhnSum(s, 5) == 67;
    assert LuhnSum(s, 4) == 76;
    assert LuhnSum(s, 3) == 79;
    assert LuhnSum(s, 2) == 83;
    assert LuhnSum(s, 1) == 92;
    assert LuhnSum(s, 0) == 100;
  }

  /** The partial sums of the number the card tests reject, from the right: 56 in all. */
  lemma RejectedNumberFails(s: string)
    requires |s| == 8
    requires s[0] == '4' && s[1] == '9' && s[2] == '2' && s[3] == '3' && s[4] == '9' && s[5] == '9' && s[6] == '3' && s[7] == '8'
    ensures !LuhnValid(s)
  {
    assert LuhnSum(s, 7) == 8;
    assert LuhnSum(s, 6) == 14;
    assert LuhnSum(s, 5) == 23;
    assert LuhnSum(s, 4) == 32;
    assert LuhnSum(s, 3) == 35;
    assert LuhnSum(s, 2) == 39;
    assert LuhnSum(s, 1) == 48;
    assert LuhnSum(s, 0) == 56;
  }

  /** The number the card tests accept passes the check; the one they
      reject fails it. */
  lemma TestedNumbers()
    ensures LuhnValid("4923993827951627")
    ensures !LuhnValid("49239938")
  {
    AcceptedNumberPasses("4923993827951627");
    RejectedNumberFails("49239938");
  }
}
