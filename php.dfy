/** The slice of PHP's value semantics the two records depend on: arguments of
    mixed type, the `(string)` and `(bool)` casts, the decimal text of an
    `int`, the `(int)` cast of a string and `substr($s, 0, $n)`. */
module Php {

  datatype Option<T> = None | Some(value: T)

  /** What a validating setter does: returns the object, or throws
      `InvalidArgumentException`, with its message when that is known. */
  datatype Result<T> = Ok(value: T) | Err(message: Option<string>)

  /** An argument of mixed PHP type. An array is known only by its length and
      an object not at all: nothing in the core looks inside them. */
  datatype Value = VNull | VBool(b: bool) | VInt(i: int) | VStr(s: string) | VArr(length: nat) | VObj

  /** PHP's `int` on a 64-bit build. */
  const INT_MIN: int := -0x8000_0000_0000_0000
  const INT_MAX: int := 0x7fff_ffff_ffff_ffff
  type Int64 = n: int | INT_MIN <= n <= INT_MAX

  predicate IsDigitChar(c: char) { '0' <= c <= '9' }

  predicate AllDigits(s: string) { forall i :: 0 <= i < |s| ==> IsDigitChar(s[i]) }

  function DigitChar(d: int): (c: char)
    requires 0 <= d < 10
    ensures IsDigitChar(c)
  {
    (('0' as int) + d) as char
  }

  function DigitValue(c: char): (d: int)
    requires IsDigitChar(c)
    ensures 0 <= d < 10 && DigitChar(d) == c
  {
    c as int - '0' as int
  }

  function Pow10(k: nat): (p: nat)
    ensures p >= 1
  {
    if k == 0 then 1 else 10 * Pow10(k - 1)
  }

  /** `(string) $m` for a non-negative int: its decimal digits, with no
      leading zero except for 0 itself. */
  function NatText(m: nat): (r: string)
    ensures |r| > 0 && AllDigits(r)
    ensures r[0] == '0' ==> m == 0
    decreases m
  {
    if m < 10 then [DigitChar(m)] else NatText(m / 10) + [DigitChar(m % 10)]
  }

  /** `(string) $n` for any int: a minus sign for negatives, then the digits. */
  function IntText(n: int): string
  {
    if n < 0 then "-" + NatText(-n) else NatText(n)
  }

  /** The number a string of digits denotes, read from the left. */
  function DigitsValue(s: string): nat
    requires AllDigits(s)
    decreases |s|
  {
    if s == [] then 0 else 10 * DigitsValue(s[..|s| - 1]) + DigitValue(s[|s| - 1])
  }

  /** The longest run of digits at the start of `s`. */
  function LeadingDigits(s: string): (r: string)
    ensures r <= s && AllDigits(r)
    ensures |r| < |s| ==> !IsDigitChar(s[|r|])
  {
    if s == [] || !IsDigitChar(s[0]) then [] else [s[0]] + LeadingDigits(s[1..])
  }

  /** `(int) $s`: an optional sign followed by the leading digits; a string
      with no leading digits casts to 0. */
  function IntCast(s: string): int
  {
    if |s| > 0 && s[0] == '-' then 0 - DigitsValue(LeadingDigits(s[1..]))
    else if |s| > 0 && s[0] == '+' then DigitsValue(LeadingDigits(s[1..]))
    else DigitsValue(LeadingDigits(s))
  }

  /** The first `n` characters of `s` (all of it when it is shorter); equal
      to `substr($s, 0, $n)` on single-byte text. */
  function Truncate(s: string, n: nat): (r: string)
    ensures r <= s && |r| == if |s| <= n then |s| else n
    ensures |s| <= n <==> r == s
  {
    if |s| <= n then s else s[..n]
  }

  /** `is_scalar($v) ? (string) $v : null` — the text the validators see. */
  function ScalarText(v: Value): (t: Option<string>)
    ensures t.Some? <==> (v.VBool? || v.VInt? || v.VStr?)
  {
    match v
    case VBool(b) => Some(if b then "1" else "")
    case VInt(i) => Some(IntText(i))
    case VStr(s) => Some(s)
    case _ => None
  }

  /** `(int) $v`. */
  function IntOf(v: Value): int
  {
    match v
    case VNull => 0
    case VBool(b) => if b then 1 else 0
    case VInt(i) => i
    case VStr(s) => IntCast(s)
    case VArr(n) => if n > 0 then 1 else 0
    case VObj => 1
  }

  /** `(bool) $v`. */
  function Truthy(v: Value): bool
  {
    match v
    case VNull => false
    case VBool(b) => b
    case VInt(i) => i != 0
    case VStr(s) => s != "" && s != "0"
    case VArr(n) => n > 0
    case VObj => true
  }

  lemma {:induction false} LeadingDigitsOfDigits(s: string)
    requires AllDigits(s)
    ensures LeadingDigits(s) == s
    decreases |s|
  {
    if s != [] {
      LeadingDigitsOfDigits(s[1..]);
    }
  }

  /** Reading back the text of a non-negative int gives that int. */
  lemma {:induction false} NatTextRoundTrip(m: nat)
    ensures DigitsValue(NatText(m)) == m
    decreases m
  {
    if m >= 10 {
      var t := NatText(m);
      assert t == NatText(m / 10) + [DigitChar(m % 10)];
      assert t[..|t| - 1] == NatText(m / 10);
      NatTextRoundTrip(m / 10);
    }
  }

  /** `(int) (string) $n === $n` for every int. */
  lemma IntTextRoundTrip(n: int)
    ensures IntCast(IntText(n)) == n
  {
    var t := IntText(n);
    if n < 0 {
      assert t[1..] == NatText(-n);
      LeadingDigitsOfDigits(NatText(-n));
      NatTextRoundTrip(-n);
    } else {
      LeadingDigitsOfDigits(t);
      NatTextRoundTrip(n);
    }
  }

  /** A number below 10^k has at most k digits. */
  lemma {:induction false} NatTextLength(m: nat, k: nat)
    requires 1 <= k && m < Pow10(k)
    ensures |NatText(m)| <= k
    decreases m
  {
    if m >= 10 {
      assert Pow10(1) == 10;
      NatTextLength(m / 10, k - 1);
    }
  }

  lemma {:induction false} Pow10Add(a: nat, b: nat)
    ensures Pow10(a + b) == Pow10(a) * Pow10(b)
    decreases a
  {
    if a > 0 {
      Pow10Add(a - 1, b);
    }
  }

  /** The decimal text of a 64-bit int, sign included, is at most 20
      characters long (PHP_INT_MIN, "-9223372036854775808", is the longest). */
  lemma Int64TextLength(n: Int64)
    ensures |IntText(n)| <= 20
  {
    assert Pow10(4) == 10_000;
    assert Pow10(8) == 10_000 * Pow10(4) by { Pow10Add(4, 4); }
    assert Pow10(16) == Pow10(8) * Pow10(8) by { Pow10Add(8, 8); }
    assert Pow10(19) == Pow10(16) * 1000 by { Pow10Add(16, 3); }
    if n < 0 {
      NatTextLength(-(n as int), 19);
    } else {
      NatTextLength(n, 19);
    }
  }
}
