/** The card record of a payment request (`Cartao`) as its unit tests pin it
    down: number, brand, security-code indicator, security code, holder name,
    expiry and token, each with a validating setter and a getter.

    What the tests leave open (which numbers the card-number rule accepts,
    the brand list, whether the reference month itself is still a valid
    expiry, and the month `setValidade` compares against when given one
    argument) is a `CardRules` value, constrained only by the tested
    examples. */
module CartaoModel {
  import opened Php
  import opened Validation
  import Luhn

  /** The holder name is cut to this many characters. */
  const NOME_MAXIMO: nat := 50

  /** The accepted security-code indicators. */
  const INDICADORES: set<int> := {0, 1, 2, 9}

  datatype CardRules = CardRules(
    numberAccepted: string -> bool,  // applied to the digits left after stripping
    brands: seq<string>,             // what getBandeiras returns
    acceptsReferenceMonth: bool,     // is an expiry equal to the reference month valid?
    today: string)                   // the reference month when none is passed (YYYYMM)

  /** No upper-case letter: brands are never case-folded. */
  predicate NoUpperCase(s: string) { forall i :: 0 <= i < |s| ==> !('A' <= s[i] <= 'Z') }

  /** What the tests demand of the open details. */
  predicate MatchesTests(r: CardRules)
  {
    && r.numberAccepted("4923993827951627")
    && !r.numberAccepted("49239938")
    && "visa" in r.brands
    && "d" !in r.brands
    && forall b :: b in r.brands ==> NoUpperCase(b)
  }

  /** One choice of the open details that meets the tests: the Luhn rule and
      a sample lowercase brand list. */
  const REFERENCE_RULES: CardRules :=
    CardRules(Luhn.LuhnValid,
              ["visa", "mastercard", "elo", "diners", "discover", "amex", "jcb", "aura"],
              true, "201305")

  lemma ReferenceRulesMatchTests()
    ensures MatchesTests(REFERENCE_RULES)
  {
    ReferenceNumberRule();
    ReferenceBrands();
  }

  lemma ReferenceNumberRule()
    ensures REFERENCE_RULES.numberAccepted("4923993827951627")
    ensures !REFERENCE_RULES.numberAccepted("49239938")
  {
    Luhn.TestedNumbers();
  }

  lemma ReferenceBrands()
    ensures "visa" in REFERENCE_RULES.brands && "d" !in REFERENCE_RULES.brands
    ensures forall b :: b in REFERENCE_RULES.brands ==> NoUpperCase(b)
  {
  }

  /** The digits of `s`, in order; every other character is dropped. */
  function OnlyDigits(s: string): (r: string)
    ensures AllDigits(r) && |r| <= |s|
  {
    if s == [] then []
    else (if IsDigitChar(s[0]) then [s[0]] else []) + OnlyDigits(s[1..])
  }

  /** The card number is the digits of the argument; it must not be empty
      and must pass the number rule. */
  predicate NumeroAccepted(r: CardRules, s: string)
  {
    OnlyDigits(s) != [] && r.numberAccepted(OnlyDigits(s))
  }

  predicate IndicadorAccepted(v: Value) { v.VInt? && v.i in INDICADORES }

  predicate CodigoAccepted(v: Value) { Digit(v) }

  predicate NomeAccepted(v: Value) { v.VStr? && v.s != "" }

  predicate BandeiraAccepted(r: CardRules, v: Value) { v.VStr? && v.s in r.brands }

  /** The month compared against: the one passed, or the rules' "today". */
  function ReferenceMonth(r: CardRules, reference: Option<string>): string
  {
    if reference.Some? then reference.value else r.today
  }

  /** Expiry and reference are compared as the numbers their digits denote
      (YYYYMM in the tests; no length or month-range check): earlier is in
      the past; the same month is past unless the rules accept it. */
  predicate Expired(r: CardRules, validade: string, now: string)
  {
    IntCast(validade) < IntCast(now) || (IntCast(validade) == IntCast(now) && !r.acceptsReferenceMonth)
  }

  predicate ValidadeAccepted(r: CardRules, validade: string, reference: Option<string>)
  {
    IsDigits(validade) && !Expired(r, validade, ReferenceMonth(r, reference))
  }

  /** Stripping distributes over concatenation. */
  lemma {:induction false} OnlyDigitsConcat(a: string, b: string)
    ensures OnlyDigits(a + b) == OnlyDigits(a) + OnlyDigits(b)
    decreases |a|
  {
    if a == [] {
      assert a + b == b;
    } else {
      assert (a + b)[0] == a[0] && (a + b)[1..] == a[1..] + b;
      OnlyDigitsConcat(a[1..], b);
    }
  }

  /** A string of digits is left as it is. */
  lemma {:induction false} OnlyDigitsOfDigits(s: string)
    requires AllDigits(s)
    ensures OnlyDigits(s) == s
    decreases |s|
  {
    if s != [] {
      OnlyDigitsOfDigits(s[1..]);
    }
  }

  /** A string without digits strips to nothing. */
  lemma {:induction false} OnlyDigitsOfNonDigits(s: string)
    requires forall i :: 0 <= i < |s| ==> !IsDigitChar(s[i])
    ensures OnlyDigits(s) == []
    decreases |s|
  {
    if s != [] {
      OnlyDigitsOfNonDigits(s[1..]);
    }
  }

  /** Inserting characters that are not digits anywhere in a card number
      changes neither whether it is accepted nor what is stored. */
  lemma InsertNonDigits(r: CardRules, a: string, f: string, b: string)
    requires forall i :: 0 <= i < |f| ==> !IsDigitChar(f[i])
    ensures OnlyDigits(a + f + b) == OnlyDigits(a + b)
    ensures NumeroAccepted(r, a + f + b) <==> NumeroAccepted(r, a + b)
  {
    OnlyDigitsConcat(a + f, b);
    OnlyDigitsConcat(a, f);
    OnlyDigitsConcat(a, b);
    OnlyDigitsOfNonDigits(f);
  }

  /** Each digit of `d` followed by the filler `f`. */
  function Laced(d: string, f: string): string
  {
    if d == [] then [] else [d[0]] + f + Laced(d[1..], f)
  }

  /** A number laced with a filler that holds no digit strips back to the
      number. */
  lemma {:induction false} LacedDigits(d: string, f: string)
    requires AllDigits(d)
    requires forall i :: 0 <= i < |f| ==> !IsDigitChar(f[i])
    ensures OnlyDigits(Laced(d, f)) == d
    decreases |d|
  {
    if d != [] {
      var rest := Laced(d[1..], f);
      assert Laced(d, f) == [d[0]] + f + rest;
      LacedDigits(d[1..], f);
      OnlyDigitsConcat([d[0]] + f, rest);
      OnlyDigitsConcat([d[0]], f);
      OnlyDigitsOfNonDigits(f);
      assert OnlyDigits([d[0]]) == [d[0]];
      assert [d[0]] + d[1..] == d;
    }
  }

  /** So the laced number is accepted exactly when the number is. */
  lemma LacedNumber(r: CardRules, d: string, f: string)
    requires AllDigits(d)
    requires forall i :: 0 <= i < |f| ==> !IsDigitChar(f[i])
    ensures NumeroAccepted(r, Laced(d, f)) <==> NumeroAccepted(r, d)
  {
    LacedDigits(d, f);
    OnlyDigitsOfDigits(d);
  }

  /** `setCartao($s)` and `setCartao` of the digits of `$s` do the same:
      stripping is idempotent. */
  lemma NumeroDependsOnlyOnDigits(r: CardRules, s: string)
    ensures OnlyDigits(OnlyDigits(s)) == OnlyDigits(s)
    ensures NumeroAccepted(r, s) <==> NumeroAccepted(r, OnlyDigits(s))
  {
    OnlyDigitsOfDigits(OnlyDigits(s));
  }

  /** A digit string that the rule accepts is stored unchanged. */
  lemma NumeroRoundTrip(r: CardRules, s: string)
    requires IsDigits(s) && r.numberAccepted(s)
    ensures NumeroAccepted(r, s) && OnlyDigits(s) == s
  {
    OnlyDigitsOfDigits(s);
  }

  /** A brand with an upper-case letter is never accepted: no case folding. */
  lemma BandeiraCaseSensitive(r: CardRules, s: string, i: nat)
    requires MatchesTests(r)
    requires i < |s| && 'A' <= s[i] <= 'Z'
    ensures !BandeiraAccepted(r, VStr(s))
  {
  }

  /** For a digit string, "expired" compares the number it denotes. */
  lemma ExpiredDigits(r: CardRules, validade: string, now: string)
    requires IsDigits(validade)
    ensures Expired(r, validade, now) <==>
      DigitsValue(validade) < IntCast(now) ||
      (DigitsValue(validade) == IntCast(now) && !r.acceptsReferenceMonth)
  {
    LeadingDigitsOfDigits(validade);
  }

  /** An expiry accepted against a reference month stays accepted when it
      is replaced by any later one. */
  lemma ValidadeMonotone(r: CardRules, e: string, later: string, reference: Option<string>)
    requires ValidadeAccepted(r, e, reference)
    requires IsDigits(later) && DigitsValue(later) >= DigitsValue(e)
    ensures ValidadeAccepted(r, later, reference)
  {
    ExpiredDigits(r, e, ReferenceMonth(r, reference));
    ExpiredDigits(r, later, ReferenceMonth(r, reference));
  }

  /** A string with no digit at all, "" among them, is never a card number. */
  lemma NoDigitsRejected(r: CardRules, s: string)
    requires forall i :: 0 <= i < |s| ==> !IsDigitChar(s[i])
    ensures !NumeroAccepted(r, s)
  {
    OnlyDigitsOfNonDigits(s);
  }

  /** tests/CartaoTest.php, numbers: the tested 16-digit number is accepted
      and stored as given. */
  lemma AcceptedNumberTest(r: CardRules)
    requires MatchesTests(r)
    ensures NumeroAccepted(r, "4923993827951627") && OnlyDigits("4923993827951627") == "4923993827951627"
  {
    var s := "4923993827951627";
    assert IsDigits(s);
    NumeroRoundTrip(r, s);
  }

  /** Four digits, each followed by a character that is not a digit, strip
      to the four digits. */
  lemma StripFour(s: string, d: string)
    requires |s| == 8 && |d| == 4 && AllDigits(d)
    requires s[0] == d[0] && s[2] == d[1] && s[4] == d[2] && s[6] == d[3]
    requires !IsDigitChar(s[1]) && !IsDigitChar(s[3]) && !IsDigitChar(s[5]) && !IsDigitChar(s[7])
    ensures OnlyDigits(s) == d
  {
    assert OnlyDigits(s[7..]) == [] by { assert s[7..][1..] == []; }
    assert OnlyDigits(s[6..]) == [d[3]] by { assert s[6..][1..] == s[7..]; }
    assert OnlyDigits(s[5..]) == [d[3]] by { assert s[5..][1..] == s[6..]; }
    assert OnlyDigits(s[4..]) == [d[2], d[3]] by { assert s[4..][1..] == s[5..]; }
    assert OnlyDigits(s[3..]) == [d[2], d[3]] by { assert s[3..][1..] == s[4..]; }
    assert OnlyDigits(s[2..]) == [d[1], d[2], d[3]] by { assert s[2..][1..] == s[3..]; }
    assert OnlyDigits(s[1..]) == [d[1], d[2], d[3]] by { assert s[1..][1..] == s[2..]; }
    assert s[1..] == s[..][1..];
    assert d == [d[0], d[1], d[2], d[3]];
  }

  /** Stripping a concatenation of pieces with known digits, around a
      filler that has none. */
  lemma StripPieces(p1: string, p2: string, f: string, p3: string, p4: string)
    requires forall i :: 0 <= i < |f| ==> !IsDigitChar(f[i])
    ensures OnlyDigits(p1 + p2 + f + p3 + p4) == OnlyDigits(p1) + OnlyDigits(p2) + OnlyDigits(p3) + OnlyDigits(p4)
  {
    InsertNonDigits(REFERENCE_RULES, p1 + p2, f, p3 + p4);
    assert p1 + p2 + f + p3 + p4 == (p1 + p2) + f + (p3 + p4);
    OnlyDigitsConcat(p1 + p2, p3 + p4);
    OnlyDigitsConcat(p1, p2);
    OnlyDigitsConcat(p3, p4);
  }

  /** The argument of tests/CartaoTest.php:64 in pieces: four runs of
      digit-filler pairs, and the doubled filler after the eighth digit.
      This lemma and the next only hand back string literals. Binding them
      to variables keeps the literals out of the `OnlyDigits` terms, which
      the verifier would otherwise unfold character by character until it
      runs out of resources. */
  lemma SplitTestString(x: string) returns (p1: string, p2: string, f: string, p3: string, p4: string)
    requires x == "4a9a2a3a9a9a3a8aa2a7a9a5a1a6a2a7a"
    ensures p1 == "4a9a2a3a" && p2 == "9a9a3a8a" && f == "a" && p3 == "2a7a9a5a" && p4 == "1a6a2a7a"
    ensures x == p1 + p2 + f + p3 + p4
  {
    p1, p2, f, p3, p4 := "4a9a2a3a", "9a9a3a8a", "a", "2a7a9a5a", "1a6a2a7a";
  }

  /** The tested card number in four-digit runs. */
  lemma SplitTestNumber() returns (d1: string, d2: string, d3: string, d4: string)
    ensures d1 == "4923" && d2 == "9938" && d3 == "2795" && d4 == "1627"
    ensures d1 + d2 + d3 + d4 == "4923993827951627"
  {
    d1, d2, d3, d4 := "4923", "9938", "2795", "1627";
  }

  /** tests/CartaoTest.php, stripping: the letter-laced argument is
      accepted and strips to the tested card number. */
  lemma StrippedTestNumber(r: CardRules, x: string)
    requires MatchesTests(r)
    requires x == "4a9a2a3a9a9a3a8aa2a7a9a5a1a6a2a7a"
    ensures OnlyDigits(x) == "4923993827951627" && NumeroAccepted(r, x)
  {
    var p1, p2, f, p3, p4 := SplitTestString(x);
    var d1, d2, d3, d4 := SplitTestNumber();
    StripPieces(p1, p2, f, p3, p4);
    StripFour(p1, d1);
    StripFour(p2, d2);
    StripFour(p3, d3);
    StripFour(p4, d4);
  }

  /** tests/CartaoTest.php, numbers: "" and the short "49239938" are
      rejected. */
  lemma NumeroTests(r: CardRules)
    requires MatchesTests(r)
    ensures !NumeroAccepted(r, "")
    ensures !NumeroAccepted(r, "49239938")
  {
    OnlyDigitsOfDigits("49239938");
  }

  /** tests/CartaoTest.php, indicators: 0, 1, 2, 9 pass; 3, -1, null, "d",
      an array and an object throw. */
  lemma IndicadorTests()
    ensures IndicadorAccepted(VInt(0)) && IndicadorAccepted(VInt(1))
    ensures IndicadorAccepted(VInt(2)) && IndicadorAccepted(VInt(9))
    ensures !IndicadorAccepted(VInt(3)) && !IndicadorAccepted(VInt(-1)) && !IndicadorAccepted(VNull)
    ensures !IndicadorAccepted(VStr("d")) && !IndicadorAccepted(VArr(1)) && !IndicadorAccepted(VObj)
  {
  }

  /** tests/CartaoTest.php, security code: 123 passes; letters, punctuation
      and spaces throw. */
  lemma CodigoTests()
    ensures CodigoAccepted(VInt(123))
    ensures !CodigoAccepted(VStr("aaa")) && !CodigoAccepted(VStr("22.")) && !CodigoAccepted(VStr("22 2"))
  {
    assert IntText(123) == "123";
    assert !IsDigitChar("aaa"[0]) && !IsDigitChar("22."[2]) && !IsDigitChar("22 2"[2]);
  }

  /** tests/CartaoTest.php, holder name: a short name is kept, sixty 'a's
      become fifty; null, "", an array and an object throw. */
  lemma NomeTests()
    ensures NomeAccepted(VStr("Thiago Paes 1000"))
    ensures Truncate("Thiago Paes 1000", NOME_MAXIMO) == "Thiago Paes 1000"
    ensures NomeAccepted(VStr(seq(60, _ => 'a')))
    ensures Truncate(seq(60, _ => 'a'), NOME_MAXIMO) == seq(50, _ => 'a')
    ensures !NomeAccepted(VNull) && !NomeAccepted(VStr("")) && !NomeAccepted(VArr(1)) && !NomeAccepted(VObj)
  {
  }

  /** An expiry later than the reference month is accepted and an earlier
      one is rejected (the tests use 201606 against 201302, and 201210
      against 201305). */
  lemma ValidadeOrder(r: CardRules, e: string, now: string)
    requires IsDigits(e) && IsDigits(now)
    ensures DigitsValue(e) > DigitsValue(now) ==> ValidadeAccepted(r, e, Some(now))
    ensures DigitsValue(e) < DigitsValue(now) ==> !ValidadeAccepted(r, e, Some(now))
  {
    ExpiredDigits(r, e, now);
    LeadingDigitsOfDigits(now);
  }

  /** The value of a six-digit YYYYMM string, digit by digit. */
  lemma MonthValue(s: string)
    requires |s| == 6 && AllDigits(s)
    ensures DigitsValue(s) == 100000 * DigitValue(s[0]) + 10000 * DigitValue(s[1]) + 1000 * DigitValue(s[2])
                              + 100 * DigitValue(s[3]) + 10 * DigitValue(s[4]) + DigitValue(s[5])
  {
    var v0, v1, v2 := DigitValue(s[0]), DigitValue(s[1]), DigitValue(s[2]);
    var v3, v4, v5 := DigitValue(s[3]), DigitValue(s[4]), DigitValue(s[5]);
    assert DigitsValue(s[..1]) == v0 by { assert s[..1][..0] == []; }
    assert DigitsValue(s[..2]) == 10 * v0 + v1 by { assert s[..2][..1] == s[..1]; }
    assert DigitsValue(s[..3]) == 100 * v0 + 10 * v1 + v2 by { assert s[..3][..2] == s[..2]; }
    assert DigitsValue(s[..4]) == 1000 * v0 + 100 * v1 + 10 * v2 + v3 by { assert s[..4][..3] == s[..3]; }
    assert DigitsValue(s[..5]) == 10000 * v0 + 1000 * v1 + 100 * v2 + 10 * v3 + v4 by { assert s[..5][..4] == s[..4]; }
    assert s[..6] == s;
    assert s[..5] == s[..|s| - 1];
  }

  /** tests/CartaoTest.php, expiry: 201606 against 201302 is accepted,
      201210 against 201305 throws. */
  lemma ValidadeTestedMonths(r: CardRules)
    ensures ValidadeAccepted(r, "201606", Some("201302"))
    ensures !ValidadeAccepted(r, "201210", Some("201305"))
  {
    var a, b, c, d := "201606", "201302", "201210", "201305";
    MonthValue(a); MonthValue(b); MonthValue(c); MonthValue(d);
    ValidadeOrder(r, a, b);
    ValidadeOrder(r, c, d);
  }

  /** tests/CartaoTest.php, expiry: "aaa", "22." and "22 2" throw whatever
      the reference month. */
  lemma ValidadeTests(r: CardRules, reference: Option<string>)
    ensures !ValidadeAccepted(r, "aaa", reference)
    ensures !ValidadeAccepted(r, "22.", reference)
    ensures !ValidadeAccepted(r, "22 2", reference)
  {
    assert !IsDigitChar("aaa"[0]) && !IsDigitChar("22."[2]) && !IsDigitChar("22 2"[2]);
  }

  /** tests/CartaoTest.php, brand: "visa" passes; "MASTERCARD", 3, -1, null,
      "d", an array and an object throw. */
  lemma BandeiraTests(r: CardRules)
    requires MatchesTests(r)
    ensures BandeiraAccepted(r, VStr("visa"))
    ensures !BandeiraAccepted(r, VStr("MASTERCARD"))
    ensures !BandeiraAccepted(r, VInt(3)) && !BandeiraAccepted(r, VInt(-1)) && !BandeiraAccepted(r, VNull)
    ensures !BandeiraAccepted(r, VStr("d")) && !BandeiraAccepted(r, VArr(1)) && !BandeiraAccepted(r, VObj)
  {
    BandeiraCaseSensitive(r, "MASTERCARD", 0);
  }

  class Cartao {
    const rules: CardRules
    var cartao: string
    var bandeira: string
    var indicador: Value
    var codigoSeguranca: Value
    var nomePortador: string
    var validade: string
    var token: string

    /** Every field holds its initial value or one its setter accepted. */
    ghost predicate Valid()
      reads this
    {
      && MatchesTests(rules)
      && (cartao == "" || (IsDigits(cartao) && rules.numberAccepted(cartao)))
      && (bandeira == "" || bandeira in rules.brands)
      && (indicador == VNull || IndicadorAccepted(indicador))
      && (codigoSeguranca == VNull || CodigoAccepted(codigoSeguranca))
      && |nomePortador| <= NOME_MAXIMO
      && (validade == "" || IsDigits(validade))
    }

    constructor (rules: CardRules)
      requires MatchesTests(rules)
      ensures Valid() && this.rules == rules
      ensures GetCartao() == "" && GetBandeira() == "" && GetIndicador() == VNull
      ensures GetCodigoSeguranca() == VNull && GetNomePortador() == "" && GetValidade() == ""
      ensures !HasToken()
    {
      this.rules := rules;
      cartao := "";
      bandeira := "";
      indicador := VNull;
      codigoSeguranca := VNull;
      nomePortador := "";
      validade := "";
      token := "";
    }

    function GetCartao(): string reads this { cartao }

    function GetBandeira(): string reads this { bandeira }

    function GetIndicador(): Value reads this { indicador }

    function GetCodigoSeguranca(): Value reads this { codigoSeguranca }

    function GetNomePortador(): string reads this { nomePortador }

    function GetValidade(): string reads this { validade }

    function GetToken(): string reads this { token }

    function HasToken(): bool reads this { token != "" }

    /** The supported brands, fixed for the object's lifetime. */
    function GetBandeiras(): (brands: seq<string>)
      reads this
      requires Valid()
      ensures "visa" in brands && "d" !in brands
      ensures forall b :: b in brands ==> NoUpperCase(b)
    {
      rules.brands
    }

    method SetCartao(s: string) returns (r: Result<Cartao>)
      requires Valid()
      modifies this`cartao
      ensures Valid()
      ensures r.Ok? <==> NumeroAccepted(rules, s)
      ensures r.Ok? ==> r.value == this && GetCartao() == OnlyDigits(s)
      ensures r.Err? ==> unchanged(this)
    {
      var digits := OnlyDigits(s);
      if digits == [] || !rules.numberAccepted(digits) {
        return Err(None);
      }
      cartao := digits;
      return Ok(this);
    }

    method SetIndicador(v: Value) returns (r: Result<Cartao>)
      requires Valid()
      modifies this`indicador
      ensures Valid()
      ensures r.Ok? <==> IndicadorAccepted(v)
      ensures r.Ok? ==> r.value == this && GetIndicador() == v
      ensures r.Err? ==> unchanged(this)
    {
      if !IndicadorAccepted(v) {
        return Err(None);
      }
      indicador := v;
      return Ok(this);
    }

    method SetCodigoSeguranca(v: Value) returns (r: Result<Cartao>)
      requires Valid()
      modifies this`codigoSeguranca
      ensures Valid()
      ensures r.Ok? <==> CodigoAccepted(v)
      ensures r.Ok? ==> r.value == this && GetCodigoSeguranca() == v
      ensures r.Err? ==> unchanged(this)
    {
      if !CodigoAccepted(v) {
        return Err(None);
      }
      codigoSeguranca := v;
      return Ok(this);
    }

    method SetNomePortador(v: Value) returns (r: Result<Cartao>)
      requires Valid()
      modifies this`nomePortador
      ensures Valid()
      ensures r.Ok? <==> NomeAccepted(v)
      ensures r.Ok? ==> r.value == this && GetNomePortador() <= v.s
      ensures r.Ok? ==> |GetNomePortador()| == if |v.s| <= NOME_MAXIMO then |v.s| else NOME_MAXIMO
      ensures r.Err? ==> unchanged(this)
    {
      if !NomeAccepted(v) {
        return Err(None);
      }
      nomePortador := Truncate(v.s, NOME_MAXIMO);
      return Ok(this);
    }

    /** With no reference month, the rules' "today" is used. */
    method SetValidade(e: string, reference: Option<string> := None) returns (r: Result<Cartao>)
      requires Valid()
      modifies this`validade
      ensures Valid()
      ensures r.Ok? <==> ValidadeAccepted(rules, e, reference)
      ensures r.Ok? ==> r.value == this && GetValidade() == e
      ensures r.Err? ==> unchanged(this)
    {
      if !ValidadeAccepted(rules, e, reference) {
        return Err(None);
      }
      validade := e;
      return Ok(this);
    }

    method SetBandeira(v: Value) returns (r: Result<Cartao>)
      requires Valid()
      modifies this`bandeira
      ensures Valid()
      ensures r.Ok? <==> BandeiraAccepted(rules, v)
      ensures r.Ok? ==> r.value == this && GetBandeira() == v.s && GetBandeira() in GetBandeiras()
      ensures r.Err? ==> unchanged(this)
    {
      if !BandeiraAccepted(rules, v) {
        return Err(None);
      }
      bandeira := v.s;
      return Ok(this);
    }

    /** Returns the token itself, not the object. */
    method SetToken(t: string) returns (r: string)
      requires Valid()
      modifies this`token
      ensures Valid()
      ensures r == t && GetToken() == t && (HasToken() <==> t != "")
    {
      token := t;
      return t;
    }
  }
}
