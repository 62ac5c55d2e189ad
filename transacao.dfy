/** The order-level record of a payment request (`Transacao`): eleven
    private fields with defaults, one validating or plain setter per field,
    and getters that cast the stored field. */
module TransacaoModel {
  import opened Php
  import opened Validation

  const PARCELAS_MINIMAS: int := 1
  const MOEDA_PADRAO: int := 986

  /** The messages of the `InvalidArgumentException`s the setters throw. */
  const TID_INVALIDO: string := "Caracteres inv\U{e1}lidos no TID."
  const PRODUTO_INVALIDO: string := "Tipo de produto inv\U{e1}lido."
  const PARCELAS_INVALIDAS: string := "N\U{fa}mero de parcelas inv\U{e1}lido."
  const MOEDA_INVALIDA: string := "Moeda inv\U{e1}lida"

  /** A `DateTimeImmutable`: stored and handed back, never inspected. */
  datatype Instant = Instant(iso8601: string)

  /** The TID must be alphanumeric and not empty. */
  predicate TidAccepted(v: Value) { Alnum(v) && NotEmpty(v) }

  /** Product codes: 1 credit, 2 store installments, 3 issuer installments, A debit. */
  predicate ProdutoAccepted(p: string) { p == "1" || p == "2" || p == "3" || p == "A" }

  /** Installments: digits, not empty, at least PARCELAS_MINIMAS. */
  predicate ParcelasAccepted(v: Value) { Digit(v) && NotEmpty(v) && AtLeast(v, PARCELAS_MINIMAS) }

  /** Currency: digits and not empty; no check against the ISO 4217 code list. */
  predicate MoedaAccepted(v: Value) { Digit(v) && NotEmpty(v) }

  /** What `setNumero` stores: `(int) substr((string) $n, 0, 50)`. */
  function NumeroPedido(n: int): int
  {
    IntCast(Truncate(IntText(n), 50))
  }

  /** The 50-character cut never bites a 64-bit int, so the order number
      comes back unchanged. */
  lemma NumeroRoundTrip(n: Int64)
    ensures NumeroPedido(n) == n
  {
    Int64TextLength(n);
    IntTextRoundTrip(n);
  }

  /** Installments are accepted exactly when the text is digits denoting at
      least one; the stored count is that number. */
  lemma ParcelasAcceptedValue(v: Value)
    ensures ParcelasAccepted(v) <==> Digit(v) && DigitsValue(ScalarText(v).value) >= PARCELAS_MINIMAS
    ensures ParcelasAccepted(v) ==> IntOf(v) == DigitsValue(ScalarText(v).value)
  {
    if Digit(v) {
      DigitIntOf(v);
    }
  }

  /** An int currency code is accepted exactly when it is positive: negatives
      fail `digit` and 0 is empty. The default 986 passes. */
  lemma MoedaIntAccepted(n: int)
    ensures MoedaAccepted(VInt(n)) <==> n > 0
  {
    DigitInt(n);
  }

  /** "0" and 0 are alphanumeric but empty in PHP's sense, so they are not
      valid TIDs; any other alphanumeric string is. */
  lemma TidAcceptedString(t: string)
    ensures TidAccepted(VStr(t)) <==> IsAlnum(t) && t != "0"
    ensures !TidAccepted(VInt(0)) && !TidAccepted(VNull)
  {
  }

  class Transacao {
    var tid: Value
    var produto: Value
    var parcelas: int
    var moeda: Value
    var capturar: Value
    var autorizar: Int64
    var dataHora: Option<Instant>
    var numeroPedido: Value
    var valorPedido: Value
    var descricao: Option<string>
    var gerarToken: bool

    /** What every reachable object satisfies: each validated field holds
        its default or a value its setter accepted. */
    ghost predicate Valid()
      reads this
    {
      && (tid == VNull || TidAccepted(tid))
      && (produto == VInt(1) || (produto.VStr? && ProdutoAccepted(produto.s)))
      && parcelas >= PARCELAS_MINIMAS
      && MoedaAccepted(moeda)
      && (capturar == VStr("false") || capturar.VBool?)
      && (numeroPedido == VNull || numeroPedido.VInt?)
      && (valorPedido == VNull || valorPedido.VInt?)
    }

    /** A fresh transaction and its defaults. The capture flag starts as the
        string "false", which casts to true. */
    constructor ()
      ensures Valid()
      ensures GetTid() == VNull && GetProduto() == VInt(1)
      ensures GetParcelas() == PARCELAS_MINIMAS && GetMoeda() == VInt(MOEDA_PADRAO)
      ensures GetCapturar() && GetAutorizar() == 0 && GetDataHora() == None
      ensures GetNumero() == 0 && GetValor() == 0 && GetDescricao() == "" && !IsGerarToken()
    {
      tid := VNull;
      produto := VInt(1);
      parcelas := PARCELAS_MINIMAS;
      moeda := VInt(MOEDA_PADRAO);
      capturar := VStr("false");
      autorizar := 0;
      dataHora := None;
      numeroPedido := VNull;
      valorPedido := VNull;
      descricao := None;
      gerarToken := false;
      new;
      MoedaIntAccepted(MOEDA_PADRAO);
    }

    function GetTid(): Value reads this { tid }

    function GetProduto(): Value reads this { produto }

    function GetParcelas(): int reads this { parcelas }

    function GetMoeda(): Value reads this { moeda }

    function GetCapturar(): bool reads this { Truthy(capturar) }

    function GetAutorizar(): Int64 reads this { autorizar }

    function GetDataHora(): Option<Instant> reads this { dataHora }

    function GetNumero(): int reads this { IntOf(numeroPedido) }

    function GetValor(): int reads this { IntOf(valorPedido) }

    function GetDescricao(): string reads this { if descricao.Some? then descricao.value else "" }

    function IsGerarToken(): bool reads this { gerarToken }

    method SetTid(v: Value) returns (r: Result<Transacao>)
      requires Valid()
      modifies this`tid
      ensures Valid()
      ensures r.Ok? <==> TidAccepted(v)
      ensures r.Ok? ==> r.value == this && GetTid() == v
      ensures r.Err? ==> r.message == Some(TID_INVALIDO) && unchanged(this)
    {
      if !TidAccepted(v) {
        return Err(Some(TID_INVALIDO));
      }
      tid := v;
      return Ok(this);
    }

    method SetProduto(p: string) returns (r: Result<Transacao>)
      requires Valid()
      modifies this`produto
      ensures Valid()
      ensures r.Ok? <==> ProdutoAccepted(p)
      ensures r.Ok? ==> r.value == this && GetProduto() == VStr(p)
      ensures r.Err? ==> r.message == Some(PRODUTO_INVALIDO) && unchanged(this)
    {
      if ProdutoAccepted(p) {
        produto := VStr(p);
        return Ok(this);
      }
      return Err(Some(PRODUTO_INVALIDO));
    }

    method SetParcelas(v: Value := VInt(PARCELAS_MINIMAS)) returns (r: Result<Transacao>)
      requires Valid()
      modifies this`parcelas
      ensures Valid()
      ensures r.Ok? <==> ParcelasAccepted(v)
      ensures r.Ok? ==> r.value == this && GetParcelas() == IntOf(v)
      ensures r.Ok? ==> GetParcelas() == DigitsValue(ScalarText(v).value) >= PARCELAS_MINIMAS
      ensures r.Err? ==> r.message == Some(PARCELAS_INVALIDAS) && unchanged(this)
    {
      if !ParcelasAccepted(v) {
        return Err(Some(PARCELAS_INVALIDAS));
      }
      ParcelasAcceptedValue(v);
      parcelas := IntOf(v);
      return Ok(this);
    }

    method SetMoeda(v: Value := VInt(MOEDA_PADRAO)) returns (r: Result<Transacao>)
      requires Valid()
      modifies this`moeda
      ensures Valid()
      ensures r.Ok? <==> MoedaAccepted(v)
      ensures r.Ok? ==> r.value == this && GetMoeda() == v
      ensures r.Err? ==> r.message == Some(MOEDA_INVALIDA) && unchanged(this)
    {
      if !MoedaAccepted(v) {
        return Err(Some(MOEDA_INVALIDA));
      }
      moeda := v;
      return Ok(this);
    }

    method SetCapturar(b: bool := false) returns (r: Transacao)
      requires Valid()
      modifies this`capturar
      ensures Valid() && r == this && GetCapturar() == b
    {
      capturar := VBool(b);
      return this;
    }

    /** No range check: the 0-3 codes of the documentation are not enforced. */
    method SetAutorizar(n: Int64 := 0) returns (r: Transacao)
      requires Valid()
      modifies this`autorizar
      ensures Valid() && r == this && GetAutorizar() == n
    {
      autorizar := n;
      return this;
    }

    method SetDataHora(d: Instant) returns (r: Transacao)
      requires Valid()
      modifies this`dataHora
      ensures Valid() && r == this && GetDataHora() == Some(d)
    {
      dataHora := Some(d);
      return this;
    }

    method SetNumero(n: Int64) returns (r: Transacao)
      requires Valid()
      modifies this`numeroPedido
      ensures Valid() && r == this && GetNumero() == n
    {
      numeroPedido := VInt(NumeroPedido(n));
      NumeroRoundTrip(n);
      return this;
    }

    method SetValor(n: Int64) returns (r: Transacao)
      requires Valid()
      modifies this`valorPedido
      ensures Valid() && r == this && GetValor() == n
    {
      valorPedido := VInt(n);
      return this;
    }

    method SetDescricao(s: string) returns (r: Transacao)
      requires Valid()
      modifies this`descricao
      ensures Valid() && r == this && GetDescricao() == s
    {
      descricao := Some(s);
      return this;
    }

    method SetGerarToken(b: bool := true) returns (r: Transacao)
      requires Valid()
      modifies this`gerarToken
      ensures Valid() && r == this && IsGerarToken() == b
    {
      gerarToken := b;
      return this;
    }
  }
}
