/** The mortgage simulation engine behind the `/api/simulacao` endpoint
    (src/app/api/simulacao/route.ts): installment rounding, age and term rules,
    insurance premiums, the level-payment (PRICE) formula and its inverse, the two
    bounded fixed-point searches for the financed amount, and the request rules. */
module Simulacao {
  import opened Wrappers
  import opened Strings
  import opened Decimal

  const TaxaJurosNominalAnual: real := 0.109259
  const TaxaJurosMensal: real := TaxaJurosNominalAnual / 12.0
  const TaxaMipMensal: real := 0.000116
  const TaxaDfiMensal: real := 0.000066
  const PrazoObraPadrao: nat := 36
  const PrazoMinimoAmortizacao: nat := 120
  const IdadeMaxima: real := 67.54
  const IdadeMinimaReducao: real := 45.0
  const IdadeMinima: real := 18.0
  /** Round cap of both fixed-point searches. */
  const MaxIteracoes: nat := 20
  /** Convergence tolerance of both fixed-point searches. */
  const Tolerancia: real := 0.01

  datatype Sistema = SAC | PRICE

  datatype Parametros = Parametros(ltvMaximo: real, limiteRenda: real, prazoMaximoAmortizacao: nat)

  function ParametrosDe(s: Sistema): (p: Parametros)
    ensures 0.0 < p.ltvMaximo < 1.0 && 0.0 < p.limiteRenda < 1.0
    ensures p.prazoMaximoAmortizacao >= PrazoMinimoAmortizacao
  {
    match s
    case SAC => Parametros(0.90, 0.30, 420)
    case PRICE => Parametros(0.80, 0.25, 360)
  }

  function Min(a: real, b: real): real { if a <= b then a else b }

  function Abs(x: real): real { if x < 0.0 then -x else x }

  // ---------------------------------------------------------------------------
  // Installment rounding

  /** `ajustarParcela`: truncate to whole cents, then one cent less. */
  function AjustarParcela(valor: real): (r: real)
    ensures valor - 0.02 < r <= valor - 0.01
  {
    (valor * 100.0).Floor as real / 100.0 - 0.01
  }

  /** The adjusted installment plus one cent is a whole number of cents. */
  lemma AjustarParcelaCentavosInteiros(valor: real)
    ensures var c := (AjustarParcela(valor) + 0.01) * 100.0; c.Floor as real == c
  {
    var k := (valor * 100.0).Floor;
    assert (AjustarParcela(valor) + 0.01) * 100.0 == k as real;
  }

  /** On a whole number of cents the adjustment takes exactly one cent off. */
  lemma AjustarParcelaCentavos(k: int)
    ensures AjustarParcela(k as real / 100.0) == k as real / 100.0 - 0.01
  {
    assert (k as real / 100.0) * 100.0 == k as real;
  }

  /** The adjustment never decreases when the value grows. */
  lemma AjustarParcelaMonotona(a: real, b: real)
    requires a <= b
    ensures AjustarParcela(a) <= AjustarParcela(b)
  {
    var fa, fb := (a * 100.0).Floor, (b * 100.0).Floor;
    assert fa as real <= a * 100.0 <= b * 100.0 < fb as real + 1.0;
    assert fa <= fb;
  }

  // ---------------------------------------------------------------------------
  // Age

  /** A calendar date; `mes` is 0-based like `Date.getMonth`. */
  datatype Data = Data(ano: int, mes: int, dia: int)

  /** Whole calendar months between the two dates, ignoring the day of the month. */
  function MesesEntre(hoje: Data, nascimento: Data): int {
    (hoje.ano - nascimento.ano) * 12 + (hoje.mes - nascimento.mes)
  }

  /** The age `calcularIdadePrecisa` computes, in closed form. */
  function Idade(hoje: Data, nascimento: Data): real {
    MesesEntre(hoje, nascimento) as real / 12.0
  }

  /** `calcularIdadePrecisa`, with today's date as a parameter: the borrow of a year and
      twelve months cancels, so the age is the whole-month difference over twelve and the
      day of the month never matters. */
  method CalcularIdadePrecisa(hoje: Data, nascimento: Data) returns (idade: real)
    ensures idade * 12.0 == MesesEntre(hoje, nascimento) as real
  {
    var anos := hoje.ano - nascimento.ano;
    var meses := hoje.mes - nascimento.mes;
    var dias := hoje.dia - nascimento.dia;
    if meses < 0 || (meses == 0 && dias < 0) {
      anos := anos - 1;
      meses := meses + 12;
    }
    idade := anos as real + meses as real / 12.0;
  }

  /** Completed months in the usual sense: the current month counts only once its day is reached. */
  function MesesCompletos(hoje: Data, nascimento: Data): int {
    MesesEntre(hoje, nascimento) - (if hoje.dia < nascimento.dia then 1 else 0)
  }

  /** Before the birthday's day of the month the computed age is one month ahead of the completed
      months, so on the eve of an 18th birthday the applicant already counts as 18. */
  lemma IdadeAdiantadaAntesDoDia(hoje: Data, nascimento: Data)
    requires hoje.dia < nascimento.dia
    ensures Idade(hoje, nascimento) * 12.0 == MesesCompletos(hoje, nascimento) as real + 1.0
  {
  }

  // ---------------------------------------------------------------------------
  // Maximum amortization term

  /** `calcularPrazoMaximo`: the system's base term below 45, reduced linearly over the
      22.54 years up to the maximum age, never below the 120-month minimum. */
  function CalcularPrazoMaximo(idade: real, s: Sistema): (r: int)
    ensures PrazoMinimoAmortizacao <= r <= ParametrosDe(s).prazoMaximoAmortizacao
    ensures idade < IdadeMinimaReducao ==> r == ParametrosDe(s).prazoMaximoAmortizacao
    ensures idade >= IdadeMaxima ==> r == PrazoMinimoAmortizacao
  {
    var base := ParametrosDe(s).prazoMaximoAmortizacao;
    if idade < IdadeMinimaReducao then base
    else
      var faixaReducao := IdadeMaxima - IdadeMinimaReducao;
      var fatorReducao := (idade - IdadeMinimaReducao) / faixaReducao;
      PrazoReduzido(base, fatorReducao)
  }

  /** `max(120, floor(base * (1 - fator)))` for a non-negative reduction factor. */
  function PrazoReduzido(base: nat, fator: real): (r: int)
    requires fator >= 0.0 && base >= PrazoMinimoAmortizacao
    ensures PrazoMinimoAmortizacao <= r <= base
    ensures fator >= 1.0 ==> r == PrazoMinimoAmortizacao
  {
    var reduzido := (base as real * (1.0 - fator)).Floor;
    assert reduzido <= base by { assert base as real * (1.0 - fator) <= base as real; }
    assert fator >= 1.0 ==> reduzido <= 0 by {
      if fator >= 1.0 { assert base as real * (1.0 - fator) <= 0.0; }
    }
    if reduzido < PrazoMinimoAmortizacao then PrazoMinimoAmortizacao else reduzido
  }

  /** An older applicant never gets a longer term. */
  lemma PrazoMaximoNaoCrescente(a: real, b: real, s: Sistema)
    requires a <= b
    ensures CalcularPrazoMaximo(b, s) <= CalcularPrazoMaximo(a, s)
  {
    var base := ParametrosDe(s).prazoMaximoAmortizacao;
    if a >= IdadeMinimaReducao {
      var faixa := IdadeMaxima - IdadeMinimaReducao;
      var fa, fb := (a - IdadeMinimaReducao) / faixa, (b - IdadeMinimaReducao) / faixa;
      assert fa <= fb;
      assert base as real * (1.0 - fb) <= base as real * (1.0 - fa);
    }
  }

  // ---------------------------------------------------------------------------
  // Insurance premiums

  /** The life-insurance age factor of `calcularSeguroMIP`: starting from 1, each band whose
      age limit is exceeded overwrites the factor, in increasing order of age. */
  function FatorIdade(idade: real): (f: real)
    ensures 1.0 <= f <= 6.0
    ensures idade <= 35.0 ==> f == 1.0
  {
    var f0 := 1.0;
    var f1 := if idade > 35.0 then 1.2 else f0;
    var f2 := if idade > 40.0 then 1.5 else f1;
    var f3 := if idade > 45.0 then 2.0 else f2;
    var f4 := if idade > 50.0 then 2.5 else f3;
    var f5 := if idade > 55.0 then 3.0 else f4;
    var f6 := if idade > 60.0 then 4.0 else f5;
    var f7 := if idade > 65.0 then 5.0 else f6;
    if idade > 70.0 then 6.0 else f7
  }

  /** The factor is the one of the last band strictly exceeded: an independent reading
      of the table from its top band down. */
  function FatorPorFaixaMaisAlta(idade: real): real {
    if idade > 70.0 then 6.0
    else if idade > 65.0 then 5.0
    else if idade > 60.0 then 4.0
    else if idade > 55.0 then 3.0
    else if idade > 50.0 then 2.5
    else if idade > 45.0 then 2.0
    else if idade > 40.0 then 1.5
    else if idade > 35.0 then 1.2
    else 1.0
  }

  /** Applying the bands in increasing order leaves the factor of the highest band exceeded. */
  lemma FatorIdadeUltimaFaixa(idade: real)
    ensures FatorIdade(idade) == FatorPorFaixaMaisAlta(idade)
  {
  }

  /** The age factor never decreases with age. */
  lemma FatorIdadeMonotono(a: real, b: real)
    requires a <= b
    ensures FatorIdade(a) <= FatorIdade(b)
  {
  }

  /** `calcularSeguroMIP`: the monthly life-insurance premium on the outstanding balance. */
  function SeguroMIP(saldoDevedor: real, idade: real): real {
    saldoDevedor * TaxaMipMensal * FatorIdade(idade)
  }

  /** The life premium lies between the base rate and six times it, and is the base rate up to 35. */
  lemma SeguroMIPLimites(saldoDevedor: real, idade: real)
    requires saldoDevedor >= 0.0
    ensures saldoDevedor * TaxaMipMensal <= SeguroMIP(saldoDevedor, idade) <= saldoDevedor * TaxaMipMensal * 6.0
    ensures idade <= 35.0 ==> SeguroMIP(saldoDevedor, idade) == saldoDevedor * TaxaMipMensal
  {
    var f := FatorIdade(idade);
    var b := saldoDevedor * TaxaMipMensal;
    assert b * 1.0 <= b * f <= b * 6.0;
  }

  /** The life premium grows with both the balance and the age. */
  lemma SeguroMIPMonotono(s1: real, s2: real, a1: real, a2: real)
    requires 0.0 <= s1 <= s2 && a1 <= a2
    ensures SeguroMIP(s1, a1) <= SeguroMIP(s2, a2)
  {
    FatorIdadeMonotono(a1, a2);
    var f1, f2 := FatorIdade(a1), FatorIdade(a2);
    assert s1 * TaxaMipMensal * f1 <= s2 * TaxaMipMensal * f1;
    assert s2 * TaxaMipMensal * f1 <= s2 * TaxaMipMensal * f2;
  }

  /** `calcularSeguroDFI`: the property premium, a fixed fraction of the property value. */
  function SeguroDFI(valorImovel: real): (r: real)
    ensures valorImovel >= 0.0 ==> 0.0 <= r <= valorImovel
    ensures r * 1000000.0 == valorImovel * 66.0
  {
    valorImovel * TaxaDfiMensal
  }

  // ---------------------------------------------------------------------------
  // Level payment (PRICE)

  lemma DivisaoNaoNegativa(x: real, y: real)
    requires y > 0.0
    ensures x >= 0.0 ==> x / y >= 0.0
    ensures x > 0.0 ==> x / y > 0.0
  {
    var q := x / y;
    assert q * y == x;
  }

  /** `calcularPrestacaoPRICE`: the installment that repays `v` in `n` months at rate `i`. */
  function PrestacaoPRICE(v: real, i: real, n: nat): (r: real)
    requires n > 0 && i >= 0.0
    ensures i == 0.0 ==> r * n as real == v
    ensures v >= 0.0 ==> r >= 0.0
  {
    if i == 0.0 then v / n as real
    else
      PowAboveOne(1.0 + i, n);
      var fator := Pow(1.0 + i, n);
      assert i * fator > 0.0;
      DivisaoNaoNegativa(v * (i * fator), fator - 1.0);
      v * (i * fator) / (fator - 1.0)
  }

  /** `calcularValorFinanciadoFromPrestacao`: the amount an installment `p` repays in `n` months. */
  function ValorFinanciadoFromPrestacao(p: real, i: real, n: nat): (r: real)
    requires n > 0 && i >= 0.0
    ensures i == 0.0 ==> r == p * n as real
    ensures p >= 0.0 ==> r >= 0.0
  {
    if i == 0.0 then p * n as real
    else
      PowAboveOne(1.0 + i, n);
      var fator := Pow(1.0 + i, n);
      assert i * fator > 0.0;
      DivisaoNaoNegativa(p * (fator - 1.0), i * fator);
      p * (fator - 1.0) / (i * fator)
  }

  /** Both formulas scale by a positive factor `c`: `PrestacaoPRICE(v) == v * c` and
      `ValorFinanciadoFromPrestacao(p) == p / c`. */
  function FatorPRICE(i: real, n: nat): (c: real)
    requires n > 0 && i >= 0.0
    ensures c > 0.0
  {
    if i == 0.0 then 1.0 / n as real
    else
      PowAboveOne(1.0 + i, n);
      var fator := Pow(1.0 + i, n);
      (i * fator) / (fator - 1.0)
  }

  lemma {:induction false} FormasPRICE(v: real, p: real, i: real, n: nat)
    requires n > 0 && i >= 0.0
    ensures PrestacaoPRICE(v, i, n) == v * FatorPRICE(i, n)
    ensures ValorFinanciadoFromPrestacao(p, i, n) * FatorPRICE(i, n) == p
  {
    if i > 0.0 {
      PowAboveOne(1.0 + i, n);
      var f := Pow(1.0 + i, n);
      assert i * f > 0.0;
      MultiplicarDividir(v, i * f, f - 1.0);
      DividirInverso(p, f - 1.0, i * f);
    }
  }

  lemma MultiplicarDividir(v: real, a: real, b: real)
    requires b != 0.0
    ensures v * a / b == v * (a / b)
  {
  }

  lemma DividirInverso(p: real, a: real, b: real)
    requires a != 0.0 && b != 0.0
    ensures p * a / b * (b / a) == p
  {
    var x := p * a / b;
    assert x * b == p * a;
    assert x * (b / a) * a == p * a;
  }

  /** Reading the amount back from its installment gives the amount. */
  lemma PrestacaoIdaEVolta(v: real, i: real, n: nat)
    requires n > 0 && i >= 0.0
    ensures ValorFinanciadoFromPrestacao(PrestacaoPRICE(v, i, n), i, n) == v
  {
    var c := FatorPRICE(i, n);
    var p := PrestacaoPRICE(v, i, n);
    FormasPRICE(v, p, i, n);
    var w := ValorFinanciadoFromPrestacao(p, i, n);
    assert w * c == v * c;
  }

  /** The installment of the amount an installment repays is that installment. */
  lemma ValorFinanciadoIdaEVolta(p: real, i: real, n: nat)
    requires n > 0 && i >= 0.0
    ensures PrestacaoPRICE(ValorFinanciadoFromPrestacao(p, i, n), i, n) == p
  {
    var w := ValorFinanciadoFromPrestacao(p, i, n);
    FormasPRICE(w, p, i, n);
  }

  /** A smaller installment repays a strictly smaller amount. */
  lemma ValorFinanciadoCrescente(p1: real, p2: real, i: real, n: nat)
    requires n > 0 && i >= 0.0 && p1 < p2
    ensures ValorFinanciadoFromPrestacao(p1, i, n) < ValorFinanciadoFromPrestacao(p2, i, n)
  {
    FormasPRICE(0.0, p1, i, n);
    FormasPRICE(0.0, p2, i, n);
    QuocienteCrescente(ValorFinanciadoFromPrestacao(p1, i, n), ValorFinanciadoFromPrestacao(p2, i, n),
                       FatorPRICE(i, n), p1, p2);
  }

  /** Two numbers that a positive `c` scales to `p1 < p2` are in the same order. */
  lemma QuocienteCrescente(w1: real, w2: real, c: real, p1: real, p2: real)
    requires c > 0.0 && w1 * c == p1 && w2 * c == p2 && p1 < p2
    ensures w1 < w2
  {
    assert (w2 - w1) * c == p2 - p1;
  }

  /** A larger amount never has a smaller installment. */
  lemma PrestacaoCrescente(v1: real, v2: real, i: real, n: nat)
    requires n > 0 && i >= 0.0 && v1 <= v2
    ensures PrestacaoPRICE(v1, i, n) <= PrestacaoPRICE(v2, i, n)
  {
    FormasPRICE(v1, 0.0, i, n);
    FormasPRICE(v2, 0.0, i, n);
    ProdutoMonotono(v1, v2, FatorPRICE(i, n));
  }

  /** The outstanding balance after `k` level payments `p` at rate `i` (an independent
      month-by-month account of the loan). */
  function Saldo(v: real, p: real, i: real, k: nat): real {
    if k == 0 then v else Saldo(v, p, i, k - 1) * (1.0 + i) - p
  }

  /** One month of the closed form, over plain numbers: if `s` satisfies it after `k - 1` months
      (with `q` the growth so far), then `s2 = s * (1 + i) - p` satisfies it after `k` (growth `P`). */
  lemma SaldoPasso(s: real, s2: real, v: real, p: real, i: real, q: real, P: real)
    requires P == (1.0 + i) * q && s2 == s * (1.0 + i) - p
    requires s * i == v * i * q - p * (q - 1.0)
    ensures s2 * i == v * i * P - p * (P - 1.0)
  {
    var x := s * i;
    assert s2 * i == x * (1.0 + i) - p * i;
    assert x * (1.0 + i) == (v * i * q) * (1.0 + i) - (p * (q - 1.0)) * (1.0 + i);
    assert (v * i * q) * (1.0 + i) == v * i * P;
    assert (p * (q - 1.0)) * (1.0 + i) == p * P - p * (1.0 + i);
  }

  lemma {:induction false} SaldoFechado(v: real, p: real, i: real, k: nat)
    ensures Saldo(v, p, i, k) * i == v * i * Pow(1.0 + i, k) - p * (Pow(1.0 + i, k) - 1.0)
  {
    if k > 0 {
      var s, s2 := Saldo(v, p, i, k - 1), Saldo(v, p, i, k);
      var q, P := Pow(1.0 + i, k - 1), Pow(1.0 + i, k);
      assert s2 == s * (1.0 + i) - p && P == (1.0 + i) * q;
      SaldoFechado(v, p, i, k - 1);
      SaldoPasso(s, s2, v, p, i, q, P);
    }
  }

  lemma {:induction false} SaldoSemJuros(v: real, p: real, k: nat)
    ensures Saldo(v, p, 0.0, k) == v - k as real * p
  {
    if k > 0 { SaldoSemJuros(v, p, k - 1); }
  }

  /** Paying the PRICE installment every month for the whole term leaves nothing owed. */
  lemma PrestacaoQuitaEmNMeses(v: real, i: real, n: nat)
    requires n > 0 && i >= 0.0
    ensures Saldo(v, PrestacaoPRICE(v, i, n), i, n) == 0.0
  {
    var p := PrestacaoPRICE(v, i, n);
    if i == 0.0 {
      SaldoSemJuros(v, p, n);
    } else {
      PowAboveOne(1.0 + i, n);
      var f := Pow(1.0 + i, n);
      SaldoFechado(v, p, i, n);
      assert p * (f - 1.0) == v * (i * f);
      assert Saldo(v, p, i, n) * i == 0.0;
    }
  }

  // ---------------------------------------------------------------------------
  // The fixed-point searches

  /** What both searches work from: the income, the monthly rate, the term, the property
      value, the age and the system (whose parameters give the ceilings). */
  datatype Entrada = Entrada(renda: real, taxaMensal: real, prazo: nat, valorImovel: real, idade: real, sistema: Sistema)

  /** The source always calls the searches with the positive monthly rate and a term of at least 120. */
  predicate EntradaValida(e: Entrada) { e.prazo > 0 && e.taxaMensal > 0.0 }

  /** The financed-amount ceiling given by the loan-to-value ratio. */
  function LimiteLTV(e: Entrada): real { e.valorImovel * ParametrosDe(e.sistema).ltvMaximo }

  /** The installment ceiling given by the income. */
  function PrestacaoMaxima(e: Entrada): real { e.renda * ParametrosDe(e.sistema).limiteRenda }

  /** The first guess: the lower of the LTV ceiling and a hundred times the installment ceiling. */
  function Semente(e: Entrada): real { Min(LimiteLTV(e), PrestacaoMaxima(e) / 0.01) }

  /** The part of the installment ceiling left for principal and interest once both premiums
      for the current guess are paid. */
  function OrcamentoBase(e: Entrada, vf: real): real {
    PrestacaoMaxima(e) - SeguroMIP(vf, e.idade) - SeguroDFI(e.valorImovel)
  }

  /** The first installment without premiums: level payment for PRICE, amortization plus
      first interest for SAC. */
  function PrimeiraPrestacaoBase(e: Entrada, vf: real): real
    requires EntradaValida(e)
  {
    match e.sistema
    case PRICE => PrestacaoPRICE(vf, e.taxaMensal, e.prazo)
    case SAC => vf / e.prazo as real + vf * e.taxaMensal
  }

  /** The amount whose first base installment is exactly `b`: the PRICE inverse formula
      or `b / (1/n + i)` for SAC. */
  function ValorParaPrestacaoBase(e: Entrada, b: real): (r: real)
    requires EntradaValida(e)
    ensures PrimeiraPrestacaoBase(e, r) == b
    ensures b > 0.0 ==> r > 0.0
  {
    var i, n := e.taxaMensal, e.prazo;
    match e.sistema
    case PRICE =>
      var r := ValorFinanciadoFromPrestacao(b, i, n);
      ValorFinanciadoIdaEVolta(b, i, n);
      ValorFinanciadoCrescente(0.0, if b > 0.0 then b else 1.0, i, n);
      r
    case SAC =>
      var d := 1.0 / n as real + i;
      var r := b / d;
      DivisaoNaoNegativa(b, d);
      assert r * d == b;
      assert r / n as real + r * i == r * d;
      r
  }

  /** A larger amount never has a smaller first base installment. */
  lemma PrimeiraPrestacaoBaseCrescente(e: Entrada, v1: real, v2: real)
    requires EntradaValida(e) && v1 <= v2
    ensures PrimeiraPrestacaoBase(e, v1) <= PrimeiraPrestacaoBase(e, v2)
  {
    match e.sistema
    case PRICE => PrestacaoCrescente(v1, v2, e.taxaMensal, e.prazo);
    case SAC => SacCrescente(v1, v2, e.prazo as real, e.taxaMensal);
  }

  /** The SAC first base installment `v/n + v*i` grows with the amount. */
  lemma SacCrescente(v1: real, v2: real, n: real, i: real)
    requires n > 0.0 && i >= 0.0 && v1 <= v2
    ensures v1 / n + v1 * i <= v2 / n + v2 * i
  {
    ProdutoMonotono(v1, v2, i);
    assert v1 / n <= v2 / n by {
      DivisaoNaoNegativa(v2 - v1, n);
      assert (v2 - v1) / n == v2 / n - v1 / n;
    }
  }

  /** One round of either loop: the amount whose first base installment is the budget left
      after the premiums, capped by the LTV ceiling, or 0 when nothing is left. */
  function Passo(e: Entrada, vf: real): real
    requires EntradaValida(e)
  {
    var prestacaoBaseMaxima := OrcamentoBase(e, vf);
    Min(LimiteLTV(e), if prestacaoBaseMaxima > 0.0 then ValorParaPrestacaoBase(e, prestacaoBaseMaxima) else 0.0)
  }

  /** Each new iterate lies in `[0, LTV ceiling]` (for a non-negative property value), is 0 when
      the premiums use up the income ceiling, and otherwise has a first base installment within
      the budget. */
  lemma PassoLimites(e: Entrada, vf: real)
    requires EntradaValida(e)
    ensures Passo(e, vf) <= LimiteLTV(e)
    ensures e.valorImovel >= 0.0 ==> Passo(e, vf) >= 0.0
    ensures e.valorImovel >= 0.0 && OrcamentoBase(e, vf) <= 0.0 ==> Passo(e, vf) == 0.0
    ensures OrcamentoBase(e, vf) > 0.0 ==> PrimeiraPrestacaoBase(e, Passo(e, vf)) <= OrcamentoBase(e, vf)
  {
    var b := OrcamentoBase(e, vf);
    assert e.valorImovel >= 0.0 ==> LimiteLTV(e) >= 0.0;
    if b > 0.0 {
      var alvo := ValorParaPrestacaoBase(e, b);
      PrimeiraPrestacaoBaseCrescente(e, Passo(e, vf), alvo);
    }
  }

  /** The `k`-th iterate of either loop. */
  function Iterar(e: Entrada, k: nat): real
    requires EntradaValida(e)
  {
    if k == 0 then Semente(e) else Passo(e, Iterar(e, k - 1))
  }

  /** How far round `k` moved the amount. */
  function Movimento(e: Entrada, k: nat): real
    requires EntradaValida(e) && k >= 1
  {
    Abs(Iterar(e, k) - Iterar(e, k - 1))
  }

  /** The first round from `k` on that moves the amount by no more than a cent, or the last
      round when none does. */
  function ParadaDesde(e: Entrada, k: nat): (r: nat)
    requires EntradaValida(e) && 1 <= k <= MaxIteracoes
    ensures k <= r <= MaxIteracoes
    ensures r < MaxIteracoes ==> Movimento(e, r) <= Tolerancia
    ensures forall j :: k <= j < r ==> Movimento(e, j) > Tolerancia
    decreases MaxIteracoes - k
  {
    if k == MaxIteracoes || Movimento(e, k) <= Tolerancia then k else ParadaDesde(e, k + 1)
  }

  /** The round at which both solver loops stop. */
  function Parada(e: Entrada): nat
    requires EntradaValida(e)
  {
    ParadaDesde(e, 1)
  }

  /** A round that is either the last or moves by at most a cent, and that every earlier round
      moved by more, is the stopping round: the loop's exit condition fixes one round only. */
  lemma ParadaUnica(e: Entrada, j: nat)
    requires EntradaValida(e) && 1 <= j <= MaxIteracoes
    requires j < MaxIteracoes ==> Movimento(e, j) <= Tolerancia
    requires forall k :: 1 <= k < j ==> Movimento(e, k) > Tolerancia
    ensures j == Parada(e)
  {
  }

  /** The loop shared by `calcularValorFinanciadoPRICE` and `calcularValorFinanciadoSAC`:
      it runs at least one and at most twenty rounds, stops early exactly at the first round
      that moves by no more than a cent, and ends inside the LTV ceiling. */
  method Convergir(e: Entrada) returns (valorFinanciado: real, iteracao: nat, diferenca: real)
    requires EntradaValida(e)
    ensures 1 <= iteracao <= MaxIteracoes
    ensures valorFinanciado == Iterar(e, iteracao)
    ensures diferenca == Movimento(e, iteracao)
    ensures iteracao < MaxIteracoes ==> diferenca <= Tolerancia
    ensures forall k :: 1 <= k < iteracao ==> Movimento(e, k) > Tolerancia
    ensures iteracao == Parada(e)
    ensures valorFinanciado <= LimiteLTV(e)
    ensures e.valorImovel >= 0.0 ==> 0.0 <= valorFinanciado
  {
    valorFinanciado := Semente(e);
    iteracao := 0;
    diferenca := 1.0;
    while iteracao < MaxIteracoes && diferenca > Tolerancia
      invariant 0 <= iteracao <= MaxIteracoes
      invariant valorFinanciado == Iterar(e, iteracao)
      invariant iteracao == 0 ==> diferenca == 1.0
      invariant iteracao > 0 ==> diferenca == Movimento(e, iteracao)
      invariant forall k :: 1 <= k < iteracao ==> Movimento(e, k) > Tolerancia
      decreases MaxIteracoes - iteracao
    {
      var novoValorFinanciado := Passo(e, valorFinanciado);
      assert novoValorFinanciado == Iterar(e, iteracao + 1);
      diferenca := Abs(novoValorFinanciado - valorFinanciado);
      valorFinanciado := novoValorFinanciado;
      iteracao := iteracao + 1;
    }
    ParadaUnica(e, iteracao);
    PassoLimites(e, Iterar(e, iteracao - 1));
  }

  // ---------------------------------------------------------------------------
  // After the loops: the one-cent adjustment

  datatype CalculoPRICE = CalculoPRICE(valorFinanciado: real, prestacao: real, seguroMIP: real, seguroDFI: real)

  /** The tail of `calcularValorFinanciadoPRICE`: the installment of the converged amount plus
      premiums is adjusted one cent down and the amount is read back from the adjusted base
      installment. The premiums stay those of the converged amount. */
  function AjustePRICE(e: Entrada, vf: real): (r: CalculoPRICE)
    requires EntradaValida(e)
    ensures r.seguroMIP == SeguroMIP(vf, e.idade) && r.seguroDFI == SeguroDFI(e.valorImovel)
    ensures r.valorFinanciado < vf
    ensures PrestacaoPRICE(r.valorFinanciado, e.taxaMensal, e.prazo) + r.seguroMIP + r.seguroDFI == r.prestacao
    ensures PrestacaoPRICE(vf, e.taxaMensal, e.prazo) + r.seguroMIP + r.seguroDFI - 0.02 < r.prestacao
    ensures r.prestacao <= PrestacaoPRICE(vf, e.taxaMensal, e.prazo) + r.seguroMIP + r.seguroDFI - 0.01
  {
    var i, n := e.taxaMensal, e.prazo;
    var prestacaoBase := PrestacaoPRICE(vf, i, n);
    var seguroMIP := SeguroMIP(vf, e.idade);
    var seguroDFI := SeguroDFI(e.valorImovel);
    var prestacaoTotal := prestacaoBase + seguroMIP + seguroDFI;
    var prestacaoAjustada := AjustarParcela(prestacaoTotal);
    var prestacaoBaseAjustada := prestacaoAjustada - seguroMIP - seguroDFI;
    var valorFinanciadoAjustado := ValorFinanciadoFromPrestacao(prestacaoBaseAjustada, i, n);
    ValorFinanciadoCrescente(prestacaoBaseAjustada, prestacaoBase, i, n);
    PrestacaoIdaEVolta(vf, i, n);
    ValorFinanciadoIdaEVolta(prestacaoBaseAjustada, i, n);
    CalculoPRICE(valorFinanciadoAjustado, prestacaoAjustada, seguroMIP, seguroDFI)
  }

  datatype CalculoSAC = CalculoSAC(valorFinanciado: real, prestacaoInicial: real, prestacaoFinal: real,
                                   amortizacao: real, seguroMIP: real, seguroDFI: real)

  /** The tail of `calcularValorFinanciadoSAC`: the first installment of the converged amount is
      adjusted one cent down, the amount is read back from it with the premiums of the converged
      amount, and the amortization, the life premium and the last installment are recomputed for
      the adjusted amount (the last installment pays one amortization plus its interest). */
  function AjusteSAC(e: Entrada, vf: real): CalculoSAC
    requires EntradaValida(e)
  {
    FechamentoSAC(e, ValorAjustadoSAC(e, vf), InicialAjustadaSAC(e, vf))
  }

  /** The first SAC installment of the converged amount (amortization, first interest and
      both premiums), taken one cent down. */
  function InicialAjustadaSAC(e: Entrada, vf: real): (r: real)
    requires EntradaValida(e)
    ensures r < vf / e.prazo as real + vf * e.taxaMensal + SeguroMIP(vf, e.idade) + SeguroDFI(e.valorImovel)
  {
    var i, n := e.taxaMensal, e.prazo as real;
    AjustarParcela(vf / n + vf * i + SeguroMIP(vf, e.idade) + SeguroDFI(e.valorImovel))
  }

  /** The amount read back from the adjusted first installment, with the premiums of the
      converged amount: it is below the converged amount, and its own first SAC installment with
      those premiums is the adjusted installment. */
  function ValorAjustadoSAC(e: Entrada, vf: real): (r: real)
    requires EntradaValida(e)
    ensures r < vf
    ensures r / e.prazo as real + r * e.taxaMensal + SeguroMIP(vf, e.idade) + SeguroDFI(e.valorImovel)
            == InicialAjustadaSAC(e, vf)
  {
    var i, n := e.taxaMensal, e.prazo as real;
    var inicial, mip, dfi := InicialAjustadaSAC(e, vf), SeguroMIP(vf, e.idade), SeguroDFI(e.valorImovel);
    var w := (inicial - mip - dfi) / (1.0 / n + i);
    SacAjusteReduz(vf, inicial, mip, dfi, n, i, w);
    w
  }

  /** The figures recomputed for the adjusted amount `w`: the amortization spreads `w` evenly over
      the term, the life premium is that of `w`, and the last installment is one amortization plus
      its interest and both premiums, taken one to two cents down. */
  function FechamentoSAC(e: Entrada, w: real, inicial: real): (r: CalculoSAC)
    requires EntradaValida(e)
    ensures r.valorFinanciado == w && r.prestacaoInicial == inicial
    ensures r.amortizacao * e.prazo as real == w
    ensures r.seguroMIP == SeguroMIP(w, e.idade) && r.seguroDFI == SeguroDFI(e.valorImovel)
    ensures var ultima := r.amortizacao * (1.0 + e.taxaMensal) + r.seguroMIP + r.seguroDFI;
      ultima - 0.02 < r.prestacaoFinal <= ultima - 0.01
  {
    var i, n := e.taxaMensal, e.prazo as real;
    var amortizacao := w / n;
    var seguroMIPAjustado := SeguroMIP(w, e.idade);
    var seguroDFI := SeguroDFI(e.valorImovel);
    var prestacaoFinal := amortizacao + amortizacao * i + seguroMIPAjustado + seguroDFI;
    Distributiva(amortizacao, i);
    CalculoSAC(w, inicial, AjustarParcela(prestacaoFinal), amortizacao, seguroMIPAjustado, seguroDFI)
  }

  lemma Distributiva(a: real, t: real)
    ensures a * (1.0 + t) == a + a * t
  {
  }

  /** The SAC adjustment's first installment is one to two cents below the converged amount's. */
  lemma AjusteSACInicial(e: Entrada, vf: real)
    requires EntradaValida(e) && e.sistema == SAC
    ensures var inicial := PrimeiraPrestacaoBase(e, vf) + SeguroMIP(vf, e.idade) + SeguroDFI(e.valorImovel);
      inicial - 0.02 < AjusteSAC(e, vf).prestacaoInicial <= inicial - 0.01
  {
  }

  /** Reading an amount back from a base installment below `vf/n + vf*i` gives less than `vf`,
      and that amount's own base installment is the one it was read from. */
  lemma SacAjusteReduz(vf: real, inicial: real, mip: real, dfi: real, n: real, i: real, w: real)
    requires n > 0.0 && i > 0.0 && inicial < vf / n + vf * i + mip + dfi
    requires w == (inicial - mip - dfi) / (1.0 / n + i)
    ensures w < vf && w / n + w * i + mip + dfi == inicial
  {
    var b := inicial - mip - dfi;
    var d := 1.0 / n + i;
    assert vf / n + vf * i == vf * d;
    assert w * d == b;
    assert w / n + w * i == w * d;
  }

  /** `calcularValorFinanciadoPRICE`. */
  method CalcularValorFinanciadoPRICE(e: Entrada) returns (r: CalculoPRICE)
    requires EntradaValida(e) && e.sistema == PRICE
    ensures r == AjustePRICE(e, Iterar(e, Parada(e)))
    ensures r.valorFinanciado < LimiteLTV(e)
    ensures PrestacaoPRICE(r.valorFinanciado, e.taxaMensal, e.prazo) + r.seguroMIP + r.seguroDFI == r.prestacao
  {
    var valorFinanciado, iteracao, diferenca := Convergir(e);
    r := AjustePRICE(e, valorFinanciado);
  }

  /** `calcularValorFinanciadoSAC`. */
  method CalcularValorFinanciadoSAC(e: Entrada) returns (r: CalculoSAC)
    requires EntradaValida(e) && e.sistema == SAC
    ensures r == AjusteSAC(e, Iterar(e, Parada(e)))
    ensures r.valorFinanciado < LimiteLTV(e)
    ensures r.amortizacao == r.valorFinanciado / e.prazo as real
  {
    var valorFinanciado, iteracao, diferenca := Convergir(e);
    r := AjusteSAC(e, valorFinanciado);
    assert r.valorFinanciado < valorFinanciado <= LimiteLTV(e);
  }

  // ---------------------------------------------------------------------------
  // Request rules of `POST`

  /** `parseFloat(s.replace(/[^\d,.-]/g, '').replace(',', '.'))`: keep digits, commas, dots and
      minus signs, turn the first comma into a point and read the longest numeral prefix. */
  function ParseNumeroRequisicao(s: string): Option<real> {
    ParseDecimal(ReplaceFirst(Filter(s, CaractereNumerico), ',', '.'))
  }

  /** The characters the request keeps (`/[^\d,.-]/g` removes the rest). */
  predicate CaractereNumerico(c: char) { IsDigit(c) || c == ',' || c == '.' || c == '-' }

  /** A plain digit string reads as its value. */
  lemma ParseNumeroDigitos(d: string)
    requires |d| > 0 && AllDigits(d)
    ensures ParseNumeroRequisicao(d) == Some(DigitsValue(d) as real)
  {
    AllDigitsMembers(d);
    FilterKeepsAll(d, CaractereNumerico);
    assert ',' !in d by { assert forall k :: 0 <= k < |d| ==> IsDigit(d[k]); }
  }

  /** With a comma as the only separator the comma is the decimal point ("5000,50"). */
  lemma ParseNumeroVirgula(a: string, c: string)
    requires |a| > 0 && AllDigits(a) && AllDigits(c)
    ensures ParseNumeroRequisicao(a + "," + c) == Some(DecimalValue(a, c))
  {
    var x := a + "," + c;
    assert Filter(x, CaractereNumerico) == x by {
      AllDigitsMembers(a);
      AllDigitsMembers(c);
      FilterKeepsAll(x, CaractereNumerico);
    }
    assert ReplaceFirst(x, ',', '.') == a + "." + c by {
      assert ',' !in a by { AllDigitsMembers(a); }
      ReplaceFirstAfter(a, ',', c, '.');
      assert x == a + [','] + c;
    }
    ParseDecimalFraction(a, c);
  }

  /** A thousands dot and a decimal comma together ("5.000,00") make the first group the whole
      number: the comma becomes a second point, and the numeral prefix ends there. */
  lemma ParseNumeroMilharLidoComoDecimal(a: string, b: string, c: string)
    requires |a| > 0 && AllDigits(a) && AllDigits(b) && AllDigits(c)
    ensures ParseNumeroRequisicao(a + "." + b + "," + c) == Some(DecimalValue(a, b))
  {
    var pre := a + "." + b;
    var x := pre + "," + c;
    assert Filter(x, CaractereNumerico) == x by {
      AllDigitsMembers(a);
      AllDigitsMembers(b);
      AllDigitsMembers(c);
      FilterKeepsAll(x, CaractereNumerico);
    }
    assert ReplaceFirst(x, ',', '.') == a + "." + b + ("." + c) by {
      assert ',' !in pre by { AllDigitsMembers(a); AllDigitsMembers(b); }
      ReplaceFirstAfter(pre, ',', c, '.');
      assert x == pre + [','] + c;
    }
    ParseDecimalFractionPrefix(a, b, "." + c);
    assert a + "." + b + "," + c == x;
  }

  /** `sistemaAmortizacao.toUpperCase().includes('SAC') ? 'SAC' : 'PRICE'`. */
  function SistemaDe(selecao: string): (s: Sistema)
    ensures s == SAC <==> Contains(ToUpper(selecao), "SAC")
  {
    if Contains(ToUpper(selecao), "SAC") then SAC else PRICE
  }

  /** The simulator form's default selection "PRICE TR" chooses PRICE, and a lower-case "sac" SAC. */
  lemma SistemaExemplos()
    ensures SistemaDe("PRICE TR") == PRICE
    ensures SistemaDe("sac") == SAC
  {
    assert ToUpper("sac") == "SAC";
    ContainsSelf("SAC");
    var u := ToUpper("PRICE TR");
    assert u == "PRICE TR";
    assert 'S' !in u;
    NotContainsFirstChar(u, "SAC");
  }

  /** `formatarPrazo`'s split: `Math.floor(meses / 12)` and JavaScript's truncating `meses % 12`. */
  function PrazoPartes(meses: int): (r: (int, int))
    ensures meses >= 0 ==> r.0 * 12 + r.1 == meses && 0 <= r.1 < 12 && r.0 >= 0
    ensures meses < 0 ==> r.0 < 0 && -12 < r.1 <= 0
  {
    var anos := meses / 12;
    var mesesRestantes := if meses >= 0 then meses % 12 else -((-meses) % 12);
    (anos, mesesRestantes)
  }

  function Plural(n: int, um: string, varios: string): string { if n > 1 then varios else um }

  /** `formatarPrazo`: years and remaining months in Portuguese. */
  function FormatarPrazo(meses: int): string {
    var (anos, resto) := PrazoPartes(meses);
    if anos > 0 then
      IntToString(anos) + " ano" + Plural(anos, "", "s")
      + (if resto > 0 then " e " + IntToString(resto) + " " + Plural(resto, "mês", "meses") else "")
    else IntToString(resto) + " " + Plural(resto, "mês", "meses")
  }

  /** Years and remaining months of a term of `anos` years and `meses` months. */
  lemma PrazoPartesDe(anos: nat, meses: nat)
    requires meses < 12
    ensures PrazoPartes(anos * 12 + meses) == (anos, meses)
  {
  }

  /** A whole number of years prints without months. */
  lemma FormatarPrazoAnosInteiros(anos: nat)
    requires anos > 0
    ensures FormatarPrazo(anos * 12) == NatToDigits(anos) + " ano" + (if anos > 1 then "s" else "")
  {
    PrazoPartesDe(anos, 0);
    assert PrazoPartes(anos * 12) == (anos, 0);
    var t := IntToString(anos) + " ano" + Plural(anos, "", "s");
    assert FormatarPrazo(anos * 12) == t + "";
    assert t + "" == t;
  }

  /** Under a year prints only the months, with "mês" in the singular. */
  lemma FormatarPrazoMeses(meses: nat)
    requires meses < 12
    ensures FormatarPrazo(meses) == NatToDigits(meses) + " " + (if meses > 1 then "meses" else "mês")
  {
    PrazoPartesDe(0, meses);
  }

  /** Years and months are joined by " e ", each in the singular when it is one. */
  lemma FormatarPrazoAnosEMeses(anos: nat, meses: nat)
    requires anos > 0 && 0 < meses < 12
    ensures FormatarPrazo(anos * 12 + meses) ==
            NatToDigits(anos) + " ano" + (if anos > 1 then "s" else "")
            + (" e " + NatToDigits(meses) + " " + (if meses > 1 then "meses" else "mês"))
  {
    PrazoPartesDe(anos, meses);
  }

  /** The request as the endpoint reads it: the text fields as sent (an absent field is the
      empty string) and the birth date already read as a date (`None` when absent). */
  datatype Requisicao = Requisicao(renda: string, dataNascimento: Option<Data>, valorImovel: string,
                                   sistemaAmortizacao: string, prazoObra: string)

  datatype Erro =
    | FaltamDados
    | ValoresInvalidos
    | AbaixoIdadeMinima
    | AcimaIdadeMaxima(anos: int, meses: int)
    | NaoFinanciavel

  datatype Resultado = Resultado(
    sistema: Sistema, idade: real, prazoAmortizacao: int, prazoObra: Option<int>, prazoTotal: Option<int>,
    valorImovel: real, valorFinanciado: real, valorEntrada: real, prestacaoInicial: real, prestacaoFinal: real,
    amortizacao: real, juros: real, seguroMIP: real, seguroDFI: real)

  /** The maximum age as the error message prints it: whole years and whole months. */
  function IdadeMaximaPartes(): (r: (int, int))
    ensures r == (67, 6)
  {
    (IdadeMaxima.Floor, ((IdadeMaxima - IdadeMaxima.Floor as real) * 12.0).Floor)
  }

  predicate FaltaAlgumDado(req: Requisicao) {
    req.renda == "" || req.dataNascimento.None? || req.valorImovel == "" || req.sistemaAmortizacao == ""
  }

  /** `prazoObra ? parseInt(prazoObra) : 36`; `None` stands for `NaN`. */
  function PrazoObraDe(prazoObra: string): (r: Option<int>)
    ensures prazoObra == "" ==> r == Some(36)
    ensures |prazoObra| > 0 && AllDigits(prazoObra) ==> r == Some(DigitsValue(prazoObra) as int)
  {
    if prazoObra == "" then Some(PrazoObraPadrao as int)
    else if AllDigits(prazoObra) then
      ParseIntLeading(prazoObra, "");
      assert prazoObra + "" == prazoObra;
      ParseIntPrefix(prazoObra)
    else ParseIntPrefix(prazoObra)
  }

  /** A request that passes every check before the solver: all fields present, both numbers
      readable and the age inside the limits. */
  predicate Elegivel(req: Requisicao, hoje: Data) {
    && !FaltaAlgumDado(req)
    && ParseNumeroRequisicao(req.renda).Some? && ParseNumeroRequisicao(req.valorImovel).Some?
    && IdadeMinima <= Idade(hoje, req.dataNascimento.value) < IdadeMaxima
  }

  /** What an eligible request hands the solver: its income and price, the fixed monthly rate,
      the longest term its age allows, its age and its amortization system. */
  function EntradaDe(req: Requisicao, hoje: Data): (e: Entrada)
    requires Elegivel(req, hoje)
    ensures EntradaValida(e)
  {
    var idade := Idade(hoje, req.dataNascimento.value);
    var sistema := SistemaDe(req.sistemaAmortizacao);
    Entrada(ParseNumeroRequisicao(req.renda).value, TaxaJurosMensal, CalcularPrazoMaximo(idade, sistema),
            ParseNumeroRequisicao(req.valorImovel).value, idade, sistema)
  }

  /** The amount the solver of the request's system settles on, after the one-cent adjustment. */
  function ValorFinanciadoDe(e: Entrada): real
    requires EntradaValida(e)
  {
    var vf := Iterar(e, Parada(e));
    if e.sistema == SAC then AjusteSAC(e, vf).valorFinanciado else AjustePRICE(e, vf).valorFinanciado
  }

  /** The interest one month charges on an amount at the fixed monthly rate. */
  function JurosDoMes(valor: real): real {
    valor * TaxaJurosMensal
  }

  /** The money figures of a result are those of the solver of its system at its stopping round:
      for SAC the adjusted amount, both installments, the amortization and premiums, and the first
      month's interest on the amount; for PRICE the adjusted amount, the one installment as first
      and last, no amortization, and the installment less both premiums as interest. */
  predicate ValoresDoCalculo(v: Resultado, e: Entrada)
    requires EntradaValida(e)
  {
    var vf := Iterar(e, Parada(e));
    && v.sistema == e.sistema
    && v.valorEntrada == v.valorImovel - v.valorFinanciado
    && (e.sistema == SAC ==>
         var c := AjusteSAC(e, vf);
         && v.valorFinanciado == c.valorFinanciado
         && v.prestacaoInicial == c.prestacaoInicial && v.prestacaoFinal == c.prestacaoFinal
         && v.amortizacao == c.amortizacao && v.juros == JurosDoMes(c.valorFinanciado)
         && v.seguroMIP == c.seguroMIP && v.seguroDFI == c.seguroDFI)
    && (e.sistema == PRICE ==>
         var c := AjustePRICE(e, vf);
         && v.valorFinanciado == c.valorFinanciado
         && v.prestacaoInicial == c.prestacao && v.prestacaoFinal == c.prestacao
         && v.amortizacao == 0.0 && v.juros == c.prestacao - c.seguroMIP - c.seguroDFI
         && v.seguroMIP == c.seguroMIP && v.seguroDFI == c.seguroDFI)
  }

  /** The result `POST` assembles from the solver of the request's system. */
  method Calcular(e: Entrada, prazoObra: Option<int>, prazoTotal: Option<int>) returns (v: Resultado)
    requires EntradaValida(e)
    ensures v.sistema == e.sistema && v.idade == e.idade && v.prazoAmortizacao == e.prazo
    ensures v.prazoObra == prazoObra && v.prazoTotal == prazoTotal && v.valorImovel == e.valorImovel
    ensures v.valorFinanciado == ValorFinanciadoDe(e)
    ensures ValoresDoCalculo(v, e)
  {
    if e.sistema == SAC {
      v := ResultadoSAC(e, prazoObra, prazoTotal);
    } else {
      v := ResultadoPRICE(e, prazoObra, prazoTotal);
    }
  }

  /** The SAC branch: the figures of `calcularValorFinanciadoSAC`, with the first month's
      interest on the amount. */
  method ResultadoSAC(e: Entrada, prazoObra: Option<int>, prazoTotal: Option<int>) returns (v: Resultado)
    requires EntradaValida(e) && e.sistema == SAC
    ensures v.sistema == e.sistema && v.idade == e.idade && v.prazoAmortizacao == e.prazo
    ensures v.prazoObra == prazoObra && v.prazoTotal == prazoTotal && v.valorImovel == e.valorImovel
    ensures ValoresDoCalculo(v, e)
  {
    var calculo := CalcularValorFinanciadoSAC(e);
    v := Resultado(e.sistema, e.idade, e.prazo, prazoObra, prazoTotal, e.valorImovel,
      calculo.valorFinanciado, e.valorImovel - calculo.valorFinanciado, calculo.prestacaoInicial,
      calculo.prestacaoFinal, calculo.amortizacao, JurosDoMes(calculo.valorFinanciado),
      calculo.seguroMIP, calculo.seguroDFI);
  }

  /** The PRICE branch: the one installment of `calcularValorFinanciadoPRICE` as first and last,
      no amortization, and the installment less both premiums as interest. */
  method ResultadoPRICE(e: Entrada, prazoObra: Option<int>, prazoTotal: Option<int>) returns (v: Resultado)
    requires EntradaValida(e) && e.sistema == PRICE
    ensures v.sistema == e.sistema && v.idade == e.idade && v.prazoAmortizacao == e.prazo
    ensures v.prazoObra == prazoObra && v.prazoTotal == prazoTotal && v.valorImovel == e.valorImovel
    ensures ValoresDoCalculo(v, e)
  {
    var calculo := CalcularValorFinanciadoPRICE(e);
    v := Resultado(e.sistema, e.idade, e.prazo, prazoObra, prazoTotal, e.valorImovel,
      calculo.valorFinanciado, e.valorImovel - calculo.valorFinanciado, calculo.prestacao,
      calculo.prestacao, 0.0, calculo.prestacao - calculo.seguroMIP - calculo.seguroDFI,
      calculo.seguroMIP, calculo.seguroDFI);
  }

  /** The body of `POST` with today's date as a parameter. */
  method Simular(req: Requisicao, hoje: Data) returns (r: Result<Resultado, Erro>)
    ensures r == Failure(FaltamDados) <==> FaltaAlgumDado(req)
    ensures r == Failure(ValoresInvalidos) <==>
      !FaltaAlgumDado(req) && (ParseNumeroRequisicao(req.renda).None? || ParseNumeroRequisicao(req.valorImovel).None?)
    ensures r.Failure? && r.error.AcimaIdadeMaxima? ==> r.error == AcimaIdadeMaxima(67, 6)
    ensures r.Success? ==>
      var v := r.value;
      && !FaltaAlgumDado(req)
      && Some(v.valorImovel) == ParseNumeroRequisicao(req.valorImovel)
      && v.idade == Idade(hoje, req.dataNascimento.value)
      && IdadeMinima <= v.idade < IdadeMaxima
      && v.sistema == SistemaDe(req.sistemaAmortizacao)
      && v.prazoAmortizacao == CalcularPrazoMaximo(v.idade, v.sistema)
      && PrazoMinimoAmortizacao <= v.prazoAmortizacao <= ParametrosDe(v.sistema).prazoMaximoAmortizacao
      && v.prazoObra == PrazoObraDe(req.prazoObra)
      && (v.prazoObra.Some? ==> v.prazoTotal.Some? && v.prazoTotal.value == v.prazoAmortizacao + v.prazoObra.value)
      && (v.prazoObra.None? ==> v.prazoTotal.None?)
      && v.valorFinanciado > 0.0
      && v.valorEntrada == v.valorImovel - v.valorFinanciado
      && (v.sistema == PRICE ==> v.prestacaoInicial == v.prestacaoFinal && v.amortizacao == 0.0)
    ensures r == Failure(NaoFinanciavel) <==> Elegivel(req, hoje) && ValorFinanciadoDe(EntradaDe(req, hoje)) <= 0.0
    ensures r.Success? <==> Elegivel(req, hoje) && ValorFinanciadoDe(EntradaDe(req, hoje)) > 0.0
    ensures r.Success? ==> Elegivel(req, hoje) && ValoresDoCalculo(r.value, EntradaDe(req, hoje))
    ensures !FaltaAlgumDado(req) && ParseNumeroRequisicao(req.renda).Some? && ParseNumeroRequisicao(req.valorImovel).Some? ==>
      var idade := Idade(hoje, req.dataNascimento.value);
      && (r == Failure(AbaixoIdadeMinima) <==> idade < IdadeMinima)
      && (r.Failure? && r.error.AcimaIdadeMaxima? <==> IdadeMinima <= idade && idade >= IdadeMaxima)
  {
    if FaltaAlgumDado(req) {
      return Failure(FaltamDados);
    }
    var rendaNum := ParseNumeroRequisicao(req.renda);
    var valorImovelNum := ParseNumeroRequisicao(req.valorImovel);
    var prazoObraNum := PrazoObraDe(req.prazoObra);
    if rendaNum.None? || valorImovelNum.None? {
      return Failure(ValoresInvalidos);
    }
    var idade := CalcularIdadePrecisa(hoje, req.dataNascimento.value);
    assert idade == Idade(hoje, req.dataNascimento.value);
    if idade < IdadeMinima {
      return Failure(AbaixoIdadeMinima);
    }
    if idade >= IdadeMaxima {
      var (anos, meses) := IdadeMaximaPartes();
      return Failure(AcimaIdadeMaxima(anos, meses));
    }
    var sistema := SistemaDe(req.sistemaAmortizacao);
    var prazoMaximoAmortizacao := CalcularPrazoMaximo(idade, sistema);
    // The rejection of a term below the 120-month minimum can never fire.
    assert prazoMaximoAmortizacao >= PrazoMinimoAmortizacao;
    var prazoTotal := if prazoObraNum.Some? then Some(prazoMaximoAmortizacao + prazoObraNum.value) else None;
    var e := Entrada(rendaNum.value, TaxaJurosMensal, prazoMaximoAmortizacao, valorImovelNum.value, idade, sistema);
    assert e == EntradaDe(req, hoje);
    var resultado := Calcular(e, prazoObraNum, prazoTotal);
    if resultado.valorFinanciado <= 0.0 {
      return Failure(NaoFinanciavel);
    }
    return Success(resultado);
  }
}
