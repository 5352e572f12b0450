/** The pró-soluto planner of the quotation page (the `proSolutoDetalhes` computation of
    src/app/cotacao/page.tsx): the balance the flow leaves unpaid is corrected up to the first
    instalment, split into instalments before and after delivery at 0.5% and 1.5% a month,
    paid by one level instalment, and laid out in an amortization table whose last row
    clears the balance. */
module ProSoluto {
  import opened Wrappers
  import opened Decimal
  import Simulacao
  import Cotacao

  /** Monthly rate before delivery. */
  const TaxaAntes: real := 0.005
  /** Monthly rate from delivery on. */
  const TaxaApos: real := 0.015

  datatype Periodo = Antes | Apos

  /** One row of the table; the row's calendar date is not modelled. */
  datatype Linha = Linha(parcela: nat, valor: real, saldo: real, periodo: Periodo)

  datatype Detalhes = Detalhes(valorBase: real, valorCorrigido: real, taxaCorrecao: real, parcelaMensal: real,
                               parcelasAntesEntrega: nat, parcelasAposEntrega: nat, tabela: seq<Linha>)

  function Max0(x: real): (r: real)
    ensures r >= 0.0 && r >= x
  {
    if x > 0.0 then x else 0.0
  }

  // ---------------------------------------------------------------------------
  // Correction and the split around delivery

  /** The correction rate: the first instalment falls in month `1 + deslocamento`; before
      delivery the rate is 0.5%, from delivery on 1.5%. */
  function TaxaCorrecao(deslocamento: nat, mesesAteEntrega: nat): (r: real)
    ensures r == TaxaAntes <==> 1 + deslocamento < mesesAteEntrega
    ensures r == TaxaApos <==> 1 + deslocamento >= mesesAteEntrega
  {
    if 1 + deslocamento < mesesAteEntrega then TaxaAntes else TaxaApos
  }

  /** The balance corrected once for the month after the down payment and once more for each
      month the Sinals push the first instalment back. */
  function ValorCorrigido(valorBase: real, deslocamento: nat, mesesAteEntrega: nat): real {
    valorBase * Pow(1.0 + TaxaCorrecao(deslocamento, mesesAteEntrega), 1 + deslocamento)
  }

  /** A positive balance only grows under the correction. */
  lemma ValorCorrigidoCresce(valorBase: real, deslocamento: nat, mesesAteEntrega: nat)
    requires valorBase > 0.0
    ensures ValorCorrigido(valorBase, deslocamento, mesesAteEntrega) > valorBase
  {
    var taxa := TaxaCorrecao(deslocamento, mesesAteEntrega);
    PowAboveOne(1.0 + taxa, 1 + deslocamento);
    var f := Pow(1.0 + taxa, 1 + deslocamento);
    ProdutoAcimaDeUm(valorBase, f);
    assert ValorCorrigido(valorBase, deslocamento, mesesAteEntrega) == valorBase * f;
  }

  /** The month, counted from now, in which instalment `k` falls. */
  function MesDaParcela(k: nat, deslocamento: nat): nat { k + deslocamento }

  /** `parcelasAntesEntrega`: the number of instalments whose month comes before delivery. */
  function ParcelasAntes(parcelas: nat, mesesAteEntrega: nat, deslocamento: nat): (r: nat)
    ensures r <= parcelas
    ensures forall k :: 1 <= k <= parcelas ==> (k <= r <==> MesDaParcela(k, deslocamento) < mesesAteEntrega)
  {
    var m := mesesAteEntrega - deslocamento - 1;
    var semNegativo := if m > 0 then m else 0;
    if parcelas < semNegativo then parcelas else semNegativo
  }

  /** The correction rate agrees with the period of the first instalment. */
  lemma TaxaDaPrimeiraParcela(parcelas: nat, mesesAteEntrega: nat, deslocamento: nat)
    requires parcelas >= 1
    ensures TaxaCorrecao(deslocamento, mesesAteEntrega) == TaxaAntes <==> ParcelasAntes(parcelas, mesesAteEntrega, deslocamento) >= 1
  {
    assert 1 <= ParcelasAntes(parcelas, mesesAteEntrega, deslocamento) <==> MesDaParcela(1, deslocamento) < mesesAteEntrega;
  }

  // ---------------------------------------------------------------------------
  // The level instalment

  /** `(1 - (1 + i)^-k) / i`: what `k` monthly payments of 1 are worth today at rate `i`. */
  function Fator(i: real, k: nat): real
    requires i > 0.0
  {
    PowPositive(1.0 + i, k);
    (1.0 - 1.0 / Pow(1.0 + i, k)) / i
  }

  lemma FatorPositivo(i: real, k: nat)
    requires i > 0.0 && k > 0
    ensures Fator(i, k) > 0.0
  {
    PowAboveOne(1.0 + i, k);
    var p := Pow(1.0 + i, k);
    assert 1.0 / p < 1.0;
    DivisaoPositiva(1.0 - 1.0 / p, i);
  }

  lemma DivisaoPositiva(a: real, b: real)
    requires a > 0.0 && b > 0.0
    ensures a / b > 0.0
  {
    var q := a / b;
    assert q * b == a;
  }

  /** The `k`-payment factor at rate `i`, seen from `d` months of rate `j` earlier. */
  function FatorDescontado(i: real, k: nat, j: real, d: nat): real
    requires i > 0.0 && j > 0.0
  {
    PowPositive(1.0 + j, d);
    Fator(i, k) / Pow(1.0 + j, d)
  }

  /** `pmt`: the PRICE instalment at 1.5% when every instalment falls after delivery, at 0.5%
      when every one falls before, and otherwise the corrected balance over the sum of the
      factors of both periods, the second discounted through the first. */
  function ParcelaMensal(valorCorrigido: real, parcelas: nat, antes: nat): real
    requires parcelas > 0 && antes <= parcelas
  {
    if antes == 0 then Simulacao.PrestacaoPRICE(valorCorrigido, TaxaApos, parcelas)
    else if parcelas - antes == 0 then Simulacao.PrestacaoPRICE(valorCorrigido, TaxaAntes, parcelas)
    else
      var f1 := Fator(TaxaAntes, antes);
      var f2 := FatorDescontado(TaxaApos, parcelas - antes, TaxaAntes, antes);
      FatorPositivo(TaxaAntes, antes);
      FatorPositivo(TaxaApos, parcelas - antes);
      PowPositive(1.0 + TaxaAntes, antes);
      DivisaoPositiva(Fator(TaxaApos, parcelas - antes), Pow(1.0 + TaxaAntes, antes));
      valorCorrigido / (f1 + f2)
  }

  /** The balance after `k` level payments `p` at rate `i`, written with the factor:
      the principal less what the payments are worth today, carried forward `k` months. */
  lemma {:induction false} SaldoPorFator(v: real, p: real, i: real, k: nat)
    requires i > 0.0
    ensures Simulacao.Saldo(v, p, i, k) == Pow(1.0 + i, k) * (v - p * Fator(i, k))
  {
    PowPositive(1.0 + i, k);
    FatorVezesTaxa(i, k);
    Simulacao.SaldoFechado(v, p, i, k);
    AlgebraFator(Simulacao.Saldo(v, p, i, k), v, p, i, Pow(1.0 + i, k), Fator(i, k));
  }

  lemma {:induction false} FatorVezesTaxa(i: real, k: nat)
    requires i > 0.0
    ensures Pow(1.0 + i, k) != 0.0
    ensures Fator(i, k) * i == 1.0 - 1.0 / Pow(1.0 + i, k)
  {
    PowPositive(1.0 + i, k);
  }

  /** The algebra behind `SaldoPorFator`, on plain numbers. */
  lemma AlgebraFator(s: real, v: real, p: real, i: real, pk: real, f: real)
    requires i != 0.0 && pk != 0.0
    requires s * i == v * i * pk - p * (pk - 1.0)
    requires f * i == 1.0 - 1.0 / pk
    ensures s == pk * (v - p * f)
  {
    var q := 1.0 / pk;
    assert q * pk == 1.0;
    var fi := f * i;
    assert pk * fi == pk - 1.0 by {
      assert pk * fi == pk * (1.0 - q);
    }
    var alvo := pk * (v - p * f);
    assert alvo * i == v * i * pk - p * (pk * fi);
    assert alvo * i == s * i;
    Cancelar(s, alvo, i);
  }

  lemma Cancelar(a: real, b: real, c: real)
    requires c != 0.0 && a * c == b * c
    ensures a == b
  {
    assert (a - b) * c == 0.0;
  }

  /** The balance after the periods before and after delivery, paying `p` every month. */
  function SaldoDuasFases(v: real, p: real, parcelas: nat, antes: nat): real
    requires antes <= parcelas
  {
    Simulacao.Saldo(Simulacao.Saldo(v, p, TaxaAntes, antes), p, TaxaApos, parcelas - antes)
  }

  /** The level instalment repays the corrected balance exactly: with interest at 0.5% up to
      delivery and 1.5% after it, `parcelas` payments of `pmt` leave nothing owed. */
  lemma ParcelaMensalQuita(valorCorrigido: real, parcelas: nat, antes: nat)
    requires parcelas > 0 && antes <= parcelas
    ensures SaldoDuasFases(valorCorrigido, ParcelaMensal(valorCorrigido, parcelas, antes), parcelas, antes) == 0.0
  {
    var v, n := valorCorrigido, parcelas;
    var p := ParcelaMensal(v, n, antes);
    if antes == 0 {
      Simulacao.PrestacaoQuitaEmNMeses(v, TaxaApos, n);
    } else if n - antes == 0 {
      Simulacao.PrestacaoQuitaEmNMeses(v, TaxaAntes, n);
    } else {
      var apos := n - antes;
      var f1 := Fator(TaxaAntes, antes);
      var g := Fator(TaxaApos, apos);
      var p1 := Pow(1.0 + TaxaAntes, antes);
      PowPositive(1.0 + TaxaAntes, antes);
      var f2 := FatorDescontado(TaxaApos, apos, TaxaAntes, antes);
      assert f2 * p1 == g;
      FatorPositivo(TaxaAntes, antes);
      FatorPositivo(TaxaApos, apos);
      DivisaoPositiva(g, p1);
      assert p * (f1 + f2) == v;
      SaldoPorFator(v, p, TaxaAntes, antes);
      var s1 := Simulacao.Saldo(v, p, TaxaAntes, antes);
      assert v - p * f1 == p * f2;
      assert s1 == p1 * (p * f2);
      assert s1 == p * g;
      SaldoPorFator(s1, p, TaxaApos, apos);
    }
  }

  // ---------------------------------------------------------------------------
  // The amortization table

  /** The rate of instalment `k`. */
  function TaxaDaParcela(k: nat, antes: nat): real {
    if k <= antes then TaxaAntes else TaxaApos
  }

  /** The balance left after row `k`: interest at the row's rate, a payment of `pmt` (the
      whole balance on the last row), never below zero. */
  function SaldoTabela(v: real, pmt: real, antes: nat, parcelas: nat, k: nat): real
    requires k <= parcelas
  {
    if k == 0 then v
    else
      var s := SaldoTabela(v, pmt, antes, parcelas, k - 1);
      var juros := s * TaxaDaParcela(k, antes);
      var amortizacao := if k == parcelas then s else pmt - juros;
      Max0(s - amortizacao)
  }

  /** Row `k`: its number, what is paid (`pmt`, or the balance plus its interest on the last
      row), the balance left and the period tag. */
  function LinhaTabela(v: real, pmt: real, antes: nat, parcelas: nat, k: nat): Linha
    requires 1 <= k <= parcelas
  {
    var s := SaldoTabela(v, pmt, antes, parcelas, k - 1);
    var juros := s * TaxaDaParcela(k, antes);
    Linha(k, if k == parcelas then s + juros else pmt, SaldoTabela(v, pmt, antes, parcelas, k),
          if k <= antes then Antes else Apos)
  }

  /** The whole table: `parcelas` rows numbered from 1, tagged 'antes' exactly up to
      `antes`, never owing less than zero, each row's balance the previous one grown by
      the row's rate less what the row pays (floored at zero), and nothing owed at the end. */
  function Tabela(v: real, pmt: real, antes: nat, parcelas: nat): (t: seq<Linha>)
    ensures |t| == parcelas
    ensures forall j :: 0 <= j < parcelas ==> t[j].parcela == j + 1
    ensures forall j :: 0 <= j < parcelas ==> (t[j].periodo == Antes <==> j + 1 <= antes)
    ensures forall j :: 0 <= j < parcelas ==> t[j].saldo >= 0.0
    ensures parcelas > 0 ==> t[parcelas - 1].saldo == 0.0
  {
    seq(parcelas, j requires 0 <= j < parcelas => LinhaTabela(v, pmt, antes, parcelas, j + 1))
  }

  /** Row `k`'s balance is the previous balance grown by the row's rate less what the row pays,
      floored at zero. */
  lemma LinhaSaldo(v: real, pmt: real, antes: nat, parcelas: nat, k: nat)
    requires 1 <= k <= parcelas
    ensures var linha := LinhaTabela(v, pmt, antes, parcelas, k);
      linha.saldo == Max0(SaldoTabela(v, pmt, antes, parcelas, k - 1) * (1.0 + TaxaDaParcela(k, antes)) - linha.valor)
  {
    var s := SaldoTabela(v, pmt, antes, parcelas, k - 1);
    var taxa := TaxaDaParcela(k, antes);
    assert s * (1.0 + taxa) == s + s * taxa;
  }

  /** Each row's balance follows from the one before it (from the corrected balance for the
      first row): interest at the row's rate, less the row's payment, never below zero. */
  lemma TabelaEncadeada(v: real, pmt: real, antes: nat, parcelas: nat)
    ensures var t := Tabela(v, pmt, antes, parcelas);
      parcelas > 0 ==> t[0].saldo == Max0(v * (1.0 + TaxaDaParcela(1, antes)) - t[0].valor)
    ensures var t := Tabela(v, pmt, antes, parcelas);
      forall j :: 1 <= j < parcelas ==> t[j].saldo == Max0(t[j - 1].saldo * (1.0 + TaxaDaParcela(j + 1, antes)) - t[j].valor)
  {
    var t := Tabela(v, pmt, antes, parcelas);
    if parcelas > 0 { LinhaSaldo(v, pmt, antes, parcelas, 1); }
    forall j | 1 <= j < parcelas
      ensures t[j].saldo == Max0(t[j - 1].saldo * (1.0 + TaxaDaParcela(j + 1, antes)) - t[j].valor)
    {
      LinhaSaldo(v, pmt, antes, parcelas, j + 1);
    }
  }

  /** The table-building loop of `proSolutoDetalhes`. */
  method GerarTabela(v: real, pmt: real, antes: nat, parcelas: nat) returns (tabela: seq<Linha>)
    ensures tabela == Tabela(v, pmt, antes, parcelas)
  {
    tabela := [];
    var saldoDevedor := v;
    var i := 1;
    while i <= parcelas
      invariant 1 <= i <= parcelas + 1
      invariant saldoDevedor == SaldoTabela(v, pmt, antes, parcelas, i - 1)
      invariant tabela == Tabela(v, pmt, antes, parcelas)[..i - 1]
    {
      var taxaAtual := if i <= antes then TaxaAntes else TaxaApos;
      var juros := saldoDevedor * taxaAtual;
      var amortizacao := pmt - juros;
      var valorParcela := pmt;
      if i == parcelas {
        valorParcela := saldoDevedor + juros;
        amortizacao := saldoDevedor;
      }
      saldoDevedor := if saldoDevedor - amortizacao > 0.0 then saldoDevedor - amortizacao else 0.0;
      var periodo := if i <= antes then Antes else Apos;
      var linha := Linha(i, valorParcela, saldoDevedor, periodo);
      ghost var t := Tabela(v, pmt, antes, parcelas);
      assert linha == LinhaTabela(v, pmt, antes, parcelas, i) == t[i - 1];
      assert t[..i] == t[..i - 1] + [linha];
      tabela := tabela + [linha];
      i := i + 1;
    }
    assert Tabela(v, pmt, antes, parcelas)[..parcelas] == Tabela(v, pmt, antes, parcelas);
  }

  // ---------------------------------------------------------------------------
  // The planner

  /** `proSolutoDetalhes`: nothing without instalments or without a positive balance to
      spread; otherwise the corrected balance, the rate as a percentage, the split around
      delivery, the level instalment and its table. */
  method CalcularProSolutoDetalhes(fluxo: seq<Cotacao.FluxoItem>, valorBase: real, valorFinanciado: real,
                                   parcelasProSoluto: nat, entrega: Option<Cotacao.Mes>, hoje: Cotacao.Mes)
    returns (r: Option<Detalhes>)
    ensures var base := Cotacao.ProSolutoBase(fluxo, valorBase, valorFinanciado);
      r.None? <==> parcelasProSoluto == 0 || base <= 0.0
    ensures r.Some? ==>
      var d := r.value;
      var deslocamento := Cotacao.Deslocamento(fluxo);
      var meses := Cotacao.MesesAteEntrega(entrega, hoje);
      && d.valorBase == Cotacao.ProSolutoBase(fluxo, valorBase, valorFinanciado)
      && d.valorCorrigido == ValorCorrigido(d.valorBase, deslocamento, meses)
      && d.valorCorrigido > d.valorBase
      && d.taxaCorrecao == TaxaCorrecao(deslocamento, meses) * 100.0
      && d.parcelasAntesEntrega == ParcelasAntes(parcelasProSoluto, meses, deslocamento)
      && d.parcelasAntesEntrega + d.parcelasAposEntrega == parcelasProSoluto
      && d.parcelaMensal == ParcelaMensal(d.valorCorrigido, parcelasProSoluto, d.parcelasAntesEntrega)
      && d.tabela == Tabela(d.valorCorrigido, d.parcelaMensal, d.parcelasAntesEntrega, parcelasProSoluto)
  {
    var valorBaseProSoluto := Cotacao.ProSolutoBase(fluxo, valorBase, valorFinanciado);
    if parcelasProSoluto == 0 || valorBaseProSoluto <= 0.0 {
      return None;
    }
    var mesesAteEntrega := Cotacao.MesesAteEntrega(entrega, hoje);
    var deslocamento := Cotacao.Deslocamento(fluxo);
    var taxaCorrecao := TaxaCorrecao(deslocamento, mesesAteEntrega);
    var valorCorrigido := ValorCorrigido(valorBaseProSoluto, deslocamento, mesesAteEntrega);
    ValorCorrigidoCresce(valorBaseProSoluto, deslocamento, mesesAteEntrega);
    var parcelasAntesEntrega := ParcelasAntes(parcelasProSoluto, mesesAteEntrega, deslocamento);
    var parcelasAposEntrega := parcelasProSoluto - parcelasAntesEntrega;
    var pmt := ParcelaMensal(valorCorrigido, parcelasProSoluto, parcelasAntesEntrega);
    var tabela := GerarTabela(valorCorrigido, pmt, parcelasAntesEntrega, parcelasProSoluto);
    return Some(Detalhes(valorBaseProSoluto, valorCorrigido, taxaCorrecao * 100.0, pmt,
                         parcelasAntesEntrega, parcelasAposEntrega, tabela));
  }
}
