/** The unit card (src/components/unidade-card.tsx): which clicks open a simulator, the numbers
    its two buttons send, and the bonus and difference the card shows. The card reads money with
    the catalogue's reader (`Money.ParseValorMonetario`), written out again in each handler. */
module UnidadeCard {
  import opened Wrappers
  import opened Decimal
  import Money
  import Catalogo

  /** `isAvailable`: only a unit whose status is exactly 'Disponível' opens a simulator. */
  predicate Disponivel(disponibilidade: string) {
    disponibilidade == "Disponível"
  }

  /** The click handlers' reader: the catalogue's reader, then `toFixed(2)`, which the Caixa
      handler reads back with `parseFloat`; `NaN` stays `None`. */
  function ValorEmCentavos(valor: string): (r: Option<real>)
    ensures r.None? <==> Money.ParseValorMonetario(valor).None?
    ensures r.Some? ==> var x := Money.ParseValorMonetario(valor).value;
                        x - 0.005 < r.value <= x + 0.005
  {
    match Money.ParseValorMonetario(valor)
    case None => None
    case Some(x) => Some(RoundCents(x))
  }

  /** `bonusConstrutora`: what the appraisal exceeds the sale price by, to the cent, and 0 when it
      does not or when either value does not read (`NaN > x` is false). */
  function Bonus(avaliacao: Option<real>, venda: Option<real>): (r: real)
    ensures r >= 0.0
    ensures r > 0.0 ==> avaliacao.Some? && venda.Some? && avaliacao.value > venda.value
    ensures avaliacao.None? || venda.None? ==> r == 0.0
  {
    if avaliacao.Some? && venda.Some? && avaliacao.value > venda.value then
      RoundCents(avaliacao.value - venda.value)
    else 0.0
  }

  /** Where the calculator button goes: the unit's simulator page, with the sale price and the
      development's slug. */
  datatype DestinoSimulador = DestinoSimulador(unidade: string, valorVenda: Option<real>, empreendimento: string)

  /** `handleCalculatorClick`: only an available unit of a known development navigates. */
  function CliqueCalculadora(u: Catalogo.Unidade, slug: Option<string>): (r: Option<DestinoSimulador>)
    ensures r.Some? <==> Disponivel(u.disponibilidade) && slug.Some? && slug.value != ""
    ensures r.Some? ==> r.value.unidade == u.unidade && r.value.empreendimento == slug.value
    ensures r.Some? ==> r.value.valorVenda == ValorEmCentavos(u.valorVenda)
  {
    if Disponivel(u.disponibilidade) && slug.Some? && slug.value != "" then
      Some(DestinoSimulador(u.unidade, ValorEmCentavos(u.valorVenda), slug.value))
    else None
  }

  /** The query the Caixa button sends to the Caixa simulator. */
  datatype ParametrosCaixa = ParametrosCaixa(
    valorAvaliacao: Option<real>,
    valorVenda: Option<real>,
    bonusConstrutora: real,
    unidade: string,
    tipologia: string,
    area: string,
    empreendimento: string)

  /** `handleCaixaClick`: any available unit navigates; the development may be unknown ('' then). */
  function CliqueCaixa(u: Catalogo.Unidade, slug: Option<string>): (r: Option<ParametrosCaixa>)
    ensures r.Some? <==> Disponivel(u.disponibilidade)
    ensures r.Some? ==> r.value.valorAvaliacao == ValorEmCentavos(u.valorAvaliacao)
    ensures r.Some? ==> r.value.valorVenda == ValorEmCentavos(u.valorVenda)
    ensures r.Some? ==> r.value.bonusConstrutora == Bonus(r.value.valorAvaliacao, r.value.valorVenda)
    ensures r.Some? ==> r.value.bonusConstrutora >= 0.0
    ensures r.Some? ==> r.value.unidade == u.unidade && r.value.tipologia == u.tipologia
    ensures r.Some? ==> r.value.area == u.areaPrivativa
    ensures r.Some? ==> r.value.empreendimento == (if slug.Some? then slug.value else "")
  {
    if Disponivel(u.disponibilidade) then
      var avaliacao := ValorEmCentavos(u.valorAvaliacao);
      var venda := ValorEmCentavos(u.valorVenda);
      Some(ParametrosCaixa(avaliacao, venda, Bonus(avaliacao, venda), u.unidade, u.tipologia,
                           u.areaPrivativa, slug.GetOr("")))
    else None
  }

  /** What the card shows about the two prices (the formatted strings are not modelled). */
  datatype Valores = Valores(temBonus: bool, diferenca: real, percentualDiferenca: real)

  /** The gap as a share of the appraisal, in percent. */
  lemma PercentualDoGap(d: real, a: real)
    requires a > 0.0
    ensures d / a * 100.0 * a == d * 100.0
  {
    assert d / a * a == d;
  }

  /** `calcularValores` on the two prices as read: nothing when either is `NaN`; otherwise
      whether the appraisal is above the sale price, the size of the gap, and the gap as a share
      of the appraisal (0 when the appraisal is not positive). */
  function ValoresDe(avaliacao: Option<real>, venda: Option<real>): (r: Option<Valores>)
    ensures r.None? <==> avaliacao.None? || venda.None?
    ensures r.Some? ==> (r.value.temBonus <==> avaliacao.value > venda.value)
    ensures r.Some? ==> r.value.diferenca >= 0.0
    ensures r.Some? ==> r.value.diferenca == avaliacao.value - venda.value
                        || r.value.diferenca == venda.value - avaliacao.value
    ensures r.Some? && avaliacao.value <= 0.0 ==> r.value.percentualDiferenca == 0.0
    ensures r.Some? && avaliacao.value > 0.0 ==>
              r.value.percentualDiferenca * avaliacao.value == r.value.diferenca * 100.0
  {
    match (avaliacao, venda)
    case (Some(a), Some(v)) =>
      var diferenca := if a - v >= 0.0 then a - v else v - a;
      if a > 0.0 then
        PercentualDoGap(diferenca, a);
        Some(Valores(a > v, diferenca, diferenca / a * 100.0))
      else Some(Valores(a > v, diferenca, 0.0))
    case _ => None
  }

  /** `calcularValores` for the card's two price texts. */
  function CalcularValores(valorAvaliacao: string, valorVenda: string): Option<Valores> {
    ValoresDe(Money.ParseValorMonetario(valorAvaliacao), Money.ParseValorMonetario(valorVenda))
  }

  /** The Caixa button sends a bonus only when the card itself shows one: rounding both prices to
      the cent never turns a sale price at or above the appraisal into a bonus. */
  lemma BonusSoComDiferenca(u: Catalogo.Unidade, slug: Option<string>)
    requires CliqueCaixa(u, slug).Some? && CliqueCaixa(u, slug).value.bonusConstrutora > 0.0
    ensures CalcularValores(u.valorAvaliacao, u.valorVenda).Some?
    ensures CalcularValores(u.valorAvaliacao, u.valorVenda).value.temBonus
  {
    var a := Money.ParseValorMonetario(u.valorAvaliacao).value;
    var v := Money.ParseValorMonetario(u.valorVenda).value;
    if a <= v {
      RoundCentsMonotone(a, v);
    }
  }

  /** Each price the Caixa button sends is a whole number of cents. */
  lemma ValorEmCentavosInteiro(valor: string)
    ensures ValorEmCentavos(valor).Some? ==> RoundCents(ValorEmCentavos(valor).value) == ValorEmCentavos(valor).value
  {
    if ValorEmCentavos(valor).Some? {
      RoundCentsIdempotent(Money.ParseValorMonetario(valor).value);
    }
  }

  /** The bonus the Caixa button sends is the exact difference of the two prices it sends, both
      already rounded to the cent, when the appraisal is the higher; otherwise it is 0. */
  lemma BonusDaCaixa(u: Catalogo.Unidade, slug: Option<string>)
    requires CliqueCaixa(u, slug).Some?
    ensures var p := CliqueCaixa(u, slug).value;
      if p.valorAvaliacao.Some? && p.valorVenda.Some? && p.valorAvaliacao.value > p.valorVenda.value
      then p.bonusConstrutora == p.valorAvaliacao.value - p.valorVenda.value
      else p.bonusConstrutora == 0.0
  {
    var p := CliqueCaixa(u, slug).value;
    ValorEmCentavosInteiro(u.valorAvaliacao);
    ValorEmCentavosInteiro(u.valorVenda);
    BonusDeCentavos(p.valorAvaliacao, p.valorVenda);
  }

  /** On prices that are whole numbers of cents the bonus needs no rounding. */
  lemma BonusDeCentavos(avaliacao: Option<real>, venda: Option<real>)
    requires avaliacao.Some? ==> RoundCents(avaliacao.value) == avaliacao.value
    requires venda.Some? ==> RoundCents(venda.value) == venda.value
    ensures Bonus(avaliacao, venda) ==
      if avaliacao.Some? && venda.Some? && avaliacao.value > venda.value
      then avaliacao.value - venda.value else 0.0
  {
    if avaliacao.Some? && venda.Some? && avaliacao.value > venda.value {
      RoundCentsDifference(avaliacao.value, venda.value);
    }
  }

  /** For prices in whole cents the bonus is exactly the difference the card shows. */
  lemma BonusEmCentavos(ka: int, kv: int)
    requires ka > kv
    ensures Bonus(Some(RoundCents(ka as real / 100.0)), Some(RoundCents(kv as real / 100.0)))
            == ka as real / 100.0 - kv as real / 100.0
  {
    RoundCentsExact(ka);
    RoundCentsExact(kv);
    assert ka as real / 100.0 - kv as real / 100.0 == (ka - kv) as real / 100.0;
    RoundCentsExact(ka - kv);
  }
}
