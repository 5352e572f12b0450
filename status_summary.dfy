/** The status summary cards (src/components/status-summary.tsx) and the page's handler that turns
    a card click into the availability filter (src/app/page.tsx). */
module StatusSummary {
  import opened Wrappers
  import Filtros

  /** The six cards, in display order. */
  datatype Cartao = Disponiveis | Vendidas | Reservadas | Quitadas | Mirror | ForaDeVenda

  /** The availability value each card filters by (`statusConfig[...].filterValue`). */
  function ValorFiltro(c: Cartao): string {
    match c
    case Disponiveis => "Disponível"
    case Vendidas => "Vendida"
    case Reservadas => "Reservada"
    case Quitadas => "Quitado"
    case Mirror => "Mirror"
    case ForaDeVenda => "Fora de Venda"
  }

  /** What a click hands to `onFilterClick`: `None` when there is no callback (nothing happens),
      `Some(None)` for `onFilterClick(null)`, `Some(Some(v))` for `onFilterClick(v)`. */
  function Clique(ativo: Option<string>, temCallback: bool, c: Cartao): (r: Option<Option<string>>)
    ensures r.None? <==> !temCallback
    ensures r == Some(None) <==> temCallback && ativo == Some(ValorFiltro(c))
    ensures r.Some? && r.value.Some? ==> r.value.value == ValorFiltro(c) && ativo != Some(ValorFiltro(c))
  {
    if ativo == Some(ValorFiltro(c)) && temCallback then Some(None)
    else if temCallback then Some(Some(ValorFiltro(c)))
    else None
  }

  /** A card is highlighted when the active filter is its value. */
  predicate Ativo(ativo: Option<string>, c: Cartao) {
    ativo == Some(ValorFiltro(c))
  }

  /** The six filter values are distinct. */
  lemma {:induction false} ValoresDistintos(c1: Cartao, c2: Cartao)
    ensures ValorFiltro(c1) == ValorFiltro(c2) ==> c1 == c2
  {
  }

  /** So at most one card is highlighted at a time. */
  lemma AoMaisUmAtivo(ativo: Option<string>, c1: Cartao, c2: Cartao)
    ensures Ativo(ativo, c1) && Ativo(ativo, c2) ==> c1 == c2
  {
    ValoresDistintos(c1, c2);
  }

  /** The share shown on a card, in percent: 0 when there are no units at all. */
  function Percentual(contagem: nat, total: nat): (r: real)
    ensures total == 0 ==> r == 0.0
    ensures contagem <= total ==> 0.0 <= r <= 100.0
    ensures total > 0 && contagem == total ==> r == 100.0
  {
    if total > 0 then contagem as real / total as real * 100.0 else 0.0
  }

  /** The page's `onFilterClick` handler: the argument, or '' for `null`
      (`disponibilidade || ''`), becomes the availability filter; the rest is kept. */
  function AoClicar(f: Filtros.Filtros, arg: Option<string>): (r: Filtros.Filtros)
    ensures r.disponibilidade == (if arg.Some? then arg.value else "")
    ensures r == f.(disponibilidade := r.disponibilidade)
  {
    f.(disponibilidade := arg.GetOr(""))
  }

  /** One click on a card as wired by the page: the card's status is the active one
      (`activeFilter={filters.disponibilidade}`) and the callback is present. */
  function CliquePagina(f: Filtros.Filtros, c: Cartao): Filtros.Filtros {
    match Clique(Some(f.disponibilidade), true, c)
    case None => f
    case Some(arg) => AoClicar(f, arg)
  }

  /** A click toggles: it clears the filter when the card was active and selects the card otherwise;
      no other filter changes. */
  lemma CliqueAlterna(f: Filtros.Filtros, c: Cartao)
    ensures CliquePagina(f, c).disponibilidade ==
            (if f.disponibilidade == ValorFiltro(c) then "" else ValorFiltro(c))
    ensures CliquePagina(f, c) == f.(disponibilidade := CliquePagina(f, c).disponibilidade)
  {
  }

  /** Clicking the same card twice from a state where it is not active returns the availability
      filter to '' and leaves the rest of the record as it was. */
  lemma {:induction false} CliqueDuplo(f: Filtros.Filtros, c: Cartao)
    requires f.disponibilidade != ValorFiltro(c)
    ensures CliquePagina(CliquePagina(f, c), c) == f.(disponibilidade := "")
  {
    CliqueAlterna(f, c);
    CliqueAlterna(CliquePagina(f, c), c);
  }
}
