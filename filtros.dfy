/** The catalogue's filter record and the filter panel that edits it (src/components/filters.tsx).
    The record is a value with six text fields, '' meaning "no filter"; the panel keeps its own
    copy unless the page hands it one, and reports every new record through a callback. */
module Filtros {
  import opened Wrappers

  /** The six filter fields, in the order `Object.values` lists them. */
  datatype Filtros = Filtros(
    search: string,
    disponibilidade: string,
    bloco: string,
    andar: string,
    tipologia: string,
    posicaoSol: string)

  /** The keys the panel's controls pass to `updateFilter` and `removeFilter`. */
  datatype Chave = Search | Disponibilidade | Bloco | Andar | Tipologia | PosicaoSol

  /** The record with every field empty (the initial state and `clearFilters`). */
  function Vazio(): Filtros {
    Filtros("", "", "", "", "", "")
  }

  function Campo(f: Filtros, k: Chave): string {
    match k
    case Search => f.search
    case Disponibilidade => f.disponibilidade
    case Bloco => f.bloco
    case Andar => f.andar
    case Tipologia => f.tipologia
    case PosicaoSol => f.posicaoSol
  }

  /** `{ ...f, [k]: v }`. */
  function ComCampo(f: Filtros, k: Chave, v: string): (r: Filtros)
    ensures Campo(r, k) == v
    ensures forall k' :: k' != k ==> Campo(r, k') == Campo(f, k')
  {
    match k
    case Search => f.(search := v)
    case Disponibilidade => f.(disponibilidade := v)
    case Bloco => f.(bloco := v)
    case Andar => f.(andar := v)
    case Tipologia => f.(tipologia := v)
    case PosicaoSol => f.(posicaoSol := v)
  }

  /** The field values in declaration order (`Object.values(filters)`). */
  function Valores(f: Filtros): seq<string> {
    [f.search, f.disponibilidade, f.bloco, f.andar, f.tipologia, f.posicaoSol]
  }

  function Posicao(k: Chave): nat {
    match k
    case Search => 0
    case Disponibilidade => 1
    case Bloco => 2
    case Andar => 3
    case Tipologia => 4
    case PosicaoSol => 5
  }

  /** Number of non-empty strings in `s`. */
  function NaoVazios(s: seq<string>): (r: nat)
    ensures r <= |s|
  {
    if |s| == 0 then 0
    else NaoVazios(s[..|s| - 1]) + (if s[|s| - 1] != "" then 1 else 0)
  }

  /** `activeFiltersCount`: how many of the six fields are non-empty. */
  function ContarAtivos(f: Filtros): (r: nat) {
    NaoVazios(Valores(f))
  }

  /** The count is at most six, and zero exactly when every field is empty. */
  lemma ContarAtivosLimites(f: Filtros)
    ensures ContarAtivos(f) <= 6
    ensures ContarAtivos(f) == 0 <==> f == Vazio()
  {
    var s := Valores(f);
    NaoVaziosZero(s);
    if ContarAtivos(f) == 0 {
      assert s[0] == "" && s[1] == "" && s[2] == "" && s[3] == "" && s[4] == "" && s[5] == "";
    }
  }

  /** No string counts exactly when every string is empty. */
  lemma {:induction false} NaoVaziosZero(s: seq<string>)
    ensures NaoVazios(s) == 0 <==> forall i :: 0 <= i < |s| ==> s[i] == ""
    decreases |s|
  {
    if |s| > 0 {
      NaoVaziosZero(s[..|s| - 1]);
      assert forall i :: 0 <= i < |s| - 1 ==> s[..|s| - 1][i] == s[i];
    }
  }

  /** Replacing one string changes the count by what the old and new strings contribute. */
  lemma {:induction false} NaoVaziosAtualizar(s: seq<string>, i: nat, v: string)
    requires i < |s|
    ensures NaoVazios(s[i := v]) + (if s[i] != "" then 1 else 0)
         == NaoVazios(s) + (if v != "" then 1 else 0)
    decreases |s|
  {
    var t := s[i := v];
    if i == |s| - 1 {
      assert t[..|t| - 1] == s[..|s| - 1];
    } else {
      assert t[..|t| - 1] == s[..|s| - 1][i := v];
      NaoVaziosAtualizar(s[..|s| - 1], i, v);
    }
  }

  lemma ValoresComCampo(f: Filtros, k: Chave, v: string)
    ensures Posicao(k) < 6
    ensures Valores(ComCampo(f, k, v)) == Valores(f)[Posicao(k) := v]
  {
  }

  /** The value `updateFilter` stores: the select's 'all' entry means "no filter". */
  function Normalizar(v: string): string {
    if v == "all" then "" else v
  }

  /** `updateFilter(k, v)`'s new record: field `k` becomes `v`, or '' when `v` is 'all'. */
  function Atualizar(f: Filtros, k: Chave, v: string): (r: Filtros)
    ensures Campo(r, k) == (if v == "all" then "" else v)
    ensures forall k' :: k' != k ==> Campo(r, k') == Campo(f, k')
  {
    ComCampo(f, k, Normalizar(v))
  }

  /** `removeFilter(k)`, which is `updateFilter(k, '')`. */
  function Remover(f: Filtros, k: Chave): (r: Filtros)
    ensures Campo(r, k) == ""
    ensures forall k' :: k' != k ==> Campo(r, k') == Campo(f, k')
  {
    Atualizar(f, k, "")
  }

  /** Updating one field moves the active count by that field's contribution only. */
  lemma {:induction false} ContarAposAtualizar(f: Filtros, k: Chave, v: string)
    ensures ContarAtivos(Atualizar(f, k, v)) + (if Campo(f, k) != "" then 1 else 0)
         == ContarAtivos(f) + (if Normalizar(v) != "" then 1 else 0)
  {
    ValoresComCampo(f, k, Normalizar(v));
    assert Valores(f)[Posicao(k)] == Campo(f, k);
    NaoVaziosAtualizar(Valores(f), Posicao(k), Normalizar(v));
  }

  /** Removing an active filter lowers the count by one; removing an inactive one keeps it. */
  lemma ContarAposRemover(f: Filtros, k: Chave)
    ensures Campo(f, k) != "" ==> ContarAtivos(Remover(f, k)) + 1 == ContarAtivos(f)
    ensures Campo(f, k) == "" ==> Remover(f, k) == f
  {
    ContarAposAtualizar(f, k, "");
  }

  /** Selecting a field's 'all' entry is the same as removing that filter. */
  lemma TodosEhRemover(f: Filtros, k: Chave)
    ensures Atualizar(f, k, "all") == Remover(f, k)
  {
  }

  /** The text box goes through `updateFilter` too, so typing the word "all" as a search
      clears the search instead of looking for it. */
  lemma BuscaTodosApaga(f: Filtros)
    ensures Atualizar(f, Search, "all").search == ""
  {
  }

  /** The filter panel's state: its own record, the record the page may pass in, and the
      records reported so far through `onFiltersChange`. */
  class Painel {
    var internos: Filtros
    var externos: Option<Filtros>
    var enviados: seq<Filtros>

    /** The record the panel shows: the page's when given, its own otherwise. */
    function Atuais(): Filtros
      reads this
    {
      match externos
      case Some(e) => e
      case None => internos
    }

    /** A panel starts with every field of its own record empty. */
    constructor(externos: Option<Filtros>)
      ensures this.internos == Vazio()
      ensures this.externos == externos
      ensures this.enviados == []
    {
      this.internos := Vazio();
      this.externos := externos;
      this.enviados := [];
    }

    /** `updateFilter`: the new record is reported; the panel's own record follows it
        only when the page does not supply one. */
    method AtualizarFiltro(k: Chave, v: string)
      modifies this
      ensures enviados == old(enviados) + [Atualizar(old(Atuais()), k, v)]
      ensures externos == old(externos)
      ensures old(externos).Some? ==> internos == old(internos)
      ensures old(externos).None? ==> internos == Atualizar(old(internos), k, v)
    {
      var novos := Atualizar(Atuais(), k, v);
      if externos.None? {
        internos := novos;
      }
      enviados := enviados + [novos];
    }

    /** `removeFilter`, through `updateFilter`. */
    method RemoverFiltro(k: Chave)
      modifies this
      ensures enviados == old(enviados) + [Remover(old(Atuais()), k)]
      ensures externos == old(externos)
      ensures old(externos).Some? ==> internos == old(internos)
      ensures old(externos).None? ==> internos == Remover(old(internos), k)
    {
      AtualizarFiltro(k, "");
    }

    /** `clearFilters`: the empty record is reported, and kept when the panel owns its state. */
    method LimparFiltros()
      modifies this
      ensures enviados == old(enviados) + [Vazio()]
      ensures externos == old(externos)
      ensures old(externos).Some? ==> internos == old(internos)
      ensures old(externos).None? ==> internos == Vazio() && ContarAtivos(Atuais()) == 0
    {
      if externos.None? {
        internos := Vazio();
        ContarAtivosLimites(internos);
      }
      enviados := enviados + [Vazio()];
    }
  }
}
