/** The sales mirror's catalogue rules (src/app/page.tsx): which units a filter record keeps,
    the option lists the filter panel offers, and the counts behind the status cards. */
module Catalogo {
  import opened Wrappers
  import opened Strings
  import opened Decimal
  import Filtros
  import StatusSummary

  /** A unit as the units endpoint delivers it; prices and area stay text. */
  datatype Unidade = Unidade(
    id: string,
    unidade: string,
    andar: int,
    areaPrivativa: string,
    tipologia: string,
    posicaoSol: string,
    vaga: int,
    valorAvaliacao: string,
    valorVenda: string,
    disponibilidade: string)

  // ---------------------------------------------------------------- filtering

  /** The search box: a case-insensitive substring of the unit code. */
  predicate PassaBusca(u: Unidade, busca: string) {
    busca == "" || Contains(ToLower(u.unidade), ToLower(busca))
  }

  /** The availability filter: 'Reservada' takes every status that mentions it,
      any other value must match exactly. */
  predicate PassaSituacao(u: Unidade, situacao: string) {
    situacao == "" ||
    (if situacao == "Reservada" then Contains(u.disponibilidade, "Reservada")
     else u.disponibilidade == situacao)
  }

  /** The floor a floor-filter text selects: 'Térreo' is 0, anything else goes through
      `parseInt`, whose `NaN` (here `None`) matches no floor. */
  function AndarDoFiltro(andar: string): Option<int> {
    if andar == "Térreo" then Some(0) else ParseIntPrefix(andar)
  }

  predicate PassaAndar(u: Unidade, andar: string) {
    andar == "" || AndarDoFiltro(andar) == Some(u.andar)
  }

  /** The predicate `filteredAndSortedUnidades` filters with: every non-empty field must hold. */
  predicate Passa(u: Unidade, f: Filtros.Filtros) {
    PassaBusca(u, f.search) &&
    PassaSituacao(u, f.disponibilidade) &&
    (f.bloco == "" || StartsWith(u.unidade, f.bloco)) &&
    PassaAndar(u, f.andar) &&
    (f.tipologia == "" || u.tipologia == f.tipologia) &&
    (f.posicaoSol == "" || u.posicaoSol == f.posicaoSol)
  }

  /** The units a filter record keeps, in catalogue order. */
  function Filtrar(us: seq<Unidade>, f: Filtros.Filtros): (r: seq<Unidade>)
    ensures |r| <= |us|
    ensures forall i :: 0 <= i < |r| ==> Passa(r[i], f)
    ensures forall u :: u in r <==> u in us && Passa(u, f)
  {
    if |us| == 0 then []
    else
      var us' := us[..|us| - 1];
      var u := us[|us| - 1];
      assert us == us' + [u];
      var r := Filtrar(us', f);
      if Passa(u, f) then r + [u] else r
  }

  /** Filtering a concatenation filters each part: kept units keep their relative order. */
  lemma {:induction false} FiltrarConcat(a: seq<Unidade>, b: seq<Unidade>, f: Filtros.Filtros)
    ensures Filtrar(a + b, f) == Filtrar(a, f) + Filtrar(b, f)
    decreases |b|
  {
    if |b| == 0 {
      assert a + b == a;
    } else {
      var b' := b[..|b| - 1];
      assert (a + b)[..|a + b| - 1] == a + b';
      assert b[..|b| - 1] == b';
      FiltrarConcat(a, b', f);
    }
  }

  /** An all-empty filter record keeps every unit. */
  lemma {:induction false} FiltrarVazio(us: seq<Unidade>)
    ensures Filtrar(us, Filtros.Vazio()) == us
    decreases |us|
  {
    if |us| > 0 {
      FiltrarVazio(us[..|us| - 1]);
      assert us[..|us| - 1] + [us[|us| - 1]] == us;
    }
  }

  /** Adding a filter never brings a unit back: filtering again by a record that only
      adds fields keeps a subset. */
  lemma FiltrarDuasVezes(us: seq<Unidade>, f: Filtros.Filtros, k: Filtros.Chave, v: string)
    requires Filtros.Campo(f, k) == ""
    ensures forall u :: u in Filtrar(us, Filtros.Atualizar(f, k, v)) ==> u in Filtrar(us, f)
  {
    forall u | u in Filtrar(us, Filtros.Atualizar(f, k, v))
      ensures u in Filtrar(us, f)
    {
      assert Passa(u, Filtros.Atualizar(f, k, v));
      match k
      case Search =>
      case Disponibilidade =>
      case Bloco =>
      case Andar =>
      case Tipologia =>
      case PosicaoSol =>
    }
  }

  // ---------------------------------------------------------------- option lists

  predicate Distintos<T(==)>(s: seq<T>) {
    forall i, j :: 0 <= i < j < |s| ==> s[i] != s[j]
  }

  /** `[...new Set(s)]`: each value of `s` once (`DedupPrimeiraOcorrencia` gives the order). */
  function Dedup<T(==,!new)>(s: seq<T>): (r: seq<T>)
    ensures Distintos(r)
    ensures forall x :: x in r <==> x in s
    ensures |r| <= |s|
  {
    if |s| == 0 then []
    else
      var d := Dedup(s[..|s| - 1]);
      var x := s[|s| - 1];
      assert s == s[..|s| - 1] + [x];
      if x in d then d else d + [x]
  }

  /** Where `x` first occurs in `s`. */
  function PrimeiroIndice<T(==)>(s: seq<T>, x: T): (i: nat)
    requires x in s
    ensures i < |s| && s[i] == x && x !in s[..i]
  {
    if s[0] == x then 0
    else
      var i := 1 + PrimeiroIndice(s[1..], x);
      assert s[..i] == [s[0]] + s[1..][..i - 1];
      i
  }

  /** A value that occurs in a prefix first occurs where it first occurs in the prefix. */
  lemma PrimeiroIndicePrefixo<T>(s: seq<T>, m: nat, x: T)
    requires m <= |s| && x in s[..m]
    ensures PrimeiroIndice(s, x) == PrimeiroIndice(s[..m], x)
  {
    var i, j := PrimeiroIndice(s[..m], x), PrimeiroIndice(s, x);
    assert s[..m][..i] == s[..i];
  }

  /** The values of `r`, all taken from `s`, stand in the order of their first occurrence in `s`. */
  predicate NaOrdemDe<T(==)>(r: seq<T>, s: seq<T>)
    requires forall x :: x in r ==> x in s
  {
    forall i, j :: 0 <= i < j < |r| ==> PrimeiroIndice(s, r[i]) < PrimeiroIndice(s, r[j])
  }

  /** `Set` iteration order: the values come out in the order of their first occurrence in `s`. */
  lemma {:induction false} DedupPrimeiraOcorrencia<T(!new)>(s: seq<T>)
    ensures NaOrdemDe(Dedup(s), s)
    decreases |s|
  {
    if |s| > 0 {
      var init := s[..|s| - 1];
      var x := s[|s| - 1];
      var d := Dedup(init);
      DedupPrimeiraOcorrencia(init);
      assert NaOrdemDe(d, init);
      forall y | y in d ensures PrimeiroIndice(s, y) == PrimeiroIndice(init, y) {
        assert y in init;
        PrimeiroIndicePrefixo(s, |s| - 1, y);
      }
      var r := Dedup(s);
      assert r == if x in d then d else d + [x];
      if x !in d {
        assert x !in init;
        assert PrimeiroIndice(s, x) == |s| - 1;
      }
      forall i, j | 0 <= i < j < |r| ensures PrimeiroIndice(s, r[i]) < PrimeiroIndice(s, r[j]) {
        assert r[i] == d[i] && r[i] in d;
        if j < |d| {
          assert r[j] == d[j] && r[j] in d;
          assert PrimeiroIndice(init, d[i]) < PrimeiroIndice(init, d[j]);
        } else {
          assert r[j] == x;
          assert PrimeiroIndice(init, d[i]) < |init|;
        }
      }
    }
  }

  /** Strictly increasing in code-unit order. */
  predicate CrescenteTextos(s: seq<string>) {
    forall i, j :: 0 <= i < j < |s| ==> LexLess(s[i], s[j])
  }

  function InserirTexto(x: string, s: seq<string>): (r: seq<string>)
    requires CrescenteTextos(s) && x !in s
    ensures CrescenteTextos(r)
    ensures |r| == |s| + 1
    ensures forall y :: y in r <==> y == x || y in s
  {
    if |s| == 0 then [x]
    else if LexLess(x, s[0]) then
      forall j | 0 <= j < |s| ensures LexLess(x, s[j]) {
        if j > 0 { LexLessTransitive(x, s[0], s[j]); }
      }
      [x] + s
    else
      LexLessTotal(x, s[0]);
      var s' := s[1..];
      assert CrescenteTextos(s') by {
        forall i, j | 0 <= i < j < |s'| ensures LexLess(s'[i], s'[j]) {
          assert s'[i] == s[i + 1] && s'[j] == s[j + 1];
        }
      }
      var t := InserirTexto(x, s');
      forall y | y in t ensures LexLess(s[0], y) {
        if y != x {
          var j :| 0 <= j < |s'| && s'[j] == y;
          assert s[j + 1] == y;
        }
      }
      var r := [s[0]] + t;
      forall i, j | 0 <= i < j < |r| ensures LexLess(r[i], r[j]) {
        assert r[j] == t[j - 1];
        if i > 0 { assert r[i] == t[i - 1]; }
      }
      assert forall y :: y in s <==> y == s[0] || y in s';
      r
  }

  /** The default `sort()` of a duplicate-free list of strings. */
  function OrdenarTextos(s: seq<string>): (r: seq<string>)
    requires Distintos(s)
    ensures CrescenteTextos(r)
    ensures |r| == |s|
    ensures forall y :: y in r <==> y in s
  {
    if |s| == 0 then []
    else
      var s' := s[..|s| - 1];
      assert forall y :: y in s' ==> y in s;
      assert s[|s| - 1] !in s';
      assert s == s' + [s[|s| - 1]];
      InserirTexto(s[|s| - 1], OrdenarTextos(s'))
  }

  predicate CrescenteInteiros(s: seq<int>) {
    forall i, j :: 0 <= i < j < |s| ==> s[i] < s[j]
  }

  function InserirInteiro(x: int, s: seq<int>): (r: seq<int>)
    requires CrescenteInteiros(s) && x !in s
    ensures CrescenteInteiros(r)
    ensures |r| == |s| + 1
    ensures forall y :: y in r <==> y == x || y in s
  {
    if |s| == 0 then [x]
    else if x < s[0] then [x] + s
    else
      var s' := s[1..];
      var t := InserirInteiro(x, s');
      forall y | y in t ensures s[0] < y {
        if y != x {
          var j :| 0 <= j < |s'| && s'[j] == y;
          assert s[j + 1] == y;
        }
      }
      var r := [s[0]] + t;
      forall i, j | 0 <= i < j < |r| ensures r[i] < r[j] {
        assert r[j] == t[j - 1] && t[j - 1] in t;
        if i > 0 { assert r[i] == t[i - 1]; }
      }
      assert forall y :: y in s <==> y == s[0] || y in s';
      r
  }

  /** `sort((a, b) => a - b)` of a duplicate-free list of floors. */
  function OrdenarInteiros(s: seq<int>): (r: seq<int>)
    requires Distintos(s)
    ensures CrescenteInteiros(r)
    ensures |r| == |s|
    ensures forall y :: y in r <==> y in s
  {
    if |s| == 0 then []
    else
      var s' := s[..|s| - 1];
      assert forall y :: y in s' ==> y in s;
      assert s[|s| - 1] !in s';
      assert s == s' + [s[|s| - 1]];
      InserirInteiro(s[|s| - 1], OrdenarInteiros(s'))
  }

  /** The block of a unit: its code up to the first '-' (`unidade.split('-')[0]`). */
  function Bloco(codigo: string): (r: string)
    ensures StartsWith(codigo, r)
    ensures '-' !in r
    ensures r == codigo || codigo[|r|] == '-'
  {
    match IndexOf(codigo, '-')
    case None => codigo
    case Some(k) => codigo[..k]
  }

  /** The label of a floor option: 'Térreo' for 0, otherwise the number and "º Andar". */
  function RotuloAndar(a: int): string {
    if a == 0 then "Térreo" else IntToString(a) + "º Andar"
  }

  /** A nonzero floor written out and followed by a non-digit is read back by `parseInt`. */
  lemma NumeroLido(a: int, tail: string)
    requires a != 0 && |tail| > 0 && !IsDigit(tail[0])
    ensures ParseIntPrefix(IntToString(a) + tail) == Some(a)
  {
    if a > 0 {
      ParseIntLeading(NatToDigits(a), tail);
    } else {
      var d := NatToDigits(-a);
      var m := IntToString(a) + tail;
      assert m[0] == '-';
      assert m[1..] == d + tail;
      ParseIntBodyLeading(d, tail);
      ParseIntNegated(m, d + tail);
    }
  }

  /** Choosing a floor's option filters by exactly that floor: `parseInt` reads the number
      back from the label, and 'Térreo' maps to 0. */
  lemma RotuloAndarLido(a: int)
    ensures AndarDoFiltro(RotuloAndar(a)) == Some(a)
  {
    if a != 0 {
      var r := RotuloAndar(a);
      assert r[0] == IntToString(a)[0];
      assert r != "Térreo" by { assert r[0] != 'T'; }
      NumeroLido(a, "º Andar");
    }
  }

  /** Different floors get different labels. */
  lemma RotuloAndarInjetivo(a: int, b: int)
    ensures RotuloAndar(a) == RotuloAndar(b) ==> a == b
  {
    RotuloAndarLido(a);
    RotuloAndarLido(b);
  }

  function Situacoes(us: seq<Unidade>): (r: seq<string>)
    ensures forall x :: x in r <==> exists i :: 0 <= i < |us| && us[i].disponibilidade == x
  {
    var r := seq(|us|, i requires 0 <= i < |us| => us[i].disponibilidade);
    assert forall i :: 0 <= i < |us| ==> r[i] == us[i].disponibilidade;
    r
  }

  function Blocos(us: seq<Unidade>): (r: seq<string>)
    ensures forall x :: x in r <==> exists i :: 0 <= i < |us| && Bloco(us[i].unidade) == x
  {
    var r := seq(|us|, i requires 0 <= i < |us| => Bloco(us[i].unidade));
    assert forall i :: 0 <= i < |us| ==> r[i] == Bloco(us[i].unidade);
    r
  }

  function Andares(us: seq<Unidade>): (r: seq<int>)
    ensures forall x :: x in r <==> exists i :: 0 <= i < |us| && us[i].andar == x
  {
    var r := seq(|us|, i requires 0 <= i < |us| => us[i].andar);
    assert forall i :: 0 <= i < |us| ==> r[i] == us[i].andar;
    r
  }

  function Tipologias(us: seq<Unidade>): (r: seq<string>)
    ensures forall x :: x in r <==> exists i :: 0 <= i < |us| && us[i].tipologia == x
  {
    var r := seq(|us|, i requires 0 <= i < |us| => us[i].tipologia);
    assert forall i :: 0 <= i < |us| ==> r[i] == us[i].tipologia;
    r
  }

  function Posicoes(us: seq<Unidade>): (r: seq<string>)
    ensures forall x :: x in r <==> exists i :: 0 <= i < |us| && us[i].posicaoSol == x
  {
    var r := seq(|us|, i requires 0 <= i < |us| => us[i].posicaoSol);
    assert forall i :: 0 <= i < |us| ==> r[i] == us[i].posicaoSol;
    r
  }

  /** The distinct floors in ascending order. */
  function AndaresOrdenados(us: seq<Unidade>): (r: seq<int>)
    ensures CrescenteInteiros(r)
    ensures forall a :: a in r <==> exists i :: 0 <= i < |us| && us[i].andar == a
  {
    OrdenarInteiros(Dedup(Andares(us)))
  }

  datatype Opcoes = Opcoes(
    disponibilidade: seq<string>,
    bloco: seq<string>,
    andar: seq<string>,
    tipologia: seq<string>,
    posicaoSol: seq<string>)

  /** `filterOptions`. */
  function OpcoesDeFiltro(us: seq<Unidade>): (r: Opcoes) {
    if |us| == 0 then Opcoes([], [], [], [], [])
    else
      var andares := AndaresOrdenados(us);
      Opcoes(
        Dedup(Situacoes(us)),
        OrdenarTextos(Dedup(Blocos(us))),
        seq(|andares|, i requires 0 <= i < |andares| => RotuloAndar(andares[i])),
        Dedup(Tipologias(us)),
        Dedup(Posicoes(us)))
  }

  /** Every list offers each value present in the units exactly once, and nothing else;
      blocks come in code-unit order; no list has a repeated entry. */
  lemma OpcoesCompletas(us: seq<Unidade>)
    ensures var r := OpcoesDeFiltro(us);
      Distintos(r.disponibilidade) && Distintos(r.tipologia) && Distintos(r.posicaoSol) &&
      CrescenteTextos(r.bloco) &&
      (forall d :: d in r.disponibilidade <==> exists i :: 0 <= i < |us| && us[i].disponibilidade == d) &&
      (forall b :: b in r.bloco <==> exists i :: 0 <= i < |us| && Bloco(us[i].unidade) == b) &&
      (forall t :: t in r.tipologia <==> exists i :: 0 <= i < |us| && us[i].tipologia == t) &&
      (forall p :: p in r.posicaoSol <==> exists i :: 0 <= i < |us| && us[i].posicaoSol == p)
  {
  }

  /** The floor options follow the floors in ascending order, one per floor, and each option's
      label, used as the floor filter, selects exactly the units on that floor. */
  lemma OpcoesDeAndar(us: seq<Unidade>)
    ensures var r := OpcoesDeFiltro(us).andar;
      var a := AndaresOrdenados(us);
      |us| > 0 ==> (|r| == |a| && Distintos(r) &&
        forall i :: 0 <= i < |r| ==>
          (r[i] == RotuloAndar(a[i]) && forall u :: PassaAndar(u, r[i]) <==> u.andar == a[i]))
  {
    if |us| > 0 {
      var r := OpcoesDeFiltro(us).andar;
      var a := AndaresOrdenados(us);
      forall i | 0 <= i < |r| ensures forall u :: PassaAndar(u, r[i]) <==> u.andar == a[i] {
        RotuloAndarLido(a[i]);
      }
      forall i, j | 0 <= i < j < |r| ensures r[i] != r[j] {
        RotuloAndarInjetivo(a[i], a[j]);
      }
    }
  }

  // ---------------------------------------------------------------- status counts

  /** The statuses each count of `estatisticas` takes. */
  predicate NaSituacao(d: string, c: StatusSummary.Cartao) {
    match c
    case Disponiveis => d == "Disponível"
    case Vendidas => d == "Vendida"
    case Reservadas => d == "Reservada" || d == "Reservada aguardando revisão de proposta"
    case Quitadas => d == "Quitado"
    case Mirror => d == "Mirror"
    case ForaDeVenda => Contains(d, "Fora")
  }

  function Indicador(d: string, c: StatusSummary.Cartao): nat {
    if NaSituacao(d, c) then 1 else 0
  }

  function Contar(us: seq<Unidade>, c: StatusSummary.Cartao): (r: nat)
    ensures r <= |us|
  {
    if |us| == 0 then 0
    else Contar(us[..|us| - 1], c) + Indicador(us[|us| - 1].disponibilidade, c)
  }

  datatype Estatisticas = Estatisticas(
    total: nat,
    disponiveis: nat,
    vendidas: nat,
    reservadas: nat,
    quitadas: nat,
    mirror: nat,
    foraDeVenda: nat)

  function SomaSituacoes(e: Estatisticas): nat {
    e.disponiveis + e.vendidas + e.reservadas + e.quitadas + e.mirror + e.foraDeVenda
  }

  /** `estatisticas`: the number of units, and how many fall in each card's statuses. */
  function CalcularEstatisticas(us: seq<Unidade>): (r: Estatisticas)
    ensures r.total == |us|
    ensures |us| == 0 ==> r == Estatisticas(0, 0, 0, 0, 0, 0, 0)
  {
    if |us| == 0 then Estatisticas(0, 0, 0, 0, 0, 0, 0)
    else Estatisticas(|us|,
      Contar(us, StatusSummary.Disponiveis), Contar(us, StatusSummary.Vendidas),
      Contar(us, StatusSummary.Reservadas), Contar(us, StatusSummary.Quitadas),
      Contar(us, StatusSummary.Mirror), Contar(us, StatusSummary.ForaDeVenda))
  }

  function Marcas(d: string): nat {
    Indicador(d, StatusSummary.Disponiveis) + Indicador(d, StatusSummary.Vendidas) +
    Indicador(d, StatusSummary.Reservadas) + Indicador(d, StatusSummary.Quitadas) +
    Indicador(d, StatusSummary.Mirror) + Indicador(d, StatusSummary.ForaDeVenda)
  }

  /** The six counts added up. */
  function SomaContagens(us: seq<Unidade>): nat {
    Contar(us, StatusSummary.Disponiveis) + Contar(us, StatusSummary.Vendidas) +
    Contar(us, StatusSummary.Reservadas) + Contar(us, StatusSummary.Quitadas) +
    Contar(us, StatusSummary.Mirror) + Contar(us, StatusSummary.ForaDeVenda)
  }

  lemma {:induction false} SomaContagensAteTotal(us: seq<Unidade>)
    ensures SomaContagens(us) <= |us|
    decreases |us|
  {
    if |us| > 0 {
      var us' := us[..|us| - 1];
      SomaContagensAteTotal(us');
      MarcaUnica(us[|us| - 1].disponibilidade);
      assert SomaContagens(us) == SomaContagens(us') + Marcas(us[|us| - 1].disponibilidade);
    }
  }

  /** No status is in two cards' sets: the exact statuses differ from each other and none of
      them contains "Fora". */
  lemma MarcaUnica(d: string)
    ensures Marcas(d) <= 1
  {
    if Contains(d, "Fora") {
      ForaNaoExata(d);
    } else {
      ExatasDistintas(d);
    }
  }

  /** A status containing "Fora" is none of the exact statuses. */
  lemma ForaNaoExata(d: string)
    requires Contains(d, "Fora")
    ensures d != "Disponível" && d != "Vendida" && d != "Reservada" && d != "Quitado" && d != "Mirror"
    ensures d != "Reservada aguardando revisão de proposta"
  {
    assert d != "Disponível" by { NotContainsFirstChar("Disponível", "Fora"); }
    assert d != "Vendida" by { NotContainsFirstChar("Vendida", "Fora"); }
    assert d != "Reservada" by { NotContainsFirstChar("Reservada", "Fora"); }
    assert d != "Quitado" by { NotContainsFirstChar("Quitado", "Fora"); }
    assert d != "Mirror" by { NotContainsFirstChar("Mirror", "Fora"); }
    assert d != "Reservada aguardando revisão de proposta" by {
      NotContainsFirstChar("Reservada aguardando revisão de proposta", "Fora");
    }
  }

  /** The exact statuses are different strings, so at most one of them matches. */
  lemma ExatasDistintas(d: string)
    ensures Marcas(d) - Indicador(d, StatusSummary.ForaDeVenda) <= 1
  {
  }

  /** Since the card sets are disjoint, the six counts never add up to more than the total. */
  lemma SomaAteTotal(us: seq<Unidade>)
    ensures SomaSituacoes(CalcularEstatisticas(us)) <= CalcularEstatisticas(us).total
  {
    if |us| > 0 {
      SomaContagensAteTotal(us);
      assert SomaSituacoes(CalcularEstatisticas(us)) == SomaContagens(us);
    }
  }

  /** The filter record a card click produces from an empty one. */
  function SoSituacao(v: string): Filtros.Filtros {
    Filtros.Vazio().(disponibilidade := v)
  }

  /** For the cards whose statuses match exactly, the card's number is the number of units
      that clicking it shows. */
  lemma {:induction false} ContagemIgualAoFiltro(us: seq<Unidade>, c: StatusSummary.Cartao)
    requires c != StatusSummary.Reservadas && c != StatusSummary.ForaDeVenda
    ensures Contar(us, c) == |Filtrar(us, SoSituacao(StatusSummary.ValorFiltro(c)))|
    decreases |us|
  {
    if |us| > 0 {
      ContagemIgualAoFiltro(us[..|us| - 1], c);
    }
  }

  /** The 'Reservadas' card counts two exact statuses, while its filter takes every status
      containing "Reservada": the card never shows more than the click lists. */
  lemma {:induction false} ReservadasAteFiltro(us: seq<Unidade>)
    ensures Contar(us, StatusSummary.Reservadas) <= |Filtrar(us, SoSituacao("Reservada"))|
    decreases |us|
  {
    if |us| > 0 {
      ReservadasAteFiltro(us[..|us| - 1]);
      var d := us[|us| - 1].disponibilidade;
      if d == "Reservada aguardando revisão de proposta" {
        assert StartsWith(d, "Reservada");
      } else if d == "Reservada" {
        ContainsSelf(d);
      }
    }
  }

  /** The 'Fora de Venda' card counts every status containing "Fora", while its filter wants
      exactly 'Fora de Venda': the click never lists more than the card shows. */
  lemma {:induction false} ForaDeVendaFiltroAteContagem(us: seq<Unidade>)
    ensures |Filtrar(us, SoSituacao("Fora de Venda"))| <= Contar(us, StatusSummary.ForaDeVenda)
    decreases |us|
  {
    if |us| > 0 {
      ForaDeVendaFiltroAteContagem(us[..|us| - 1]);
      var d := us[|us| - 1].disponibilidade;
      if d == "Fora de Venda" {
        assert StartsWith(d, "Fora");
      }
    }
  }
}
