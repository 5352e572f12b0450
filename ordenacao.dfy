/** The catalogue's four sort orders and the in-place sort of the filtered units
    (`filteredAndSortedUnidades` in src/app/page.tsx). */
module Ordenacao {
  import opened Wrappers
  import opened Strings
  import opened Decimal
  import Money
  import Catalogo
  import Filtros

  /** The `sortBy` select: by code, by floor, by sale price, by area, or anything else. */
  datatype Criterio = PorUnidade | PorAndar | PorValor | PorArea | Outro

  function CriterioDe(sortBy: string): Criterio {
    if sortBy == "unidade" then PorUnidade
    else if sortBy == "andar" then PorAndar
    else if sortBy == "valor" then PorValor
    else if sortBy == "area" then PorArea
    else Outro
  }

  predicate DigitoOuVirgula(c: char) { IsDigit(c) || c == ',' }

  /** The area the 'area' order compares: everything but digits and commas is deleted, the first
      comma becomes the decimal point, and the rest goes through `parseFloat`. */
  function AreaLida(area: string): Option<real> {
    ParseDecimal(ReplaceFirst(Filter(area, DigitoOuVirgula), ',', '.'))
  }

  /** Code order: `a` does not come after `b`. */
  predicate TextoNaoDepois(a: string, b: string) {
    !LexLess(b, a)
  }

  /** Number order, ascending or descending; a value that does not read (`NaN`) comes after
      every number. */
  predicate NumeroNaoDepois(x: Option<real>, y: Option<real>, crescente: bool) {
    match x
    case None => y.None?
    case Some(vx) => y.None? || (if crescente then vx <= y.value else vx >= y.value)
  }

  /** The comparator of each order, as "`a` may stay before `b`": by code; by floor, ties by
      code; by sale price ascending; by area descending; any other choice compares everything
      as equal. */
  predicate NaoDepois(c: Criterio, a: Catalogo.Unidade, b: Catalogo.Unidade) {
    match c
    case PorUnidade => TextoNaoDepois(a.unidade, b.unidade)
    case PorAndar => a.andar < b.andar || (a.andar == b.andar && TextoNaoDepois(a.unidade, b.unidade))
    case PorValor =>
      NumeroNaoDepois(Money.ParseValorMonetario(a.valorVenda), Money.ParseValorMonetario(b.valorVenda), true)
    case PorArea => NumeroNaoDepois(AreaLida(a.areaPrivativa), AreaLida(b.areaPrivativa), false)
    case Outro => true
  }

  predicate Ordenado(c: Criterio, s: seq<Catalogo.Unidade>) {
    forall i, j :: 0 <= i < j < |s| ==> NaoDepois(c, s[i], s[j])
  }

  lemma TextoTotal(a: string, b: string)
    ensures TextoNaoDepois(a, b) || TextoNaoDepois(b, a)
  {
    LexLessTotal(a, b);
    if a == b {
      LexLessIrreflexive(a);
    } else if LexLess(a, b) {
      LexLessAsymmetric(a, b);
    } else {
      LexLessAsymmetric(b, a);
    }
  }

  lemma TextoTransitivo(a: string, b: string, d: string)
    requires TextoNaoDepois(a, b) && TextoNaoDepois(b, d)
    ensures TextoNaoDepois(a, d)
  {
    LexLessTotal(a, b);
    LexLessTotal(b, d);
    if a == b || b == d {
    } else {
      LexLessTransitive(a, b, d);
      LexLessAsymmetric(a, d);
    }
  }

  /** Any two units are comparable under every order. */
  lemma {:induction false} NaoDepoisTotal(c: Criterio, a: Catalogo.Unidade, b: Catalogo.Unidade)
    ensures NaoDepois(c, a, b) || NaoDepois(c, b, a)
  {
    match c
    case PorUnidade => TextoTotal(a.unidade, b.unidade);
    case PorAndar => TextoTotal(a.unidade, b.unidade);
    case PorValor =>
    case PorArea =>
    case Outro =>
  }

  /** Every order is transitive, so "not after" is a total preorder. */
  lemma {:induction false} NaoDepoisTransitivo(c: Criterio, a: Catalogo.Unidade, b: Catalogo.Unidade,
                                               d: Catalogo.Unidade)
    requires NaoDepois(c, a, b) && NaoDepois(c, b, d)
    ensures NaoDepois(c, a, d)
  {
    match c
    case PorUnidade => TextoTransitivo(a.unidade, b.unidade, d.unidade);
    case PorAndar =>
      if a.andar == b.andar && b.andar == d.andar {
        TextoTransitivo(a.unidade, b.unidade, d.unidade);
      }
    case PorValor =>
    case PorArea =>
    case Outro =>
  }

  /** Any two elements compare under `le`. */
  ghost predicate Total<T(!new)>(le: (T, T) -> bool) {
    forall x, y :: le(x, y) || le(y, x)
  }

  /** `le` is a comparator a sort can use: any two elements compare, and the order chains. */
  ghost predicate PreordemTotal<T(!new)>(le: (T, T) -> bool) {
    Total(le) && forall x, y, z :: le(x, y) && le(y, z) ==> le(x, z)
  }

  ghost predicate OrdenadoPor<T>(s: seq<T>, le: (T, T) -> bool) {
    forall i, j :: 0 <= i < j < |s| ==> le(s[i], s[j])
  }

  /** Exchanges two elements of the array and leaves the others where they are. */
  method Trocar<T>(a: array<T>, i: int, j: int)
    requires 0 <= i < j < a.Length
    modifies a
    ensures a[i] == old(a[j]) && a[j] == old(a[i])
    ensures forall m :: 0 <= m < a.Length && m != i && m != j ==> a[m] == old(a[m])
    ensures multiset(a[..]) == multiset(old(a[..]))
  {
    a[i], a[j] := a[j], a[i];
  }

  /** The shifting loop of one insertion step: the element at `i` is swapped leftwards while it
      must precede its left neighbour; it stops at `j`, and every pair of the prefix is in order
      except the pairs that end at `j`. */
  method Deslocar<T(!new)>(a: array<T>, i: int, le: (T, T) -> bool) returns (j: int)
    requires Total(le)
    requires 0 <= i < a.Length && OrdenadoPor(a[..i], le)
    modifies a
    ensures 0 <= j <= i
    ensures forall p, q :: 0 <= p < q <= i && q != j ==> le(a[p], a[q])
    ensures j > 0 ==> le(a[j - 1], a[j])
    ensures multiset(a[..]) == multiset(old(a[..]))
    ensures j == i ==> a[..] == old(a[..])
    ensures j < i ==> !le(old(a[i - 1]), old(a[i]))
  {
    j := i;
    while j > 0 && !le(a[j - 1], a[j])
      invariant 0 <= j <= i
      invariant forall p, q :: 0 <= p < q <= i && q != j ==> le(a[p], a[q])
      invariant multiset(a[..]) == multiset(old(a[..]))
      invariant j == i ==> a[..] == old(a[..])
      invariant j < i ==> !le(old(a[i - 1]), old(a[i]))
    {
      Trocar(a, j - 1, j);
      j := j - 1;
    }
  }

  /** One insertion step: the sorted prefix grows by the element at `i`. */
  method Inserir<T(!new)>(a: array<T>, i: int, le: (T, T) -> bool)
    requires PreordemTotal(le)
    requires 0 <= i < a.Length && OrdenadoPor(a[..i], le)
    modifies a
    ensures OrdenadoPor(a[..i + 1], le)
    ensures multiset(a[..]) == multiset(old(a[..]))
    ensures (forall x, y :: le(x, y)) ==> a[..] == old(a[..])
  {
    var j := Deslocar(a, i, le);
    forall p | 0 <= p < j - 1
      ensures le(a[p], a[j])
    {
      assert le(a[p], a[j - 1]);
    }
  }

  /** `filtered.sort(comparator)` as an insertion sort: the array ends up ordered and holds the
      same elements; a comparator that finds everything equal moves nothing. */
  method OrdenarCom<T(!new)>(a: array<T>, le: (T, T) -> bool)
    requires PreordemTotal(le)
    modifies a
    ensures OrdenadoPor(a[..], le)
    ensures multiset(a[..]) == multiset(old(a[..]))
    ensures (forall x, y :: le(x, y)) ==> a[..] == old(a[..])
  {
    var i := 0;
    while i < a.Length
      invariant 0 <= i <= a.Length
      invariant OrdenadoPor(a[..i], le)
      invariant multiset(a[..]) == multiset(old(a[..]))
      invariant (forall x, y :: le(x, y)) ==> a[..] == old(a[..])
    {
      Inserir(a, i, le);
      i := i + 1;
    }
    assert a[..a.Length] == a[..];
  }

  /** The sort under one of the catalogue's orders. */
  method Ordenar(a: array<Catalogo.Unidade>, c: Criterio)
    modifies a
    ensures Ordenado(c, a[..])
    ensures multiset(a[..]) == multiset(old(a[..]))
    ensures c == Outro ==> a[..] == old(a[..])
  {
    var le := (x, y) => NaoDepois(c, x, y);
    forall x, y ensures le(x, y) || le(y, x) {
      NaoDepoisTotal(c, x, y);
    }
    forall x, y, z | le(x, y) && le(y, z) ensures le(x, z) {
      NaoDepoisTransitivo(c, x, y, z);
    }
    OrdenarCom(a, le);
  }

  /** `filteredAndSortedUnidades`: the units the filter record keeps, sorted by the chosen order. */
  method FiltrarEOrdenar(us: seq<Catalogo.Unidade>, f: Filtros.Filtros, sortBy: string)
    returns (r: seq<Catalogo.Unidade>)
    ensures multiset(r) == multiset(Catalogo.Filtrar(us, f))
    ensures forall u :: u in r ==> u in us && Catalogo.Passa(u, f)
    ensures Ordenado(CriterioDe(sortBy), r)
    ensures CriterioDe(sortBy) == Outro ==> r == Catalogo.Filtrar(us, f)
  {
    var filtrados := Catalogo.Filtrar(us, f);
    var a := new Catalogo.Unidade[|filtrados|](k requires 0 <= k < |filtrados| => filtrados[k]);
    assert a[..] == filtrados;
    Ordenar(a, CriterioDe(sortBy));
    r := a[..];
    assert forall u :: u in r ==> u in multiset(filtrados);
  }

  /** Ordered by floor means floors never go down, and units on one floor follow code order. */
  lemma {:induction false} OrdemDeAndar(s: seq<Catalogo.Unidade>, i: int, j: int)
    requires Ordenado(PorAndar, s) && 0 <= i < j < |s|
    ensures s[i].andar <= s[j].andar
    ensures s[i].andar == s[j].andar ==> !LexLess(s[j].unidade, s[i].unidade)
  {
    assert NaoDepois(PorAndar, s[i], s[j]);
  }

  /** Ordered by price means readable prices ascend and every unreadable one comes last. */
  lemma {:induction false} OrdemDeValor(s: seq<Catalogo.Unidade>, i: int, j: int)
    requires Ordenado(PorValor, s) && 0 <= i < j < |s|
    ensures Money.ParseValorMonetario(s[i].valorVenda).None? ==> Money.ParseValorMonetario(s[j].valorVenda).None?
    ensures Money.ParseValorMonetario(s[i].valorVenda).Some? && Money.ParseValorMonetario(s[j].valorVenda).Some?
            ==> Money.ParseValorMonetario(s[i].valorVenda).value <= Money.ParseValorMonetario(s[j].valorVenda).value
  {
    assert NaoDepois(PorValor, s[i], s[j]);
  }

  /** Ordered by area means readable areas descend and every unreadable one comes last. */
  lemma {:induction false} OrdemDeArea(s: seq<Catalogo.Unidade>, i: int, j: int)
    requires Ordenado(PorArea, s) && 0 <= i < j < |s|
    ensures AreaLida(s[i].areaPrivativa).None? ==> AreaLida(s[j].areaPrivativa).None?
    ensures AreaLida(s[i].areaPrivativa).Some? && AreaLida(s[j].areaPrivativa).Some?
            ==> AreaLida(s[i].areaPrivativa).value >= AreaLida(s[j].areaPrivativa).value
  {
    assert NaoDepois(PorArea, s[i], s[j]);
  }

  /** The area text without its unit: the characters up to the suffix when the suffix holds
      no digit and no comma. */
  lemma AreaSemSufixo(t: string, suf: string)
    requires forall c :: c in suf ==> !DigitoOuVirgula(c)
    ensures Filter(t + suf, DigitoOuVirgula) == Filter(t, DigitoOuVirgula)
  {
    FilterAppend(t, suf, DigitoOuVirgula);
    FilterDropsAll(suf, DigitoOuVirgula);
    assert Filter(t, DigitoOuVirgula) + "" == Filter(t, DigitoOuVirgula);
  }

  /** An area written with a decimal comma, such as "75,5 m²", reads as written. */
  lemma AreaComVirgula(ip: string, fp: string, suf: string)
    requires AllDigits(ip) && AllDigits(fp) && |ip| > 0
    requires forall c :: c in suf ==> !DigitoOuVirgula(c)
    ensures AreaLida(ip + "," + fp + suf) == Some(DecimalValue(ip, fp))
  {
    var t := ip + "," + fp;
    AreaSemSufixo(t, suf);
    assert Filter(t, DigitoOuVirgula) == t by {
      AllDigitsMembers(ip);
      AllDigitsMembers(fp);
      FilterKeepsAll(t, DigitoOuVirgula);
    }
    assert ReplaceFirst(t, ',', '.') == ip + "." + fp by {
      AllDigitsMembers(ip);
      ReplaceFirstAfter(ip, ',', fp, '.');
    }
    ParseDecimalFraction(ip, fp);
  }

  /** The area reader deletes a decimal dot, so "75.5 m²" reads as "755 m²" does. */
  lemma AreaComPonto(ip: string, fp: string, suf: string)
    requires AllDigits(ip) && AllDigits(fp) && |ip| > 0
    requires forall c :: c in suf ==> !DigitoOuVirgula(c)
    ensures AreaLida(ip + "." + fp + suf) == AreaLida(ip + fp + suf)
    ensures AreaLida(ip + fp + suf) == Some(DigitsValue(ip + fp) as real)
  {
    AllDigitsAppend(ip, fp);
    AllDigitsMembers(ip + fp);
    AreaSemSufixo(ip + "." + fp, suf);
    AreaSemSufixo(ip + fp, suf);
    FiltroApagaPonto(ip, fp);
    FilterKeepsAll(ip + fp, DigitoOuVirgula);
  }

  lemma FiltroApagaPonto(ip: string, fp: string)
    requires AllDigits(ip) && AllDigits(fp)
    ensures Filter(ip + "." + fp, DigitoOuVirgula) == ip + fp
  {
    AllDigitsMembers(ip);
    AllDigitsMembers(fp);
    FilterAppend(ip + ".", fp, DigitoOuVirgula);
    FilterAppend(ip, ".", DigitoOuVirgula);
    FilterKeepsAll(ip, DigitoOuVirgula);
    FilterKeepsAll(fp, DigitoOuVirgula);
    assert Filter(".", DigitoOuVirgula) == "";
    assert ip + "" == ip;
  }
}
