/** The payment flow of the quotation page (src/app/cotacao/page.tsx): the keyed list of
    payments the buyer assembles (financing, builder bonus, down-payment instalments, discount,
    FGTS), its sum, the balancing "pró-soluto" amount, the three-way validation status and the
    client-profile limits. */
module Cotacao {
  import opened Wrappers
  import opened Strings
  import opened Decimal
  import Money

  // ---------------------------------------------------------------------------
  // Flow items and the fields that can be added

  /** One line of the flow. `valor` is the fixed amount of the financing and bonus lines;
      editable lines carry the typed text in `valorEditavel`. Icons are not modelled. */
  datatype FluxoItem = FluxoItem(id: string, tipo: string, valor: real, valorEditavel: string,
                                 editavel: bool, data: string, dataEditavel: bool)

  /** An entry of `camposDisponiveis`. */
  datatype Campo = Campo(id: string, tipo: string)

  const CamposDisponiveis: seq<Campo> := [
    Campo("sinalAto", "Sinal Ato"), Campo("sinal1", "Sinal 1"), Campo("sinal2", "Sinal 2"),
    Campo("sinal3", "Sinal 3"), Campo("desconto", "Desconto"), Campo("fgts", "FGTS")]

  /** `fluxo.some(f => f.id === id)`. */
  predicate Tem(fluxo: seq<FluxoItem>, id: string) {
    exists i :: 0 <= i < |fluxo| && fluxo[i].id == id
  }

  /** No two lines share an id. */
  predicate IdsUnicos(fluxo: seq<FluxoItem>) {
    forall i, j :: 0 <= i < j < |fluxo| ==> fluxo[i].id != fluxo[j].id
  }

  /** `fluxo.find(f => f.id === id)`: the first line with that id. */
  function Encontrar(fluxo: seq<FluxoItem>, id: string): (r: Option<FluxoItem>)
    ensures r.Some? <==> Tem(fluxo, id)
    ensures r.Some? ==> r.value in fluxo && r.value.id == id
  {
    if |fluxo| == 0 then None
    else if fluxo[0].id == id then Some(fluxo[0])
    else
      var r := Encontrar(fluxo[1..], id);
      assert Tem(fluxo, id) ==> fluxo[0].id == id || Tem(fluxo[1..], id) by {
        if Tem(fluxo, id) {
          var i :| 0 <= i < |fluxo| && fluxo[i].id == id;
          if i > 0 { assert fluxo[1..][i - 1].id == id; }
        }
      }
      assert Tem(fluxo[1..], id) ==> Tem(fluxo, id) by {
        if Tem(fluxo[1..], id) {
          var i :| 0 <= i < |fluxo[1..]| && fluxo[1..][i].id == id;
          assert fluxo[i + 1].id == id;
        }
      }
      r
  }

  /** `camposDisponiveis.find(c => c.id === id)`. */
  function EncontrarCampo(cs: seq<Campo>, id: string): (r: Option<Campo>)
    ensures r.Some? ==> r.value in cs && r.value.id == id
    ensures r.None? ==> forall c :: c in cs ==> c.id != id
  {
    if |cs| == 0 then None
    else if cs[0].id == id then Some(cs[0])
    else EncontrarCampo(cs[1..], id)
  }

  /** The id of Sinal `k`, for `k` in 1..3. */
  function SinalId(k: nat): string
    requires 1 <= k <= 3
  {
    if k == 1 then "sinal1" else if k == 2 then "sinal2" else "sinal3"
  }

  /** `calcularDeslocamentoInicioProSoluto`: how many months the instalments start later,
      which is the number of the highest Sinal present (0 with none). */
  function Deslocamento(fluxo: seq<FluxoItem>): (r: nat)
    ensures r <= 3
    ensures r > 0 ==> Tem(fluxo, SinalId(r))
    ensures forall k :: r < k <= 3 ==> !Tem(fluxo, SinalId(k))
  {
    if Tem(fluxo, "sinal3") then 3
    else if Tem(fluxo, "sinal2") then 2
    else if Tem(fluxo, "sinal1") then 1
    else 0
  }

  /** The rule `camposParaAdicionar` applies to one field: it is not in the flow yet, Sinal 2
      and Sinal 3 need Sinal 1, and Sinal 3 also needs Sinal 2. */
  predicate PodeAdicionar(fluxo: seq<FluxoItem>, id: string) {
    && !Tem(fluxo, id)
    && ((id == "sinal2" || id == "sinal3") ==> Tem(fluxo, "sinal1"))
    && (id == "sinal3" ==> Tem(fluxo, "sinal2"))
  }

  function FiltrarCampos(cs: seq<Campo>, fluxo: seq<FluxoItem>): (r: seq<Campo>)
    ensures |r| <= |cs|
    ensures forall c :: c in r <==> c in cs && PodeAdicionar(fluxo, c.id)
  {
    if |cs| == 0 then []
    else
      var resto := FiltrarCampos(cs[1..], fluxo);
      assert forall c :: c in cs <==> c == cs[0] || c in cs[1..];
      if PodeAdicionar(fluxo, cs[0].id) then [cs[0]] + resto else resto
  }

  /** `camposParaAdicionar`: the fields the "add" menu offers, in their fixed order. */
  function CamposParaAdicionar(fluxo: seq<FluxoItem>): (r: seq<Campo>)
    ensures forall c :: c in r ==> c in CamposDisponiveis && !Tem(fluxo, c.id)
    ensures forall c :: c in CamposDisponiveis && PodeAdicionar(fluxo, c.id) ==> c in r
  {
    FiltrarCampos(CamposDisponiveis, fluxo)
  }

  /** The menu never offers a Sinal before the one it follows. */
  lemma CamposRespeitamOrdem(fluxo: seq<FluxoItem>, c: Campo)
    requires c in CamposParaAdicionar(fluxo)
    ensures c.id == "sinal2" ==> Tem(fluxo, "sinal1")
    ensures c.id == "sinal3" ==> Tem(fluxo, "sinal1") && Tem(fluxo, "sinal2")
  {
  }

  /** With nothing added yet the menu offers every field but Sinal 2 and Sinal 3. */
  lemma CamposIniciais(fluxo: seq<FluxoItem>)
    requires forall i :: 0 <= i < |fluxo| ==> fluxo[i].id == "financiamento" || fluxo[i].id == "bonus"
    ensures forall c :: c in CamposParaAdicionar(fluxo) <==> c in CamposDisponiveis && c.id != "sinal2" && c.id != "sinal3"
  {
    forall c | c in CamposDisponiveis ensures !Tem(fluxo, c.id) {
      forall i | 0 <= i < |fluxo| ensures fluxo[i].id != c.id { }
    }
    assert FiltrarCampos(CamposDisponiveis, fluxo) == CamposParaAdicionar(fluxo);
  }

  /** The Sinals are present in order: Sinal 2 only with Sinal 1, Sinal 3 only with both. */
  predicate SinaisEmOrdem(fluxo: seq<FluxoItem>) {
    && (Tem(fluxo, "sinal2") ==> Tem(fluxo, "sinal1"))
    && (Tem(fluxo, "sinal3") ==> Tem(fluxo, "sinal2"))
  }

  // ---------------------------------------------------------------------------
  // List operations

  /** The line `adicionarCampo` appends: editable, amount 0, empty text; its date is editable
      except for Desconto and FGTS. */
  function NovoItem(c: Campo, dataPadrao: string): FluxoItem {
    FluxoItem(c.id, c.tipo, 0.0, "", true, dataPadrao, c.id != "desconto" && c.id != "fgts")
  }

  /** `adicionarCampo` with the default date computed by the caller: appends the field when it
      exists and is not in the flow yet, otherwise changes nothing. */
  function Adicionar(fluxo: seq<FluxoItem>, campoId: string, dataPadrao: string): (r: seq<FluxoItem>)
    ensures IdsUnicos(fluxo) ==> IdsUnicos(r)
    ensures |fluxo| <= |r| <= |fluxo| + 1 && r[..|fluxo|] == fluxo
    ensures |r| == |fluxo| + 1 <==> EncontrarCampo(CamposDisponiveis, campoId).Some? && !Tem(fluxo, campoId)
    ensures |r| == |fluxo| + 1 ==>
      var novo := r[|fluxo|];
      novo.id == campoId && novo.editavel && novo.valor == 0.0 && novo.valorEditavel == ""
  {
    match EncontrarCampo(CamposDisponiveis, campoId)
    case Some(c) =>
      if !Tem(fluxo, campoId) then
        var r := fluxo + [NovoItem(c, dataPadrao)];
        assert r[..|fluxo|] == fluxo;
        r
      else
        assert fluxo[..|fluxo|] == fluxo;
        fluxo
    case None =>
      assert fluxo[..|fluxo|] == fluxo;
      fluxo
  }

  /** `removerCampo`: `fluxo.filter(f => f.id !== id)`. */
  function Remover(fluxo: seq<FluxoItem>, id: string): (r: seq<FluxoItem>)
    ensures !Tem(r, id)
    ensures forall x :: x in r <==> x in fluxo && x.id != id
    ensures |r| <= |fluxo|
  {
    if |fluxo| == 0 then []
    else
      var ultimo := fluxo[|fluxo| - 1];
      var resto := Remover(fluxo[..|fluxo| - 1], id);
      assert forall x :: x in fluxo <==> x in fluxo[..|fluxo| - 1] || x == ultimo by {
        assert fluxo == fluxo[..|fluxo| - 1] + [ultimo];
      }
      var r := resto + (if ultimo.id == id then [] else [ultimo]);
      assert !Tem(r, id) by {
        forall i | 0 <= i < |r| ensures r[i].id != id {
          assert r[i] in r;
        }
      }
      r
  }

  /** Removal works item by item: removing from two flows joined is removing from each and
      joining the results, so what remains keeps its order. */
  lemma {:induction false} RemoverConcat(a: seq<FluxoItem>, b: seq<FluxoItem>, id: string)
    ensures Remover(a + b, id) == Remover(a, id) + Remover(b, id)
    decreases |b|
  {
    if |b| == 0 {
      assert a + b == a;
    } else {
      var init := b[..|b| - 1];
      var ultimo := b[|b| - 1];
      assert (a + b)[..|a + b| - 1] == a + init;
      assert (a + b)[|a + b| - 1] == ultimo;
      RemoverConcat(a, init, id);
    }
  }

  /** Removing a field never makes two fields share an id. */
  lemma {:induction false} RemoverMantemIdsUnicos(fluxo: seq<FluxoItem>, id: string)
    requires IdsUnicos(fluxo)
    ensures IdsUnicos(Remover(fluxo, id))
    decreases |fluxo|
  {
    if |fluxo| > 0 {
      var init := fluxo[..|fluxo| - 1];
      var ultimo := fluxo[|fluxo| - 1];
      RemoverMantemIdsUnicos(init, id);
      var resto := Remover(init, id);
      forall x | x in resto ensures x.id != ultimo.id {
        var j :| 0 <= j < |init| && init[j] == x;
        assert fluxo[j] == x;
      }
    }
  }

  /** Removing an id that is absent changes nothing. */
  lemma {:induction false} RemoverAusente(fluxo: seq<FluxoItem>, id: string)
    requires !Tem(fluxo, id)
    ensures Remover(fluxo, id) == fluxo
    decreases |fluxo|
  {
    if |fluxo| > 0 {
      var init := fluxo[..|fluxo| - 1];
      forall i | 0 <= i < |init| ensures init[i].id != id {
        assert init[i] == fluxo[i];
      }
      RemoverAusente(init, id);
      assert fluxo[|fluxo| - 1].id != id;
      assert init + [fluxo[|fluxo| - 1]] == fluxo;
    }
  }

  /** Adding a field and then removing it restores the previous flow. */
  lemma AdicionarRemover(fluxo: seq<FluxoItem>, campoId: string, dataPadrao: string)
    requires !Tem(fluxo, campoId)
    ensures Remover(Adicionar(fluxo, campoId, dataPadrao), campoId) == fluxo
  {
    var r := Adicionar(fluxo, campoId, dataPadrao);
    RemoverAusente(fluxo, campoId);
    if |r| == |fluxo| + 1 {
      assert r == fluxo + [r[|fluxo|]];
      assert r[..|r| - 1] == fluxo;
    } else {
      assert r == fluxo;
    }
  }

  /** Adding a field the menu offers keeps the Sinals in order. */
  lemma AdicionarOferecidoMantemOrdem(fluxo: seq<FluxoItem>, c: Campo, dataPadrao: string)
    requires SinaisEmOrdem(fluxo) && c in CamposParaAdicionar(fluxo)
    ensures SinaisEmOrdem(Adicionar(fluxo, c.id, dataPadrao))
  {
    var r := Adicionar(fluxo, c.id, dataPadrao);
    forall id | Tem(r, id) ensures Tem(fluxo, id) || id == c.id {
      var i :| 0 <= i < |r| && r[i].id == id;
      if i < |fluxo| { assert r[..|fluxo|][i] == fluxo[i]; }
    }
    forall id | Tem(fluxo, id) ensures Tem(r, id) {
      var i :| 0 <= i < |fluxo| && fluxo[i].id == id;
      assert r[..|fluxo|][i] == r[i];
    }
  }

  /** Removal is not gated the way adding is: removing Sinal 1 leaves a Sinal 2 without it,
      and the instalments still start two months later. */
  lemma RemoverSinal1QuebraOrdem(fluxo: seq<FluxoItem>)
    requires Tem(fluxo, "sinal1") && Tem(fluxo, "sinal2") && !Tem(fluxo, "sinal3")
    ensures !SinaisEmOrdem(Remover(fluxo, "sinal1"))
    ensures Deslocamento(Remover(fluxo, "sinal1")) == 2
  {
    var r := Remover(fluxo, "sinal1");
    var i :| 0 <= i < |fluxo| && fluxo[i].id == "sinal2";
    assert fluxo[i] in r;
    var j :| 0 <= j < |r| && r[j] == fluxo[i];
    forall k | 0 <= k < |r| ensures r[k].id != "sinal3" {
      assert r[k] in fluxo;
      var m :| 0 <= m < |fluxo| && fluxo[m] == r[k];
    }
  }

  /** `atualizarValor`: the typed text of the lines with the given id becomes `valor`. */
  function AtualizarValor(fluxo: seq<FluxoItem>, id: string, valor: string): (r: seq<FluxoItem>)
    ensures |r| == |fluxo|
    ensures forall i :: 0 <= i < |r| && fluxo[i].id != id ==> r[i] == fluxo[i]
    ensures forall i :: 0 <= i < |r| && fluxo[i].id == id ==>
      r[i].valorEditavel == valor && r[i] == fluxo[i].(valorEditavel := r[i].valorEditavel)
  {
    seq(|fluxo|, i requires 0 <= i < |fluxo| => if fluxo[i].id == id then fluxo[i].(valorEditavel := valor) else fluxo[i])
  }

  /** `atualizarData`: the date of the lines with the given id becomes `data`. */
  function AtualizarData(fluxo: seq<FluxoItem>, id: string, data: string): (r: seq<FluxoItem>)
    ensures |r| == |fluxo|
    ensures forall i :: 0 <= i < |r| && fluxo[i].id != id ==> r[i] == fluxo[i]
    ensures forall i :: 0 <= i < |r| && fluxo[i].id == id ==>
      r[i].data == data && r[i] == fluxo[i].(data := r[i].data)
  {
    seq(|fluxo|, i requires 0 <= i < |fluxo| => if fluxo[i].id == id then fluxo[i].(data := data) else fluxo[i])
  }

  /** Editing a value or a date keeps every id in place. */
  lemma AtualizarMantemIds(fluxo: seq<FluxoItem>, id: string, texto: string)
    requires IdsUnicos(fluxo)
    ensures IdsUnicos(AtualizarValor(fluxo, id, texto)) && IdsUnicos(AtualizarData(fluxo, id, texto))
  {
    var a, b := AtualizarValor(fluxo, id, texto), AtualizarData(fluxo, id, texto);
    assert forall i :: 0 <= i < |fluxo| ==> a[i].id == fluxo[i].id && b[i].id == fluxo[i].id;
  }

  /** The flow as the page initialises it: the financing line and, with a positive builder
      bonus, the bonus line, both fixed. */
  function FluxoInicial(valorFinanciado: real, bonusConstrutora: real, dataPosEntrega: string): (r: seq<FluxoItem>)
    ensures IdsUnicos(r) && SinaisEmOrdem(r)
    ensures forall i :: 0 <= i < |r| ==> !r[i].editavel
  {
    var financiamento := FluxoItem("financiamento", "Financiamento", valorFinanciado, "", false, dataPosEntrega, false);
    if bonusConstrutora > 0.0 then
      [financiamento, FluxoItem("bonus", "Bônus Construtora", bonusConstrutora, "", false, dataPosEntrega, false)]
    else [financiamento]
  }

  // ---------------------------------------------------------------------------
  // Amounts

  /** `parseValue`: '' is 0; otherwise `R`, `$`, blanks and dots are dropped, the first comma
      becomes the point, and what `parseFloat` cannot read is 0. Dropping the noise and then
      the dots is the same as dropping all four kinds at once. */
  function ParseValue(val: string): (r: real)
    ensures val == "" ==> r == 0.0
  {
    if val == "" then 0.0
    else ParseDecimal(ReplaceFirst(RemoveAll(Money.Limpar(val), '.'), ',', '.')).GetOr(0.0)
  }

  /** Brazilian-formatted text reads as its value: "R$ 1.234,56" is 1234.56. */
  lemma ParseValueFormatoBrasileiro(t: string, c: string)
    requires Money.DigitsAndDots(t) && AllDigits(c)
    ensures ParseValue(t + "," + c) == DecimalValue(RemoveAll(t, '.'), c)
  {
    var x := t + "," + c;
    Money.DigitsAreMoneyChars(c);
    Money.MoneyCharsJoin(t, ',', c);
    assert x == t + [','] + c;
    Money.CleanText(x);
    Money.BrazilianShapeRewrite(t, c);
    ParseDecimalFraction(RemoveAll(t, '.'), c);
  }

  /** The currency prefix "R$ " makes no difference, even to an otherwise empty text. */
  lemma ParseValuePrefixo(x: string)
    ensures ParseValue("R$ " + x) == ParseValue(x)
  {
    Money.PrefixIgnored(x);
    if x == "" {
      assert Money.Limpar(x) == "";
    }
  }

  /** Every dot is dropped, even one followed by two digits: "1.50" reads as 150, where the
      catalogue's reader gives 1.5. */
  lemma ParseValuePontoDescartado(a: string, b: string)
    requires |a| > 0 && AllDigits(a) && AllDigits(b) && |b| == 2
    ensures ParseValue(a + "." + b) == DigitsValue(a + b) as real
    ensures Money.ParseValorMonetario(a + "." + b) == Some(DecimalValue(a, b))
  {
    var x := a + "." + b;
    assert AllDigits(a + b) by { AllDigitsAppend(a, b); }
    assert Money.Limpar(x) == x && RemoveAll(x, '.') == a + b by { Money.DottedShape(a, b); }
    assert ReplaceFirst(a + b, ',', '.') == a + b by { Money.DigitsAreMoneyChars(a + b); }
    assert x != "" by { assert x[|a|] == '.'; }
    assert ParseDecimal(a + b) == Some(DigitsValue(a + b) as real);
    assert Money.ParseValorMonetario(x) == Some(DecimalValue(a, b)) by { Money.CentsAfterDot(a, b); }
  }

  /** What a line adds to the sum: the parsed text for editable lines, the amount otherwise. */
  function ValorDoItem(item: FluxoItem): real {
    if item.editavel then ParseValue(item.valorEditavel) else item.valor
  }

  /** `calcularSomaFluxo`: the left-to-right total of the lines' values. */
  function SomaFluxo(fluxo: seq<FluxoItem>): real {
    if |fluxo| == 0 then 0.0 else SomaFluxo(fluxo[..|fluxo| - 1]) + ValorDoItem(fluxo[|fluxo| - 1])
  }

  lemma {:induction false} SomaFluxoConcat(a: seq<FluxoItem>, b: seq<FluxoItem>)
    ensures SomaFluxo(a + b) == SomaFluxo(a) + SomaFluxo(b)
    decreases |b|
  {
    if |b| == 0 {
      assert a + b == a;
    } else {
      var init := b[..|b| - 1];
      SomaFluxoConcat(a, init);
      assert (a + b)[..|a + b| - 1] == a + init;
    }
  }

  /** The initial flow adds up to the financed amount plus the bonus, when there is one. */
  lemma SomaFluxoInicial(valorFinanciado: real, bonusConstrutora: real, dataPosEntrega: string)
    ensures SomaFluxo(FluxoInicial(valorFinanciado, bonusConstrutora, dataPosEntrega))
      == valorFinanciado + (if bonusConstrutora > 0.0 then bonusConstrutora else 0.0)
  {
    var r := FluxoInicial(valorFinanciado, bonusConstrutora, dataPosEntrega);
    assert SomaFluxo(r[..1]) == valorFinanciado by { assert r[..1][..0] == []; }
    if bonusConstrutora > 0.0 { assert r[..|r| - 1] == r[..1]; } else { assert r == r[..1]; }
  }

  /** A newly added line counts for nothing until a value is typed. */
  lemma SomaAposAdicionar(fluxo: seq<FluxoItem>, campoId: string, dataPadrao: string)
    ensures SomaFluxo(Adicionar(fluxo, campoId, dataPadrao)) == SomaFluxo(fluxo)
  {
    var r := Adicionar(fluxo, campoId, dataPadrao);
    if |r| == |fluxo| + 1 {
      assert r[..|r| - 1] == fluxo;
    } else {
      assert r == fluxo;
    }
  }

  /** Two flows that differ in line `k` only differ in total by that line's values. */
  lemma {:induction false} SomaPontual(a: seq<FluxoItem>, b: seq<FluxoItem>, k: nat)
    requires |a| == |b| && k < |a|
    requires forall i :: 0 <= i < |a| && i != k ==> a[i] == b[i]
    ensures SomaFluxo(b) == SomaFluxo(a) - ValorDoItem(a[k]) + ValorDoItem(b[k])
    decreases |a|
  {
    var n := |a|;
    if k == n - 1 {
      assert a[..n - 1] == b[..n - 1];
    } else {
      SomaPontual(a[..n - 1], b[..n - 1], k);
    }
  }

  /** Typing a value into the only line with that id changes the total by the difference of the
      parsed texts; on a fixed line the typed text is ignored. */
  lemma SomaAposAtualizarValor(fluxo: seq<FluxoItem>, k: nat, valor: string)
    requires IdsUnicos(fluxo) && k < |fluxo|
    ensures var r := AtualizarValor(fluxo, fluxo[k].id, valor);
      SomaFluxo(r) == SomaFluxo(fluxo) + (if fluxo[k].editavel then ParseValue(valor) - ParseValue(fluxo[k].valorEditavel) else 0.0)
  {
    var r := AtualizarValor(fluxo, fluxo[k].id, valor);
    SomaPontual(fluxo, r, k);
  }

  /** Changing a date never changes the total. */
  lemma {:induction false} SomaAposAtualizarData(fluxo: seq<FluxoItem>, id: string, data: string)
    ensures SomaFluxo(AtualizarData(fluxo, id, data)) == SomaFluxo(fluxo)
    decreases |fluxo|
  {
    var r := AtualizarData(fluxo, id, data);
    if |fluxo| > 0 {
      var n := |fluxo|;
      SomaAposAtualizarData(fluxo[..n - 1], id, data);
      assert r[..n - 1] == AtualizarData(fluxo[..n - 1], id, data);
    }
  }

  /** `valorBase`: the appraisal value when there is a builder bonus, the sale value otherwise. */
  function ValorBase(bonusConstrutora: real, valorAvaliacao: real, valorVenda: real): real {
    if bonusConstrutora > 0.0 then valorAvaliacao else valorVenda
  }

  /** `podeMostrarProSoluto`: a Sinal Ato with a positive typed value and a positive financed amount. */
  predicate PodeMostrarProSoluto(fluxo: seq<FluxoItem>, valorFinanciado: real) {
    match Encontrar(fluxo, "sinalAto")
    case None => false
    case Some(item) => ParseValue(item.valorEditavel) > 0.0 && valorFinanciado > 0.0
  }

  /** `calcularProSolutoBase`: what the flow leaves unpaid of the base value, once it may be shown. */
  function ProSolutoBase(fluxo: seq<FluxoItem>, valorBase: real, valorFinanciado: real): (r: real)
    ensures PodeMostrarProSoluto(fluxo, valorFinanciado) ==> SomaFluxo(fluxo) + r == valorBase
    ensures !PodeMostrarProSoluto(fluxo, valorFinanciado) ==> r == 0.0
  {
    if PodeMostrarProSoluto(fluxo, valorFinanciado) then valorBase - SomaFluxo(fluxo) else 0.0
  }

  // ---------------------------------------------------------------------------
  // Delivery date and validation

  /** A calendar month: year and 0-based month, as `getFullYear`/`getMonth` give them. */
  datatype Mes = Mes(ano: int, mes: int)

  function IndiceMes(m: Mes): int { m.ano * 12 + m.mes }

  /** `DATAS_ENTREGA`: the delivery month of each development, read in local time. */
  function DataEntrega(empreendimento: string): Option<Mes> {
    if empreendimento == "alto-da-alvorada" then Some(Mes(2027, 2))
    else if empreendimento == "alto-do-horizonte" then Some(Mes(2026, 6))
    else None
  }

  /** `calcularMesesAteEntrega`: the whole calendar months from this month to the delivery
      month, 0 when delivery is unknown or not in the future. */
  function MesesAteEntrega(entrega: Option<Mes>, hoje: Mes): (r: nat)
    ensures entrega.Some? && IndiceMes(entrega.value) > IndiceMes(hoje) ==> IndiceMes(hoje) + r == IndiceMes(entrega.value)
    ensures entrega.None? || IndiceMes(entrega.value) <= IndiceMes(hoje) ==> r == 0
  {
    match entrega
    case None => 0
    case Some(e) =>
      var meses := (e.ano - hoje.ano) * 12 + (e.mes - hoje.mes);
      if meses > 0 then meses else 0
  }

  datatype Validacao = Ok | Erro | Pendente

  /** The validation effect: the gap between the base value and the flow plus pró-soluto, and
      the status — 'ok' when the gap is under a cent and there is a Sinal Ato, otherwise 'erro'
      when the flow adds up to something positive, otherwise 'pendente'. */
  function Validar(fluxo: seq<FluxoItem>, valorBase: real, valorFinanciado: real): (r: (Validacao, real))
    ensures SomaFluxo(fluxo) + ProSolutoBase(fluxo, valorBase, valorFinanciado) + r.1 == valorBase
    ensures r.0 == Ok <==> -0.01 < r.1 < 0.01 && Tem(fluxo, "sinalAto")
    ensures r.0 == Erro <==> !(-0.01 < r.1 < 0.01 && Tem(fluxo, "sinalAto")) && SomaFluxo(fluxo) > 0.0
  {
    var somaAtual := SomaFluxo(fluxo);
    var proSoluto := if PodeMostrarProSoluto(fluxo, valorFinanciado) then ProSolutoBase(fluxo, valorBase, valorFinanciado) else 0.0;
    var diff := valorBase - (somaAtual + proSoluto);
    var status :=
      if (if diff < 0.0 then -diff else diff) < 0.01 && Tem(fluxo, "sinalAto") then Ok
      else if somaAtual > 0.0 then Erro
      else Pendente;
    (status, diff)
  }

  /** Whenever the pró-soluto is shown it closes the gap exactly, so the flow validates. */
  lemma ValidaComProSoluto(fluxo: seq<FluxoItem>, valorBase: real, valorFinanciado: real)
    requires PodeMostrarProSoluto(fluxo, valorFinanciado)
    ensures Validar(fluxo, valorBase, valorFinanciado) == (Ok, 0.0)
  {
    var item := Encontrar(fluxo, "sinalAto");
  }

  /** Without a Sinal Ato the flow never validates, whatever it adds up to. */
  lemma SemSinalAtoNaoValida(fluxo: seq<FluxoItem>, valorBase: real, valorFinanciado: real)
    requires !Tem(fluxo, "sinalAto")
    ensures Validar(fluxo, valorBase, valorFinanciado).0 != Ok
    ensures Validar(fluxo, valorBase, valorFinanciado).1 == valorBase - SomaFluxo(fluxo)
  {
  }

  // ---------------------------------------------------------------------------
  // Client profiles

  datatype Perfil = Diamante | Ouro | Prata | Bronze | Aco

  /** The three percentage ceilings of a profile. */
  datatype Limites = Limites(comprometimentoRenda: real, percentualParcelado: real, comprometimentoProSoluto: real)

  /** `PERFIS[p].limites`. */
  function LimitesDe(p: Perfil): Limites {
    match p
    case Diamante => Limites(50.0, 25.0, 20.0)
    case Ouro => Limites(50.0, 20.0, 20.0)
    case Prata => Limites(48.0, 18.0, 18.0)
    case Bronze => Limites(45.0, 15.0, 15.0)
    case Aco => Limites(40.0, 12.0, 10.0)
  }

  /** The profiles from the least to the most permissive. */
  function Nivel(p: Perfil): nat {
    match p
    case Aco => 0
    case Bronze => 1
    case Prata => 2
    case Ouro => 3
    case Diamante => 4
  }

  /** A higher profile's ceilings are never lower, ceiling by ceiling. */
  lemma LimitesCrescentes(p: Perfil, q: Perfil)
    requires Nivel(p) <= Nivel(q)
    ensures LimitesDe(p).comprometimentoRenda <= LimitesDe(q).comprometimentoRenda
    ensures LimitesDe(p).percentualParcelado <= LimitesDe(q).percentualParcelado
    ensures LimitesDe(p).comprometimentoProSoluto <= LimitesDe(q).comprometimentoProSoluto
  {
  }

  /** The characters `/[^\d.]/g` keeps. */
  predicate DigitoOuPonto(c: char) { IsDigit(c) || c == '.' }

  /** The income as the indicators read it: the first comma becomes a point, then everything
      but digits and dots is dropped, and what `parseFloat` cannot read is 0. */
  function RendaNumero(renda: string): (r: real)
    ensures r >= 0.0
  {
    var limpo := Filter(ReplaceFirst(renda, ',', '.'), DigitoOuPonto);
    SemSinalNemBranco(limpo);
    ParseDecimal(limpo).GetOr(0.0)
  }

  /** Digits and dots carry neither blank nor sign, so `parseFloat` reads them unsigned. */
  lemma SemSinalNemBranco(limpo: string)
    requires forall i :: 0 <= i < |limpo| ==> DigitoOuPonto(limpo[i])
    ensures ParseDecimal(limpo) == ParseUnsigned(limpo)
  {
    if |limpo| > 0 {
      assert DigitoOuPonto(limpo[0]);
      assert !IsSpace(limpo[0]);
      assert TrimStart(limpo) == limpo;
    }
  }

  /** An income written with a decimal comma reads as intended ("5000,50" is 5000.5). */
  lemma RendaComVirgula(a: string, c: string)
    requires |a| > 0 && AllDigits(a) && AllDigits(c)
    ensures RendaNumero(a + "," + c) == DecimalValue(a, c)
  {
    var y := a + "." + c;
    assert ReplaceFirst(a + "," + c, ',', '.') == y by {
      assert ',' !in a by { AllDigitsMembers(a); }
      ReplaceFirstAfter(a, ',', c, '.');
      assert a + "," + c == a + [','] + c;
    }
    assert Filter(y, DigitoOuPonto) == y by {
      AllDigitsMembers(a);
      AllDigitsMembers(c);
      FilterKeepsAll(y, DigitoOuPonto);
    }
    ParseDecimalFraction(a, c);
  }

  /** An income written with a thousands dot and a decimal comma is misread: "5.000,00"
      becomes "5.000.00" and reads as 5. */
  lemma RendaAgrupadaLidaErrada(a: string, b: string, c: string)
    requires |a| > 0 && AllDigits(a) && AllDigits(b) && AllDigits(c)
    ensures RendaNumero(a + "." + b + "," + c) == DecimalValue(a, b)
  {
    var pre := a + "." + b;
    var y := a + "." + b + ("." + c);
    assert ReplaceFirst(a + "." + b + "," + c, ',', '.') == y by {
      assert ',' !in pre by { AllDigitsMembers(a); AllDigitsMembers(b); }
      ReplaceFirstAfter(pre, ',', c, '.');
      assert a + "." + b + "," + c == pre + [','] + c;
      assert pre + ['.'] + c == y;
    }
    assert Filter(y, DigitoOuPonto) == y by {
      AllDigitsMembers(a);
      AllDigitsMembers(b);
      AllDigitsMembers(c);
      FilterKeepsAll(y, DigitoOuPonto);
    }
    ParseDecimalFractionPrefix(a, b, "." + c);
  }

  /** The three indicators of the results panel, as percentages. `percentualParcelado` is
      `None` when the base value is 0 (the division then gives an infinity or NaN). */
  datatype Indicadores = Indicadores(comprometimentoRenda: real, percentualParcelado: Option<real>, comprometimentoProSoluto: real)

  /** The indicators for an income, the first financing instalment, the pró-soluto instalment,
      the corrected pró-soluto balance and the base value; both income ratios are 0 without a
      positive income. */
  function CalcularIndicadores(renda: real, prestacaoFinanciamento: real, parcelaProSoluto: real,
                               valorCorrigido: real, valorBase: real): (r: Indicadores)
    ensures renda <= 0.0 ==> r.comprometimentoRenda == 0.0 && r.comprometimentoProSoluto == 0.0
    ensures renda > 0.0 ==> r.comprometimentoRenda * renda == (prestacaoFinanciamento + parcelaProSoluto) * 100.0
    ensures renda > 0.0 ==> r.comprometimentoProSoluto * renda == parcelaProSoluto * 100.0
    ensures r.percentualParcelado.Some? <==> valorBase != 0.0
    ensures valorBase != 0.0 ==> r.percentualParcelado.value * valorBase == valorCorrigido * 100.0
  {
    var totalParcelas := prestacaoFinanciamento + parcelaProSoluto;
    var cr := if renda > 0.0 then (totalParcelas / renda) * 100.0 else 0.0;
    var cps := if renda > 0.0 then (parcelaProSoluto / renda) * 100.0 else 0.0;
    var pp := if valorBase != 0.0 then Some((valorCorrigido / valorBase) * 100.0) else None;
    Indicadores(cr, pp, cps)
  }

  /** `algumExcedido`: some indicator is above the profile's ceiling. A division by a zero base
      value exceeds the ceiling exactly when it gives plus infinity, that is for a positive
      corrected balance. */
  predicate AlgumExcedido(ind: Indicadores, valorCorrigido: real, l: Limites) {
    || ind.comprometimentoRenda > l.comprometimentoRenda
    || (match ind.percentualParcelado
        case Some(p) => p > l.percentualParcelado
        case None => valorCorrigido > 0.0)
    || ind.comprometimentoProSoluto > l.comprometimentoProSoluto
  }

  /** Indicators within a profile's ceilings are within every higher profile's. */
  lemma DentroDosLimitesSobe(ind: Indicadores, valorCorrigido: real, p: Perfil, q: Perfil)
    requires Nivel(p) <= Nivel(q) && !AlgumExcedido(ind, valorCorrigido, LimitesDe(p))
    ensures !AlgumExcedido(ind, valorCorrigido, LimitesDe(q))
  {
    LimitesCrescentes(p, q);
  }

  // ---------------------------------------------------------------------------
  // The page state

  /** The state the quotation page keeps: the flow, the validation status and gap, the
      instalment count of the slider and the selected profile; the unit's values come from
      the query string and never change. */
  class Cotacao {
    var fluxoPagamento: seq<FluxoItem>
    var validacao: Validacao
    var diferenca: real
    var parcelasProSoluto: nat
    var perfilSelecionado: Perfil
    const valorBase: real
    const valorFinanciado: real

    predicate Valid()
      reads this
    {
      IdsUnicos(fluxoPagamento)
    }

    /** The page after its initialisation effect: the initial flow, 'pendente', no gap,
        no instalments and the Prata profile. */
    constructor (valorVenda: real, valorAvaliacao: real, bonusConstrutora: real, valorFinanciado: real, dataPosEntrega: string)
      ensures Valid()
      ensures fluxoPagamento == FluxoInicial(valorFinanciado, bonusConstrutora, dataPosEntrega)
      ensures validacao == Pendente && diferenca == 0.0 && parcelasProSoluto == 0 && perfilSelecionado == Prata
      ensures this.valorBase == ValorBase(bonusConstrutora, valorAvaliacao, valorVenda)
      ensures this.valorFinanciado == valorFinanciado
    {
      fluxoPagamento := FluxoInicial(valorFinanciado, bonusConstrutora, dataPosEntrega);
      validacao := Pendente;
      diferenca := 0.0;
      parcelasProSoluto := 0;
      perfilSelecionado := Prata;
      this.valorBase := ValorBase(bonusConstrutora, valorAvaliacao, valorVenda);
      this.valorFinanciado := valorFinanciado;
    }

    /** `adicionarCampo`, with the default date supplied by the caller. */
    method AdicionarCampo(campoId: string, dataPadrao: string)
      requires Valid()
      modifies this
      ensures Valid()
      ensures fluxoPagamento == Adicionar(old(fluxoPagamento), campoId, dataPadrao)
      ensures SomaFluxo(fluxoPagamento) == SomaFluxo(old(fluxoPagamento))
      ensures validacao == old(validacao) && diferenca == old(diferenca)
      ensures parcelasProSoluto == old(parcelasProSoluto) && perfilSelecionado == old(perfilSelecionado)
    {
      SomaAposAdicionar(fluxoPagamento, campoId, dataPadrao);
      fluxoPagamento := Adicionar(fluxoPagamento, campoId, dataPadrao);
    }

    /** `removerCampo`. */
    method RemoverCampo(id: string)
      requires Valid()
      modifies this
      ensures Valid()
      ensures fluxoPagamento == Remover(old(fluxoPagamento), id)
      ensures validacao == old(validacao) && diferenca == old(diferenca)
      ensures parcelasProSoluto == old(parcelasProSoluto) && perfilSelecionado == old(perfilSelecionado)
    {
      RemoverMantemIdsUnicos(fluxoPagamento, id);
      fluxoPagamento := Remover(fluxoPagamento, id);
    }

    /** `atualizarValor`. */
    method AtualizarValorCampo(id: string, valor: string)
      requires Valid()
      modifies this
      ensures Valid()
      ensures fluxoPagamento == AtualizarValor(old(fluxoPagamento), id, valor)
      ensures validacao == old(validacao) && diferenca == old(diferenca)
      ensures parcelasProSoluto == old(parcelasProSoluto) && perfilSelecionado == old(perfilSelecionado)
    {
      AtualizarMantemIds(fluxoPagamento, id, valor);
      fluxoPagamento := AtualizarValor(fluxoPagamento, id, valor);
    }

    /** `atualizarData`. */
    method AtualizarDataCampo(id: string, data: string)
      requires Valid()
      modifies this
      ensures Valid()
      ensures fluxoPagamento == AtualizarData(old(fluxoPagamento), id, data)
      ensures SomaFluxo(fluxoPagamento) == SomaFluxo(old(fluxoPagamento))
      ensures validacao == old(validacao) && diferenca == old(diferenca)
      ensures parcelasProSoluto == old(parcelasProSoluto) && perfilSelecionado == old(perfilSelecionado)
    {
      AtualizarMantemIds(fluxoPagamento, id, data);
      SomaAposAtualizarData(fluxoPagamento, id, data);
      fluxoPagamento := AtualizarData(fluxoPagamento, id, data);
    }

    /** The validation effect, run after the flow changes. */
    method Revalidar()
      requires Valid()
      modifies this
      ensures Valid()
      ensures (validacao, diferenca) == Validar(fluxoPagamento, valorBase, valorFinanciado)
      ensures fluxoPagamento == old(fluxoPagamento)
      ensures parcelasProSoluto == old(parcelasProSoluto) && perfilSelecionado == old(perfilSelecionado)
    {
      var r := Validar(fluxoPagamento, valorBase, valorFinanciado);
      validacao := r.0;
      diferenca := r.1;
    }
  }
}
