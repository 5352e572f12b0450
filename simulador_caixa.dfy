/** The Caixa simulator form (src/app/simulador-caixa/page.tsx): the guard on the required fields,
    the request it sends, and the `error`, `resultados` and `loading` state that
    `simularFinanciamento` updates around it. The reply of `fetch` is a parameter; its money
    reader is `Money.ParseValorMonetarioCaixa`. */
module SimuladorCaixa {
  import opened Wrappers

  /** The body posted to the simulation route. */
  datatype Pedido = Pedido(renda: string, dataNascimento: string, valorImovel: string, sistemaAmortizacao: string)

  /** What the route answered: its success flag, message and result fields, kept as text. */
  datatype Resultado = Resultado(sucesso: bool, mensagem: string, dados: map<string, string>)

  /** How the request ended: a reply (its `ok` status, its JSON body, and the body's `error`
      text, '' when absent), or an exception (its message when it is an `Error`). */
  datatype Desfecho =
    | Respondeu(ok: bool, corpo: Resultado, erro: string)
    | Lancou(mensagem: Option<string>)

  const CamposObrigatorios: string := "Por favor, preencha todos os campos obrigatórios."
  /** The fallback when a failed reply carries no `error` (no full stop). */
  const FalhaNaResposta: string := "Erro ao realizar simulação"
  /** The fallback when what was thrown is not an `Error` (with a full stop). */
  const FalhaInesperada: string := "Erro ao realizar simulação."

  /** `!renda || !dataNascimento || !valorImovel`: a required field is empty. */
  predicate FaltaCampo(renda: string, dataNascimento: string, valorImovel: string) {
    renda == "" || dataNascimento == "" || valorImovel == ""
  }

  /** The error text an unsuccessful attempt leaves; '' after a good reply. */
  function ErroDoDesfecho(d: Desfecho): (r: string)
    ensures d.Respondeu? && d.ok ==> r == ""
    ensures d.Respondeu? && !d.ok ==> r != "" && (d.erro != "" ==> r == d.erro)
    ensures d.Lancou? && d.mensagem.None? ==> r == FalhaInesperada
    ensures d.Lancou? && d.mensagem.Some? ==> r == d.mensagem.value
  {
    match d
    case Respondeu(ok, _, erro) =>
      if ok then "" else if erro != "" then erro else FalhaNaResposta
    case Lancou(m) =>
      if m.Some? then m.value else FalhaInesperada
  }

  /** The results an attempt leaves: the reply's body when it was `ok`, nothing otherwise. */
  function ResultadosDoDesfecho(d: Desfecho): (r: Option<Resultado>)
    ensures r.Some? <==> d.Respondeu? && d.ok
    ensures r.Some? ==> r.value == d.corpo
  {
    if d.Respondeu? && d.ok then Some(d.corpo) else None
  }

  /** After an attempt, results and an error text are never shown together, and a failed attempt
      has a message unless the thrown `Error` had an empty one. */
  lemma ResultadoOuErro(d: Desfecho)
    ensures ResultadosDoDesfecho(d).Some? ==> ErroDoDesfecho(d) == ""
    ensures ResultadosDoDesfecho(d).None? && !(d.Lancou? && d.mensagem == Some("")) ==> ErroDoDesfecho(d) != ""
  {
  }

  class Simulador {
    var renda: string
    var dataNascimento: string
    var valorImovel: string
    var sistemaAmortizacao: string
    var loading: bool
    var error: string
    var resultados: Option<Resultado>
    /** The requests posted so far. */
    var enviados: seq<Pedido>

    /** The form opens with the property value from the query and PRICE TR selected. */
    constructor(valorImovelParam: string)
      ensures renda == "" && dataNascimento == "" && valorImovel == valorImovelParam
      ensures sistemaAmortizacao == "PRICE TR"
      ensures !loading && error == "" && resultados.None? && enviados == []
    {
      renda := "";
      dataNascimento := "";
      valorImovel := valorImovelParam;
      sistemaAmortizacao := "PRICE TR";
      loading := false;
      error := "";
      resultados := None;
      enviados := [];
    }

    /** `simularFinanciamento`, with `desfecho` standing for how the request ends. The previous
        error and results are cleared first; with a required field empty the guard's message is
        set and nothing is sent; otherwise one request with the form's fields is sent, its outcome
        recorded, and `loading` is false again at the end. */
    method SimularFinanciamento(desfecho: Desfecho)
      modifies this
      ensures renda == old(renda) && dataNascimento == old(dataNascimento)
      ensures valorImovel == old(valorImovel) && sistemaAmortizacao == old(sistemaAmortizacao)
      ensures FaltaCampo(renda, dataNascimento, valorImovel) ==>
                error == CamposObrigatorios && resultados.None? &&
                enviados == old(enviados) && loading == old(loading)
      ensures !FaltaCampo(renda, dataNascimento, valorImovel) ==>
                enviados == old(enviados) + [Pedido(renda, dataNascimento, valorImovel, sistemaAmortizacao)]
      ensures !FaltaCampo(renda, dataNascimento, valorImovel) ==>
                error == ErroDoDesfecho(desfecho) &&
                resultados == ResultadosDoDesfecho(desfecho) && !loading
    {
      error := "";
      resultados := None;

      if FaltaCampo(renda, dataNascimento, valorImovel) {
        error := CamposObrigatorios;
        return;
      }

      loading := true;
      enviados := enviados + [Pedido(renda, dataNascimento, valorImovel, sistemaAmortizacao)];
      match desfecho {
        case Respondeu(ok, corpo, erro) =>
          if !ok {
            error := if erro != "" then erro else FalhaNaResposta;
          } else {
            resultados := Some(corpo);
          }
        case Lancou(m) =>
          error := if m.Some? then m.value else FalhaInesperada;
      }
      loading := false;
    }
  }
}
