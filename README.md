# Alto Sobradinho sales mirror — a Dafny model

This project models the core rules of the Alto Sobradinho sales site: a Next.js application that shows a
development's unit catalogue, simulates Caixa mortgage financing, and plans the buyer's payment flow
with a "pró-soluto" (a builder-financed balance paid in instalments). Nothing here runs the site. Each
rule is written in Dafny over exact `real` arithmetic, and the properties the code promises are proved
about it.

One module per source component:

| module | file | models |
|---|---|---|
| `Simulacao` | simulacao.dfy | the mortgage route `src/app/api/simulacao/route.ts`: one-cent instalment rounding, age, age-reduced term, MIP/DFI insurance, PRICE annuity and its inverse, the two 20-round fixed-point loops, and the request rules |
| `Cotacao` | cotacao.dfy | the payment flow of `src/app/cotacao/page.tsx`: the keyed item list, the sinal gating and offset, the flow sum, the validation status and the profile limits; the page's state is the class `Cotacao.Cotacao` |
| `ProSoluto` | prosoluto.dfy | the pró-soluto planner of the same page: the correction rate, the pre/post delivery split, the two-rate level payment and the amortization table loop |
| `Catalogo` | catalogo.dfy | `src/app/page.tsx`: the unit filter, the option lists and the status statistics |
| `Ordenacao` | ordenacao.dfy | the in-place sort of the filtered units by unit, floor, price or area |
| `Filtros` | filtros.dfy | `src/components/filters.tsx`: the filter record, the active count, and the `Painel` class holding the internal filter state |
| `StatusSummary` | status_summary.dfy | `src/components/status-summary.tsx`: the card toggle, the active card and the percentage guard |
| `Money` | money.dfy | the money readers: the catalogue's `parseValorMonetario` (identical in the three copies in `src/components/unidade-card.tsx`) and the Caixa form's variant |
| `UnidadeCard` | unidade_card.dfy | `src/components/unidade-card.tsx`: the availability gate, the two navigation clicks, the builder bonus and `calcularValores` |
| `CampoMoeda` | currency_input.dfy | `src/components/ui/currency-input.tsx`: `parseToNumber`, `parseToRawString`, the `handleChange` sanitiser, and the class `Campo` for the field's display/focus state |
| `SimuladorCaixa` | simulador_caixa.dfy | `src/app/simulador-caixa/page.tsx`: the required-field guard and the `error`/`resultados`/`loading` state of `simularFinanciamento` |
| `Decimal`, `Strings`, `Wrappers` | decimal.dfy, strings.dfy, wrappers.dfy | shared helpers: digit strings, a `parseFloat` model, rounding to cents, `trim`/`replace`/`split`/`filter` on strings, `Option`/`Result` |

Conventions:
- `NaN` is `None`.
- `parseFloat` is modelled with its prefix rule: leading blanks, an optional sign, then the longest `digits[.digits]` or `.digits` prefix.
- `Math.pow` with a natural exponent is a recursive power. A negative exponent is `1 / Pow`.
- "Today", the birth date and the delivery month are parameters. The reply of `fetch` is a parameter too.
- The page's mutable state is held in classes (`Cotacao.Cotacao`, `Filtros.Painel`, `CampoMoeda.Campo`, `SimuladorCaixa.Simulador`) whose methods are proved against the pure functions beside them.
- The fixed-point loops and the amortization table are `while` loops. The catalogue sort is an insertion sort on an `array`.

Two facts about the code that shape the model:
- Each solver loop runs at most 20 rounds (`iteracao < 20` in its `while` guard). It stops earlier at the first round that moves the amount by no more than a cent (`Simulacao.Parada`).
- The age rule's year borrow cancels numerically (`anos - 1 + (meses + 12) / 12`). The age is the plain month difference over 12, whatever the day (`Simulacao.CalcularIdadePrecisa`).

## Model

| member | source | states |
|---|---|---|
| Simulacao.ParametrosDe | src/app/api/simulacao/route.ts:14-25 | both systems' LTV and income ceilings are proper fractions and their longest term is at least the 120-month minimum |
| Simulacao.AjustarParcela | src/app/api/simulacao/route.ts:33-36 | truncating to cents and taking one cent off lands in (v − 0.02, v − 0.01] |
| Simulacao.AjustarParcelaCentavosInteiros | src/app/api/simulacao/route.ts:33-36 | the adjusted instalment plus one cent is a whole number of cents |
| Simulacao.AjustarParcelaCentavos | src/app/api/simulacao/route.ts:33-36 | an amount already in whole cents loses exactly one cent |
| Simulacao.AjustarParcelaMonotona | src/app/api/simulacao/route.ts:33-36 | a larger instalment is never adjusted below a smaller one |
| Simulacao.CalcularIdadePrecisa | src/app/api/simulacao/route.ts:38-49 | the loop-free borrow rule: twelve times the age is the plain month difference between the two dates, so the day borrow cancels |
| Simulacao.IdadeAdiantadaAntesDoDia | src/app/api/simulacao/route.ts:38-49 | before the day of the month is reached, the age counts one month more than the months actually completed |
| Simulacao.CalcularPrazoMaximo | src/app/api/simulacao/route.ts:51-57 | the term lies between 120 and the system's base term, equals the base term under 45, and is 120 from 67.54 on |
| Simulacao.PrazoReduzido | src/app/api/simulacao/route.ts:54-56 | the reduced term lies between 120 and the base, and is 120 once the reduction factor reaches 1 |
| Simulacao.PrazoMaximoNaoCrescente | src/app/api/simulacao/route.ts:51-57 | an older applicant never gets a longer term |
| Simulacao.FatorIdade | src/app/api/simulacao/route.ts:59-68 | the MIP age factor lies in [1, 6] and is 1 up to age 35 |
| Simulacao.FatorIdadeUltimaFaixa | src/app/api/simulacao/route.ts:60-68 | the chain of overriding `if`s equals the factor of the highest threshold strictly exceeded |
| Simulacao.FatorIdadeMonotono | src/app/api/simulacao/route.ts:60-68 | the factor is non-decreasing in age |
| Simulacao.SeguroMIPLimites | src/app/api/simulacao/route.ts:59-70 | the MIP premium lies between 1 and 6 times balance·0.000116, and is exactly the base rate up to 35 |
| Simulacao.SeguroMIPMonotono | src/app/api/simulacao/route.ts:59-70 | the premium grows with the balance and with age |
| Simulacao.SeguroDFI | src/app/api/simulacao/route.ts:72-74 | the DFI premium is value·0.000066, independent of age, and never exceeds a non-negative value |
| Simulacao.PrestacaoPRICE | src/app/api/simulacao/route.ts:76-82 | with zero interest the payment is an even split over n months; never negative for a non-negative loan |
| Simulacao.ValorFinanciadoFromPrestacao | src/app/api/simulacao/route.ts:85-91 | with zero interest the loan is payment·n; never negative for a non-negative payment |
| Simulacao.FatorPRICE | src/app/api/simulacao/route.ts:76-91 | the annuity factor shared by both formulas is positive |
| Simulacao.FormasPRICE | src/app/api/simulacao/route.ts:76-91 | the payment is loan·factor and the loan is payment/factor, whatever the rate |
| Simulacao.PrestacaoIdaEVolta | src/app/api/simulacao/route.ts:76-91 | the loan recovered from the PRICE payment of v is v, including the zero-rate branch |
| Simulacao.ValorFinanciadoIdaEVolta | src/app/api/simulacao/route.ts:76-91 | the PRICE payment of the loan recovered from p is p |
| Simulacao.ValorFinanciadoCrescente | src/app/api/simulacao/route.ts:85-91 | a strictly larger payment finances a strictly larger loan |
| Simulacao.PrestacaoCrescente | src/app/api/simulacao/route.ts:76-82 | a larger loan never has a smaller payment |
| Simulacao.SaldoFechado | src/app/api/simulacao/route.ts:76-82 | closed form of the balance after k months of level payments |
| Simulacao.SaldoSemJuros | src/app/api/simulacao/route.ts:79 | without interest each payment removes exactly its amount |
| Simulacao.PrestacaoQuitaEmNMeses | src/app/api/simulacao/route.ts:76-82 | the PRICE payment leaves a zero balance after exactly n months |
| Simulacao.ValorParaPrestacaoBase | src/app/api/simulacao/route.ts:153-160 | the loan each system's step finances has exactly the given first base payment (inverse of the first payment) |
| Simulacao.PrimeiraPrestacaoBaseCrescente | src/app/api/simulacao/route.ts:153-160 | the first base payment is monotone in the loan, for both systems |
| Simulacao.PassoLimites | src/app/api/simulacao/route.ts:103-113 | each iterate is at most the LTV ceiling, non-negative for a non-negative property value, 0 when the premium-adjusted budget is ≤ 0, and otherwise has a first base payment within the budget |
| Simulacao.Convergir | src/app/api/simulacao/route.ts:99-116 | the loop runs 1 to 20 rounds and stops at `Parada`: early only when the last move is ≤ 0.01, every earlier move having exceeded 0.01; the result lies in [0, LTV ceiling] |
| Simulacao.ParadaDesde | src/app/api/simulacao/route.ts:99-116 | the first stopping round from k lies in [k, 20], moves by at most 0.01 unless it is round 20, and every round from k before it moved by more |
| Simulacao.ParadaUnica | src/app/api/simulacao/route.ts:99 | the `while` exit condition fixes one round: a round that is round 20 or moves ≤ 0.01, with every earlier round moving more, is `Parada` |
| Simulacao.AjustePRICE | src/app/api/simulacao/route.ts:118-140 | after the one-cent adjustment the loan is strictly below the converged one, and its PRICE payment plus premiums is exactly the adjusted instalment, itself within one to two cents below the unadjusted one |
| Simulacao.InicialAjustadaSAC | src/app/api/simulacao/route.ts:167-176 | the adjusted SAC first instalment is below the unadjusted one |
| Simulacao.ValorAjustadoSAC | src/app/api/simulacao/route.ts:178-180 | the rebalanced SAC loan is strictly below the converged one and reproduces the adjusted first instalment |
| Simulacao.FechamentoSAC | src/app/api/simulacao/route.ts:182-198 | the amortization is loan/n, the premiums are recomputed on the new loan, and the last instalment is the adjusted amortization·(1+i) plus premiums |
| Simulacao.AjusteSACInicial | src/app/api/simulacao/route.ts:167-176 | the adjusted first instalment is one to two cents below amortization + interest + premiums |
| Simulacao.SacAjusteReduz | src/app/api/simulacao/route.ts:178-180 | (adjusted − MIP − DFI)/(1/n + i) is below the converged loan and gives back the adjusted instalment |
| Simulacao.CalcularValorFinanciadoPRICE | src/app/api/simulacao/route.ts:93-141 | the result is the one-cent adjustment of the iterate at the stopping round `Parada`; its loan is below the LTV ceiling, and its payment identity holds |
| Simulacao.CalcularValorFinanciadoSAC | src/app/api/simulacao/route.ts:143-199 | the result is the one-cent adjustment of the iterate at the stopping round `Parada`; its loan is below the LTV ceiling, and its amortization is loan/n |
| Simulacao.ParseNumeroDigitos | src/app/api/simulacao/route.ts:210-211 | a plain digit string reads as its value |
| Simulacao.ParseNumeroVirgula | src/app/api/simulacao/route.ts:210-211 | digits, a comma and digits read with the comma as decimal point |
| Simulacao.ParseNumeroMilharLidoComoDecimal | src/app/api/simulacao/route.ts:210-211 | "a.b,c" reads as a.b: the route takes "5.000,00" for 5 |
| Simulacao.SistemaDe | src/app/api/simulacao/route.ts:229 | the system is SAC iff the upper-cased selection contains "SAC" |
| Simulacao.SistemaExemplos | src/app/api/simulacao/route.ts:229 | "PRICE TR" selects PRICE and "sac" selects SAC |
| Simulacao.PrazoPartes | src/app/api/simulacao/route.ts:286-287 | the years/months split of a term recomposes it, with months in [0, 12) |
| Simulacao.FormatarPrazoAnosInteiros | src/app/api/simulacao/route.ts:285-290 | a whole number of years prints as "N ano" or "N anos" with no months part |
| Simulacao.FormatarPrazoMeses | src/app/api/simulacao/route.ts:285-290 | under a year prints "N mês" or "N meses" |
| Simulacao.FormatarPrazoAnosEMeses | src/app/api/simulacao/route.ts:285-290 | years and months print as "A ano(s) e M mês/meses" |
| Simulacao.IdadeMaximaPartes | src/app/api/simulacao/route.ts:226 | the maximum-age message says 67 years and 6 months |
| Simulacao.Simular | src/app/api/simulacao/route.ts:201-323 | missing data and unreadable numbers are rejected exactly when they occur, under 18 and from 67.54 on exactly when the age says so, the age message gives 67 years and 6 months; "not financeable" exactly when an eligible request's adjusted amount is ≤ 0, success exactly when it is positive; a success carries the value read, the age, system and term defined above (never under 120 months, so the route's term-below-minimum rejection cannot fire), the work term and total, down payment = value − loan, and every money field of its system's solver at the stopping round |
| Simulacao.EntradaDe | src/app/api/simulacao/route.ts:210-252 | an eligible request hands the solver valid inputs: its income and price as read, the fixed monthly rate, the age-limited term, its age and system |
| Simulacao.Calcular | src/app/api/simulacao/route.ts:251-275 | the result carries the request's system, age, term, work term and price, the amount the system's solver settles on, and that solver's money figures |
| Simulacao.ResultadoSAC | src/app/api/simulacao/route.ts:251-262 | the SAC result takes the adjusted amount, both instalments, the amortization and premiums of `calcularValorFinanciadoSAC`, and the first month's interest on the amount |
| Simulacao.ResultadoPRICE | src/app/api/simulacao/route.ts:263-275 | the PRICE result takes the adjusted amount and the one instalment as first and last, no amortization, and the instalment less both premiums as interest |
| Simulacao.PrazoObraDe | src/app/api/simulacao/route.ts:212 | an absent work term is the 36-month default, and a digit string reads as its value |
| Cotacao.Encontrar | src/app/cotacao/page.tsx:305 | `find` by id returns an item of the flow with that id exactly when one exists |
| Cotacao.EncontrarCampo | src/app/cotacao/page.tsx:441 | `find` on the addable fields returns a field with that id, or none has it |
| Cotacao.Deslocamento | src/app/cotacao/page.tsx:196-206 | the offset is the number of the highest sinal present (3, 2, 1) and 0 without any |
| Cotacao.FiltrarCampos | src/app/cotacao/page.tsx:209-226 | the filter keeps exactly the fields allowed by the gating rule |
| Cotacao.CamposParaAdicionar | src/app/cotacao/page.tsx:209-226 | offered fields are not yet in the flow, and every allowed field is offered |
| Cotacao.CamposRespeitamOrdem | src/app/cotacao/page.tsx:213-224 | Sinal 2 is offered only after Sinal 1, Sinal 3 only after Sinal 1 and 2 |
| Cotacao.CamposIniciais | src/app/cotacao/page.tsx:209-226 | on the initial flow every field but Sinal 2 and 3 is offered |
| Cotacao.Adicionar | src/app/cotacao/page.tsx:440-507 | adding appends one editable item with value 0 exactly when the field exists and is absent; the old items are kept and ids stay unique |
| Cotacao.Remover | src/app/cotacao/page.tsx:510-512 | removing keeps exactly the items with a different id |
| Cotacao.RemoverConcat | src/app/cotacao/page.tsx:510-512 | removal works item by item: removing from two joined flows is joining the two removals, so the remaining items keep their order |
| Cotacao.RemoverMantemIdsUnicos | src/app/cotacao/page.tsx:510-512 | removal keeps ids unique |
| Cotacao.RemoverAusente | src/app/cotacao/page.tsx:510-512 | removing an absent id changes nothing |
| Cotacao.AdicionarRemover | src/app/cotacao/page.tsx:440-512 | adding a field and removing it again restores the flow |
| Cotacao.AdicionarOferecidoMantemOrdem | src/app/cotacao/page.tsx:209-507 | adding an offered field keeps the sinais in order |
| Cotacao.RemoverSinal1QuebraOrdem | src/app/cotacao/page.tsx:196-512 | removal is not gated: removing Sinal 1 with Sinal 2 present breaks the order, and the offset stays 2 |
| Cotacao.AtualizarValor | src/app/cotacao/page.tsx:515-519 | only the items with that id change, and only their typed value |
| Cotacao.AtualizarData | src/app/cotacao/page.tsx:522-526 | only the items with that id change, and only their date |
| Cotacao.AtualizarMantemIds | src/app/cotacao/page.tsx:515-526 | updates keep ids unique |
| Cotacao.FluxoInicial | src/app/cotacao/page.tsx:239-275 | the initial flow has unique ids, sinais in order and no editable item |
| Cotacao.ParseValue | src/app/cotacao/page.tsx:285-289 | '' reads as 0 |
| Cotacao.ParseValueFormatoBrasileiro | src/app/cotacao/page.tsx:285-289 | "1.234,56" reads with the comma as decimal point |
| Cotacao.ParseValuePrefixo | src/app/cotacao/page.tsx:285-289 | an "R$ " prefix is ignored |
| Cotacao.ParseValuePontoDescartado | src/app/cotacao/page.tsx:285-289 | every dot is deleted, so "1234.56" reads as 123456 where the catalogue reader gives 1234.56 |
| Cotacao.SomaFluxoConcat | src/app/cotacao/page.tsx:295-302 | the flow sum is additive over concatenation |
| Cotacao.SomaFluxoInicial | src/app/cotacao/page.tsx:239-302 | the initial flow sums to the financed amount plus the bonus when it is positive |
| Cotacao.SomaAposAdicionar | src/app/cotacao/page.tsx:440-507 | adding a field leaves the sum unchanged, since its typed value is '' |
| Cotacao.SomaPontual | src/app/cotacao/page.tsx:295-302 | changing one item changes the sum by that item's difference |
| Cotacao.SomaAposAtualizarValor | src/app/cotacao/page.tsx:515-519 | typing into an editable item changes the sum by new minus old parsed value; into a fixed item, not at all |
| Cotacao.SomaAposAtualizarData | src/app/cotacao/page.tsx:522-526 | changing a date leaves the sum unchanged |
| Cotacao.ProSolutoBase | src/app/cotacao/page.tsx:305-313 | when shown, the base is what the flow still lacks to reach the reference value; otherwise 0 |
| Cotacao.MesesAteEntrega | src/app/cotacao/page.tsx:316-321 | the months to delivery are the month difference, clamped at 0, and 0 without a delivery date |
| Cotacao.Validar | src/app/cotacao/page.tsx:422-437 | the difference closes the balance equation; 'ok' iff it is under a cent and a Sinal Ato exists, else 'erro' iff the sum is positive, else 'pendente' |
| Cotacao.ValidaComProSoluto | src/app/cotacao/page.tsx:422-437 | whenever the pró-soluto is shown, it fills the gap and the status is 'ok' |
| Cotacao.SemSinalAtoNaoValida | src/app/cotacao/page.tsx:422-437 | without a Sinal Ato the status is never 'ok' and the difference is the whole shortfall |
| Cotacao.LimitesCrescentes | src/app/cotacao/page.tsx:55-121 | higher profiles never have tighter limits |
| Cotacao.RendaNumero | src/app/cotacao/page.tsx:987 | the income read for the indicators is never negative |
| Cotacao.RendaComVirgula | src/app/cotacao/page.tsx:987 | "a,c" reads as a.c |
| Cotacao.RendaAgrupadaLidaErrada | src/app/cotacao/page.tsx:987 | "a.b,c" reads as a.b: a grouped income is read too low |
| Cotacao.CalcularIndicadores | src/app/cotacao/page.tsx:1072-1079 | with a positive income the two income shares are (financing + pró-soluto instalment)·100/income and instalment·100/income, 0 otherwise; the parcelled share is corrected value·100/base, absent for a zero base |
| Cotacao.DentroDosLimitesSobe | src/app/cotacao/page.tsx:1081-1084 | indicators within a profile's limits stay within every higher profile's |
| Cotacao.Cotacao.constructor | src/app/cotacao/page.tsx:170-180 | the page starts with the initial flow, status 'pendente' and the silver profile |
| Cotacao.Cotacao.AdicionarCampo | src/app/cotacao/page.tsx:440-507 | the flow becomes `Adicionar` of the old one, with the same sum; nothing else changes |
| Cotacao.Cotacao.RemoverCampo | src/app/cotacao/page.tsx:510-512 | the flow becomes `Remover` of the old one; nothing else changes |
| Cotacao.Cotacao.AtualizarValorCampo | src/app/cotacao/page.tsx:515-519 | the flow becomes `AtualizarValor` of the old one; nothing else changes |
| Cotacao.Cotacao.AtualizarDataCampo | src/app/cotacao/page.tsx:522-526 | the flow becomes `AtualizarData` of the old one with the same sum; nothing else changes |
| Cotacao.Cotacao.Revalidar | src/app/cotacao/page.tsx:422-437 | the status and difference become `Validar` of the flow; the flow is unchanged |
| ProSoluto.Max0 | src/app/cotacao/page.tsx:395 | `Math.max(0, x)` is non-negative and at least x |
| ProSoluto.TaxaCorrecao | src/app/cotacao/page.tsx:342-344 | the rate is 0.5% iff the first instalment month 1 + offset is before delivery, else 1.5% |
| ProSoluto.ValorCorrigidoCresce | src/app/cotacao/page.tsx:350-351 | a positive base always grows when corrected |
| ProSoluto.ParcelasAntes | src/app/cotacao/page.tsx:355 | instalment k is counted before delivery iff its month k + offset is before delivery |
| ProSoluto.TaxaDaPrimeiraParcela | src/app/cotacao/page.tsx:342-355 | the correction rate is the pre-delivery one iff at least one instalment falls before delivery |
| ProSoluto.FatorPositivo | src/app/cotacao/page.tsx:373-374 | the annuity factor with a negative exponent is positive |
| ProSoluto.SaldoPorFator | src/app/cotacao/page.tsx:373-374 | the balance after k level payments is (1+i)^k·(v − p·factor) |
| ProSoluto.ParcelaMensalQuita | src/app/cotacao/page.tsx:363-377 | the two-rate level payment leaves no balance after all instalments, in all three branches |
| ProSoluto.Tabela | src/app/cotacao/page.tsx:381-408 | the table has n rows numbered 1..n, tagged 'antes' iff k ≤ antes, with non-negative balances and a zero last balance |
| ProSoluto.LinhaSaldo | src/app/cotacao/page.tsx:384-395 | each row's balance is max(0, previous·(1 + rate) − paid) |
| ProSoluto.TabelaEncadeada | src/app/cotacao/page.tsx:381-408 | consecutive rows chain through that rule, starting from the corrected balance |
| ProSoluto.GerarTabela | src/app/cotacao/page.tsx:381-408 | the `for` loop builds exactly `Tabela` |
| ProSoluto.CalcularProSolutoDetalhes | src/app/cotacao/page.tsx:324-421 | null iff no instalments or base ≤ 0; otherwise the base, corrected value (above the base), rate, split with antes + apos = n, level payment and table as stated above |
| Catalogo.Filtrar | src/app/page.tsx:169-197 | filtering never adds units and keeps exactly those passing every non-empty filter |
| Catalogo.FiltrarConcat | src/app/page.tsx:169-197 | filtering is applied unit by unit and keeps order |
| Catalogo.FiltrarVazio | src/app/page.tsx:169-197 | empty filters keep every unit |
| Catalogo.FiltrarDuasVezes | src/app/page.tsx:169-197 | setting a filter that was empty only narrows the result |
| Catalogo.Dedup | src/app/page.tsx:151-155 | the `Set` keeps each value once and no other |
| Catalogo.DedupPrimeiraOcorrencia | src/app/page.tsx:151-155 | the `Set` lists its values in the order of their first occurrence in the input |
| Catalogo.PrimeiroIndicePrefixo | src/app/page.tsx:151-155 | a value in a prefix first occurs in the whole list where it first occurs in the prefix |
| Catalogo.OrdenarTextos | src/app/page.tsx:152 | the block list is sorted, with the same members |
| Catalogo.OrdenarInteiros | src/app/page.tsx:153 | the floor list ascends numerically, with the same members |
| Catalogo.Bloco | src/app/page.tsx:152 | the block is the unit code up to its first '-', or the whole code without one |
| Catalogo.NumeroLido | src/app/page.tsx:187 | `parseInt` reads back the number that starts a label |
| Catalogo.RotuloAndarLido | src/app/page.tsx:159-189 | the floor filter reads every option label back as its floor, 'Térreo' as 0 |
| Catalogo.RotuloAndarInjetivo | src/app/page.tsx:159 | different floors get different labels |
| Catalogo.Situacoes | src/app/page.tsx:151 | the status options are exactly the statuses present |
| Catalogo.Blocos | src/app/page.tsx:152 | the block options are exactly the blocks present |
| Catalogo.Andares | src/app/page.tsx:153 | the floor options are exactly the floors present |
| Catalogo.Tipologias | src/app/page.tsx:154 | the type options are exactly the types present |
| Catalogo.Posicoes | src/app/page.tsx:155 | the sun-position options are exactly those present |
| Catalogo.AndaresOrdenados | src/app/page.tsx:153 | the floors present, ascending |
| Catalogo.OpcoesCompletas | src/app/page.tsx:140-163 | the option lists are duplicate-free, blocks sorted, and each lists exactly the values present |
| Catalogo.OpcoesDeAndar | src/app/page.tsx:153-159 | the floor labels follow the ascending floors, and choosing a label filters exactly that floor |
| Catalogo.Contar | src/app/page.tsx:235-240 | each status count is at most the total |
| Catalogo.CalcularEstatisticas | src/app/page.tsx:221-251 | the total is the unit count; no units gives all zeros |
| Catalogo.SomaContagensAteTotal | src/app/page.tsx:234-240 | the six counts together never exceed the total |
| Catalogo.MarcaUnica | src/app/page.tsx:235-240 | a status falls in at most one of the six counts |
| Catalogo.ForaNaoExata | src/app/page.tsx:240 | a status containing "Fora" is none of the exactly matched ones |
| Catalogo.SomaAteTotal | src/app/page.tsx:221-251 | the statistics' six counts sum to at most the total |
| Catalogo.ContagemIgualAoFiltro | src/app/page.tsx:235-239 | for the exact statuses the card count equals the number of units the status filter keeps |
| Catalogo.ReservadasAteFiltro | src/app/page.tsx:237 | the 'Reservada' count is at most what its filter (any status containing 'Reservada') keeps |
| Catalogo.ForaDeVendaFiltroAteContagem | src/app/page.tsx:240 | the 'Fora de Venda' filter keeps at most what its card (any status containing 'Fora') counts |
| Ordenacao.TextoTotal | src/app/page.tsx:202 | the unit-code order compares any two codes |
| Ordenacao.TextoTransitivo | src/app/page.tsx:202 | the unit-code order is transitive |
| Ordenacao.NaoDepoisTotal | src/app/page.tsx:199-216 | every sort criterion compares any two units |
| Ordenacao.NaoDepoisTransitivo | src/app/page.tsx:199-216 | every sort criterion is transitive |
| Ordenacao.OrdenarCom | src/app/page.tsx:199-216 | the in-place sort leaves the array ordered and a permutation of the input, and untouched when no pair is out of order either way |
| Ordenacao.Ordenar | src/app/page.tsx:199-216 | the units are sorted by the chosen criterion, permuted only, and untouched for an unknown criterion |
| Ordenacao.FiltrarEOrdenar | src/app/page.tsx:166-219 | the result holds exactly the filtered units, sorted by the chosen criterion, in filter order for an unknown one |
| Ordenacao.OrdemDeAndar | src/app/page.tsx:204 | by floor the floors never decrease, and equal floors follow the unit code |
| Ordenacao.OrdemDeValor | src/app/page.tsx:205-208 | by price readable prices ascend, and unreadable prices come last |
| Ordenacao.OrdemDeArea | src/app/page.tsx:209-212 | by area readable areas descend, and unreadable areas come last |
| Ordenacao.AreaComVirgula | src/app/page.tsx:210-211 | "75,5 m²" reads as 75.5 |
| Ordenacao.AreaComPonto | src/app/page.tsx:210-211 | the dot is filtered out, so "75.5 m²" reads as 755 |
| Filtros.ComCampo | src/components/filters.tsx:105 | setting a key changes that field and no other |
| Filtros.NaoVazios | src/components/filters.tsx:102 | the count of non-empty values is at most the number of values |
| Filtros.ContarAtivosLimites | src/components/filters.tsx:102 | the active count is at most 6, and 0 iff every field is empty |
| Filtros.NaoVaziosZero | src/components/filters.tsx:102 | no value is non-empty iff all are empty |
| Filtros.NaoVaziosAtualizar | src/components/filters.tsx:102 | replacing one value changes the count by that value alone |
| Filtros.ValoresComCampo | src/components/filters.tsx:102-105 | the record's six values after a set are the old ones with that slot replaced |
| Filtros.Atualizar | src/components/filters.tsx:104-105 | `updateFilter` sets only field k, to '' for 'all' and to v otherwise |
| Filtros.Remover | src/components/filters.tsx:135-137 | `removeFilter` empties only field k |
| Filtros.ContarAposAtualizar | src/components/filters.tsx:102-105 | the active count changes by the old and new field alone |
| Filtros.ContarAposRemover | src/components/filters.tsx:135-137 | removing a set field lowers the count by one, removing an empty one changes nothing |
| Filtros.TodosEhRemover | src/components/filters.tsx:104-137 | choosing 'all' is the same as removing the filter |
| Filtros.BuscaTodosApaga | src/components/filters.tsx:104-105 | typing 'all' in the search box clears the search |
| Filtros.Painel.constructor | src/components/filters.tsx:90-100 | the panel starts with empty internal filters |
| Filtros.Painel.AtualizarFiltro | src/components/filters.tsx:104-115 | the callback gets the updated record; internal state is untouched with external filters and set to that record otherwise |
| Filtros.Painel.RemoverFiltro | src/components/filters.tsx:135-137 | the callback gets the record with field k emptied; the internal state follows it only without external filters |
| Filtros.Painel.LimparFiltros | src/components/filters.tsx:117-133 | the callback gets all six fields empty; without external filters the active count becomes 0 |
| StatusSummary.Clique | src/components/status-summary.tsx:86-93 | with no callback nothing happens; the active card sends null, any other its value |
| StatusSummary.ValoresDistintos | src/components/status-summary.tsx:19-62 | the six cards have distinct filter values |
| StatusSummary.AoMaisUmAtivo | src/components/status-summary.tsx:111 | at most one card is active |
| StatusSummary.Percentual | src/components/status-summary.tsx:110 | 0 for a zero total, within [0, 100] for a count within the total, 100 for all |
| StatusSummary.AoClicar | src/app/page.tsx:330-335 | the page's handler sets only the status filter, to the value or '' for null |
| StatusSummary.CliqueAlterna | src/components/status-summary.tsx:86-93 | with the page's handler, a click toggles the status filter between '' and the card's value and changes nothing else |
| StatusSummary.CliqueDuplo | src/components/status-summary.tsx:86-93 | clicking the same card twice leaves the status filter '' |
| Money.Limpar | src/app/page.tsx:121 | no 'R', '$' or blank is left, and clean text is kept |
| Money.ParseValorMonetario | src/app/page.tsx:120-137 | a price with nothing left after cleaning is NaN, and a plain digit string reads as its value |
| Money.ParseValorMonetarioCaixa | src/app/simulador-caixa/page.tsx:85-93 | the Caixa form's reader agrees with the catalogue's whenever the text has both separators or neither |
| Money.PrefixIgnored | src/app/page.tsx:121 | an "R$ " prefix changes neither reader's result |
| Money.BothSeparatorsBranch | src/app/page.tsx:123-125 | with both separators both readers drop the dots and read the comma as decimal point |
| Money.BrazilianFormat | src/app/page.tsx:123-125 | dot-grouped digits, a comma and digits read as the dot-free number with the comma as decimal point ("829.000,50" is 829000.50), in both readers |
| Money.ThousandsOnly | src/app/page.tsx:127-134 | with dots only and a last group not of two characters, every dot groups thousands |
| Money.CentsAfterDot | src/app/page.tsx:129-131 | with a last group of two digits the dot is the decimal point |
| Money.ThousandsGroup | src/app/page.tsx:127-134 | digits, a dot and exactly three digits read as the digits joined ("829.000" is 829000) |
| Money.PlainDigits | src/app/page.tsx:136 | plain digits read as their value in both readers |
| Money.CaixaDotIsDecimal | src/app/simulador-caixa/page.tsx:85-93 | the Caixa reader takes any lone dot as decimal point |
| Money.CaixaCommaIsDecimal | src/app/simulador-caixa/page.tsx:89-90 | the Caixa reader takes a lone comma as decimal point |
| Money.ReadersDisagreeOnThousands | src/app/simulador-caixa/page.tsx:85-93 | on digits, a dot and three digits the Caixa reader gives less than the catalogue's (829 against 829000 for "829.000") |
| UnidadeCard.ValorEmCentavos | src/components/unidade-card.tsx:88-100 | the click handlers' reader fails exactly when the catalogue's does, and is within half a cent of it |
| UnidadeCard.Bonus | src/components/unidade-card.tsx:104-106 | the bonus is never negative, is positive only when the appraisal exceeds the sale price, and is 0 when either is unreadable |
| UnidadeCard.CliqueCalculadora | src/components/unidade-card.tsx:57-84 | the calculator navigates iff the unit is 'Disponível' and the development is known, with the unit and its price |
| UnidadeCard.CliqueCaixa | src/components/unidade-card.tsx:86-120 | the Caixa button navigates iff the unit is 'Disponível', sending both prices rounded to the cent, the bonus of those two prices (never negative) and the unit's data |
| UnidadeCard.ValoresDe | src/components/unidade-card.tsx:149-175 | null iff a price is unreadable; `temBonus` iff appraisal > sale; the difference is the absolute gap; the percentage is gap/appraisal·100, or 0 without a positive appraisal |
| UnidadeCard.BonusSoComDiferenca | src/components/unidade-card.tsx:102-154 | the Caixa button sends a positive bonus only when the card itself shows one |
| UnidadeCard.BonusEmCentavos | src/components/unidade-card.tsx:104-106 | for prices in whole cents the bonus is exactly appraisal − sale |
| UnidadeCard.ValorEmCentavosInteiro | src/components/unidade-card.tsx:88-100 | each price the Caixa button sends is a whole number of cents |
| UnidadeCard.BonusDeCentavos | src/components/unidade-card.tsx:104-106 | on whole-cent prices the bonus is exactly appraisal − sale when the appraisal is higher, else 0 |
| UnidadeCard.BonusDaCaixa | src/components/unidade-card.tsx:86-120 | the bonus sent is exactly the difference of the two prices sent when the appraisal is higher, and 0 otherwise |
| CampoMoeda.ParseToNumber | src/components/ui/currency-input.tsx:33-64 | numbers are kept; blank text and unreadable text read as 0, never `NaN` |
| CampoMoeda.NormalizarVirgula | src/components/ui/currency-input.tsx:48-58 | with a lone comma, it becomes the point before one or two digits and is deleted before more |
| CampoMoeda.VirgulaDecimal | src/components/ui/currency-input.tsx:48-53 | digits, a comma and one or two digits read with the comma as decimal point ("1000,50" is 1000.50) |
| CampoMoeda.VirgulaDeMilhar | src/components/ui/currency-input.tsx:48-56 | digits, a comma and three or more digits read as the digits joined ("1,000" is 1000) |
| CampoMoeda.FormatoBrasileiro | src/components/ui/currency-input.tsx:45-47 | dot-grouped digits, a comma and digits read as the dot-free number with the comma as decimal point ("1.000,50" is 1000.50) |
| CampoMoeda.PontoSempreDecimal | src/components/ui/currency-input.tsx:59-63 | digits, a dot and digits always read with the dot as decimal point, so "1.000" is 1 |
| CampoMoeda.ParseToRawString | src/components/ui/currency-input.tsx:85-94 | '' iff the text reads as 0, otherwise the number read |
| CampoMoeda.DigitadoEnviado | src/components/ui/currency-input.tsx:85-94 | the digits of a positive whole number are reported to `onChange` as that number |
| CampoMoeda.UmaVirgula | src/components/ui/currency-input.tsx:149-152 | at most one comma remains, a comma remains iff there was one, no other character is lost and the digits are kept in order |
| CampoMoeda.SemPontosDeMilhar | src/components/ui/currency-input.tsx:140-146 | with both separators no dot remains; otherwise the text is kept; digits are kept in order |
| CampoMoeda.Sanear | src/components/ui/currency-input.tsx:136-152 | only digits, ',', '.', '-' remain; no dot when both separators were typed; at most one comma; the typed digits in order |
| CampoMoeda.SaneadoEstavel | src/components/ui/currency-input.tsx:136-152 | clean text with at most one comma is left as typed |
| CampoMoeda.FormatarParaExibir | src/components/ui/currency-input.tsx:67-82 | '' shows nothing, a number is shown formatted, text is shown as its number or blank |
| CampoMoeda.FormatarExibicao | src/components/ui/currency-input.tsx:122-130 | blank stays blank and a raw number is shown formatted |
| CampoMoeda.FocoSemEdicao | src/components/ui/currency-input.tsx:104-130 | focusing and leaving without typing shows what was shown before, for a non-zero value |
| CampoMoeda.Campo.constructor | src/components/ui/currency-input.tsx:29-30 | the field starts blank and unfocused |
| CampoMoeda.Campo.Sincronizar | src/components/ui/currency-input.tsx:97-101 | the display follows the value only while unfocused |
| CampoMoeda.Campo.AoFocar | src/components/ui/currency-input.tsx:104-119 | focus sets the flag and, for a non-empty value, shows its raw number (blank for 0); an empty value leaves the display as it was |
| CampoMoeda.Campo.AoSair | src/components/ui/currency-input.tsx:122-130 | blur unfocuses and formats the display |
| CampoMoeda.Campo.AoDigitar | src/components/ui/currency-input.tsx:133-159 | the sanitised text is shown and its raw value reported |
| SimuladorCaixa.ErroDoDesfecho | src/app/simulador-caixa/page.tsx:106-120 | a good reply leaves no error; a failed reply its own error or a non-empty fallback; a throw its message or the fallback |
| SimuladorCaixa.ResultadosDoDesfecho | src/app/simulador-caixa/page.tsx:106-120 | results are kept iff the reply was ok, and they are its body |
| SimuladorCaixa.ResultadoOuErro | src/app/simulador-caixa/page.tsx:95-124 | results and an error are never shown together |
| SimuladorCaixa.Simulador.constructor | src/app/simulador-caixa/page.tsx:69-75 | the form starts with the query's property value, PRICE TR, and no error, results or loading |
| SimuladorCaixa.Simulador.SimularFinanciamento | src/app/simulador-caixa/page.tsx:95-124 | error and results are cleared first; an empty required field sets the message and sends nothing; otherwise one request is sent, its outcome recorded, and loading is false at the end |
| Decimal.ParseUnsigned | src/app/page.tsx:131 | the unsigned numeral prefix is never negative, is NaN exactly when the text starts with neither a digit nor a point and a digit, and reads a digit string as its value |
| Decimal.ParseDecimal | src/app/page.tsx:137 | `parseFloat` reads a digit string as its value and a blank or empty text as NaN |
| Decimal.ParseDecimalDigitFirst | src/app/page.tsx:131 | a text starting with a digit is read as an unsigned numeral |
| Decimal.ParseDecimalFractionPrefix | src/app/page.tsx:124 | digits, a point and digits read as that decimal fraction, whatever non-digit follows |
| Decimal.ParseDecimalFraction | src/app/page.tsx:131 | digits, a point and digits read as that decimal fraction |
| Decimal.ParseIntLeading | src/app/page.tsx:187 | `parseInt` reads the leading digits in base ten, whatever non-digit follows, unless they are the `0` of a `0x`/`0X` marker |
| Decimal.ParseIntBodyLeading | src/app/page.tsx:187 | after the sign, decimal digits that do not form the `0x`/`0X` marker are read in base ten |
| Decimal.ParseIntHex | src/app/page.tsx:187 | after `0x`/`0X`, `parseInt` reads the leading hexadecimal digits in base 16, and gives NaN when there are none |
| Decimal.ParseIntNegated | src/app/page.tsx:187 | after a minus sign `parseInt` reads the rest negated, in either radix |
| Decimal.ParseIntHexExamples | src/app/page.tsx:187 | "0x1A" reads as 26, "-0x1A" as −26, and "0x" as NaN |
| Decimal.RoundCents | src/components/unidade-card.tsx:99 | `toFixed(2)` read back lies within half a cent of the number |
| Decimal.RoundCentsMonotone | src/components/unidade-card.tsx:104-106 | rounding to the cent keeps the order of two numbers |
| Decimal.RoundCentsIdempotent | src/components/unidade-card.tsx:99-105 | a number rounded to the cent is a whole number of cents: rounding it again changes nothing |
| Decimal.RoundCentsDifference | src/components/unidade-card.tsx:106 | the difference of two whole-cent amounts is a whole number of cents |
| Decimal.RoundCentsExact | src/components/unidade-card.tsx:106 | a whole number of cents is kept by rounding |

## Left out

- Rendering: JSX, Tailwind classes, icons, dropdowns, sliders and the theme toggles.
- React hook scheduling: effects and memos are methods and functions called explicitly.
- HTTP and I/O: the `POST` framing and `NextResponse` of the simulation route, `fetch`, the proxy and static data routes, and `next.config.ts`. The route's reply is a `Result`; the form's `fetch` outcome is a parameter.
- Floating point: arithmetic is exact over `real`. `NaN` is `None`. IEEE-754 drift, `Infinity` and `parseFloat`'s exponent forms are not modelled.
- Dates: "today", birth and delivery dates are integer triples. `toISOString`, time zones, the default dates of new flow items and the calendar dates of schedule rows are not modelled, nor is `getDataMinima`.
- Output text: `Intl.NumberFormat`, `toLocaleString`, `toFixed` and `toLocaleDateString` are not modelled. A number shown formatted is kept as the number; `toFixed(2)` is rounding to cents.
- `localeCompare` is approximated by code-point lexicographic order.
- Ordenacao.Ordenar: a comparator that meets `NaN` has no defined order in ECMAScript; the model sorts unreadable prices and areas last.
- Ordenacao.Ordenar: stability is stated only for an unknown criterion, where the order is kept.
- Catalogo.ReservadasAteFiltro: only an inequality. The 'Reservada' card counts two exact statuses while its filter takes any status containing 'Reservada'.
- Catalogo.ForaDeVendaFiltroAteContagem: only an inequality. The 'Fora de Venda' filter matches exactly while its card counts any status containing 'Fora'.
- CampoMoeda.FormatarExibicao: a display that is already formatted is kept as is. Its pt-BR text is not read back.
- SimuladorCaixa.ResultadoOuErro: an `Error` thrown with an empty message leaves neither results nor an error text, so the "one of the two" direction excludes that case.
- Simulacao.Simular: `renda`, `valorImovel` and `prazoObra` arrive as text. The route also accepts them as JSON numbers. It passes `renda` and `valorImovel` through unparsed, and a number 0 counts as missing. It hands a numeric `prazoObra` to `parseInt` through its decimal text, and a number 0 gives the 36-month default where the text "0" reads as 0. That path is not modelled.
- Simulacao.Simular: the reply's `Percentual_Renda` and `Percentual_Entrada` (`percentualComprometimento`, the first instalment as a percentage of income, and `percentualEntrada`, the down payment as a percentage of the property value) are not part of `Resultado`.
- Simulacao.Simular: the birth date is a calendar date. A date the route cannot read gives a `NaN` age, which passes both age tests and the "not financeable" test and returns a success with `NaN` figures; that path is not modelled.
- Strings.UpperChar, Strings.LowerChar: `toUpperCase` and `toLowerCase` are modelled on the ASCII and Latin-1 letters. 'ß' (which `toUpperCase` turns into "SS") and letters of other scripts are kept as they are, so `Catalogo.PassaBusca` and `Simulacao.SistemaDe` do not fold them.
- The separate Caixa simulator route (`src/app/api/simular-caixa/route.ts`) and the unit simulator page are not part of this model.
