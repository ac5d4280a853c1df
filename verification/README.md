# Fertiliser blend solver — a verified Dafny model

This project models the calculation core of a fertiliser formulation web application. Given:

- a set of selected ingredients, each with N, P, K, S and Ca percentages and a cost per tonne;
- a target composition;
- a total batch mass,

the solver decides how many kilograms of each ingredient to mix.

The model covers two source files:

- `src/pages/CalculadoraPage.tsx`
  - `resolverSistemaLinear`: a simplified Gauss-Jordan elimination with partial pivoting.
  - `calcularFormulacaoOtimizada`. It validates the request. Then it tries an exact linear system: one mass-balance equation, one equation per targeted nutrient, and padding equations. When that does not give an acceptable blend, it falls back to a 1000-step random-perturbation refiner.
- `src/lib/calculadora.ts`
  - `calcularComposicao`: the mass-weighted mean composition, rounded to two decimals.
  - `calcularCustoTotal`.
  - `otimizarFormulacao`: a greedy allocation that gives 40% of the remaining mass to each relevant ingredient in cost order.

Modules:

| module | file | contents |
|---|---|---|
| `Domain` | domain.dfy | Nutrients, ingredient records, result lines, `Math.round` at one and two decimals, and left-to-right sums with their algebra. |
| `Calculadora` | calculadora.dfy | The three helpers of `src/lib/calculadora.ts`. `otimizarFormulacao` is a method whose loop is proved against a functional specification: a stable cost sort and a geometric greedy allocation. |
| `SistemaLinear` | sistema_linear.dfy | The elimination as value-level functions (`Pivo`, `Trocado`, `Passo`, `Reduzir`, `Resolver`). The method works in place on arrays, as the source does, and is proved to end in the state `Reduzir` describes. |
| `SistemaLinearCorrecao` | sistema_linear_correcao.dfy | What the elimination means. Row swaps and pivot steps keep the solution set. A `null` result means exactly that some reduced row is inconsistent. On a square system where no column is skipped, the result is the unique solution. |
| `Formulacao` | formulacao.dfy | The pieces of the exact attempt, each a method (where the source loops) with its specification function. They build the system, collect the lines, rescale them, recompute the composition and check the tolerance. |
| `Refinador` | refinador.dfy | The iterative refiner over a mutable array of masses. The random numbers are passed in as a table of draws. |
| `Orquestrador` | orquestrador.dfy | The whole `calcularFormulacaoOtimizada` as a specification function, `FormulacaoOtimizada`, and a method proved equal to it. Lemmas characterise every outcome: validation failures, an accepted exact result, a missing nutrient source, and the fallback. |

## Model

| member | source | states |
|---|---|---|
| `Domain.Round2` | src/lib/calculadora.ts:29-33 | Rounding to two decimals moves a value by at most 0.005 and keeps non-negative values non-negative. |
| `Domain.Round1` | src/pages/CalculadoraPage.tsx:258 | Rounding a mass to one decimal moves it by at most 0.05, keeps it non-negative, and keeps a mass of at least 0.1 at least 0.1. |
| `Domain.SumAppend` | src/lib/calculadora.ts:11 | A left-to-right sum of a concatenation is the sum of the two parts. |
| `Calculadora.AcumuladoIsRatio` | src/lib/calculadora.ts:17-26 | The per-line accumulation equals the total nutrient mass divided by the total mass. |
| `Calculadora.ComposicaoIsRoundedMean` | src/lib/calculadora.ts:8-35 | A zero total mass gives the all-zero composition. Otherwise each nutrient is the two-decimal rounding of (nutrient mass / total mass). |
| `Calculadora.NutrientMassBetween` | src/lib/calculadora.ts:17-26 | If every line with positive mass has a percentage in [lo, hi], the nutrient mass lies between total·lo and total·hi. |
| `Calculadora.MeanBetweenExtremes` | src/lib/calculadora.ts:17-26 | For a positive total, the unrounded composition lies between the smallest and largest percentage of the lines used. |
| `Calculadora.AcumuladoScaleInvariant` | src/lib/calculadora.ts:11-26 | Scaling every mass by c > 0 leaves the accumulated composition unchanged. |
| `Calculadora.ComposicaoScaleInvariant` | src/lib/calculadora.ts:8-35 | `calcularComposicao` depends only on the proportions: scaling every mass by c > 0 gives the same result. |
| `Calculadora.CustoTotalAppend` | src/lib/calculadora.ts:37-42 | The total cost of a concatenation is the sum of the two costs. |
| `Calculadora.CustoTotalIsSumOfLines` | src/lib/calculadora.ts:37-42 | The total cost of an empty list is 0. Otherwise it is the first line's cost per kg (cost per tonne / 1000) times its mass, plus the cost of the rest. |
| `Calculadora.CustoTotalNonNegative` | src/lib/calculadora.ts:37-42 | Non-negative prices and masses give a non-negative total cost. |
| `Calculadora.RelevanteIff` | src/lib/calculadora.ts:56-63 | An ingredient is relevant exactly when some nutrient has a truthy target and a positive percentage in it. |
| `Calculadora.Relevantes` | src/lib/calculadora.ts:56-63 | The filter keeps exactly the relevant ingredients and is never longer than its input. |
| `Calculadora.InsertByCost` | src/lib/calculadora.ts:66-68 | One insertion step of the sort adds exactly the inserted ingredient to the multiset. |
| `Calculadora.InsertKeepsSorted` | src/lib/calculadora.ts:66-68 | Inserting into a cost-sorted list keeps it sorted. |
| `Calculadora.InsertStable` | src/lib/calculadora.ts:66-68 | Insertion keeps the relative order of ingredients of equal cost. |
| `Calculadora.OrdenarPorCusto` | src/lib/calculadora.ts:66-68 | The cost sort is a permutation of its input. |
| `Calculadora.OrdenarPorCustoSortedStable` | src/lib/calculadora.ts:66-68 | The cost sort is ascending by cost per tonne and stable: ingredients of equal cost keep their original order. |
| `Calculadora.LeftoverSplits` | src/lib/calculadora.ts:74-77 | Each greedy step splits the remaining mass into the share taken and the new remainder. |
| `Calculadora.SharesAndLeftoverMakeTotal` | src/lib/calculadora.ts:71-79 | After any number of greedy steps, the shares plus the remainder equal the requested total. |
| `Calculadora.GreedyStep` | src/lib/calculadora.ts:72-77 | For a positive total, the remainder stays positive, `Math.min(rest·0.4, rest)` is 40% of it, and the new remainder is positive. |
| `Calculadora.GreedyMassesAddUp` | src/lib/calculadora.ts:82-84 | Adding the remainder to the first line makes the masses sum to the requested total. |
| `Calculadora.AlocacaoGulosaFacts` | src/lib/calculadora.ts:71-84 | Line i holds the i-th cheapest relevant ingredient. Line 0 gets 0.4·P plus the final remainder; line i gets 0.4·0.6^i·P. The masses sum to P. |
| `Calculadora.LinhasKeepSelection` | src/lib/calculadora.ts:95-100 | The result lines keep each selected ingredient and its mass, each percentage is that mass over the total times 100, and each line cost is that of its entry. |
| `Calculadora.LinhasPercentagesAddUp` | src/lib/calculadora.ts:92-98 | With a non-zero total, the result percentages sum to 100. |
| `Calculadora.PorcentagensAreScaled` | src/lib/calculadora.ts:98 | Each percentage is its mass times 100 / total. |
| `Calculadora.OtimizarFormulacao` | src/lib/calculadora.ts:44-105 | Returns `null` exactly when no ingredient is relevant or the total is not positive. Otherwise the lines are `Linhas` of the greedy allocation over the stable cost order: the same ingredients and masses, each percentage its mass over the requested total P times 100. The total mass is P, the percentages sum to 100, each line cost is cost/1000·mass, and the composition and total cost are those of the allocation. |
| `SistemaLinear.PivoAteEhPivo` | src/pages/CalculadoraPage.tsx:45-50 | The pivot search returns the first row at or below the diagonal whose entry in the column has the largest magnitude. |
| `SistemaLinear.PivoUnico` | src/pages/CalculadoraPage.tsx:45-50 | Any row with that property is the one the search returns. |
| `SistemaLinear.ResolverSistemaLinear` | src/pages/CalculadoraPage.tsx:35-92 | The in-place elimination and final check return exactly `Resolver`: `null` when some reduced row is inconsistent, otherwise the first min(rows, columns) right-hand sides. |
| `SistemaLinear.Escalonar` | src/pages/CalculadoraPage.tsx:43-78 | The column loop leaves the arrays in the state `Reduzir` gives for the first min(n, m) columns. |
| `SistemaLinear.ProcessarColuna` | src/pages/CalculadoraPage.tsx:44-77 | One column iteration (pivot, swap, skip-or-normalise, eliminate) produces `Passo` of the previous state. |
| `SistemaLinear.Pivotear` | src/pages/CalculadoraPage.tsx:45-50 | The pivot loop returns `Pivo`. |
| `SistemaLinear.NormalizarLinha` | src/pages/CalculadoraPage.tsx:61-66 | Only the pivot row changes: entries from the diagonal on, and its right-hand side, are divided by the pivot. |
| `SistemaLinear.EliminarColuna` | src/pages/CalculadoraPage.tsx:68-77 | Every other row has `factor` times the pivot row subtracted, from the diagonal on, and its right-hand side likewise. |
| `SistemaLinear.EliminarLinha` | src/pages/CalculadoraPage.tsx:71-75 | Exactly row j changes, by the subtraction from the diagonal column on. |
| `SistemaLinear.Verificar` | src/pages/CalculadoraPage.tsx:80-89 | Reports a failure exactly when some row's residual and right-hand side both exceed 1e-5 in magnitude. |
| `SistemaLinearCorrecao.TrocadoLinhaPivo` | src/pages/CalculadoraPage.tsx:52-54 | After the swap, the diagonal row is the chosen pivot row, with its right-hand side. |
| `SistemaLinearCorrecao.PuladaSse` | src/pages/CalculadoraPage.tsx:56-59 | A column is skipped exactly when every entry at or below the diagonal is below 1e-10 in magnitude. A skipped column leaves the swapped system as it is. |
| `SistemaLinearCorrecao.TrocaPreservaSolucoes` | src/pages/CalculadoraPage.tsx:52-54 | Swapping two equations keeps the solution set. |
| `SistemaLinearCorrecao.PassoColunaPivo` | src/pages/CalculadoraPage.tsx:61-77 | After a non-skipped step, the pivot column is a unit column. |
| `SistemaLinearCorrecao.PassoLinhaPivo` | src/pages/CalculadoraPage.tsx:61-66 | When the swapped pivot row is zero left of the diagonal, the new pivot row is that row scaled by 1/pivot, as is its right-hand side. |
| `SistemaLinearCorrecao.PassoOutraLinha` | src/pages/CalculadoraPage.tsx:68-77 | When the swapped pivot row is zero left of the diagonal, every other row is itself minus `factor` times the new pivot row, as is its right-hand side. |
| `SistemaLinearCorrecao.LinhaEscaladaSse` | src/pages/CalculadoraPage.tsx:61-66 | A scaled equation has the same solutions as the original. |
| `SistemaLinearCorrecao.LinhaCombinadaSse` | src/pages/CalculadoraPage.tsx:68-77 | Subtracting a satisfied equation keeps an equation's solutions. |
| `SistemaLinearCorrecao.PassoEhOperacoesDeLinha` | src/pages/CalculadoraPage.tsx:56-77 | When the swapped pivot row is zero left of the diagonal, a non-skipped step is a scaling of the pivot row followed by eliminations with it. |
| `SistemaLinearCorrecao.OperacoesPreservamSolucoes` | src/pages/CalculadoraPage.tsx:56-77 | Such row operations keep the solution set. |
| `SistemaLinearCorrecao.PassoPreservaSolucoes` | src/pages/CalculadoraPage.tsx:56-77 | A non-skipped step whose pivot row is clean to the left of the diagonal keeps the solution set. |
| `SistemaLinearCorrecao.PassoColunas` | src/pages/CalculadoraPage.tsx:43-78 | If the first i columns are unit columns, a non-skipped step on column i makes the first i+1 unit columns. |
| `SistemaLinearCorrecao.PassoSemPulo` | src/pages/CalculadoraPage.tsx:43-78 | A clean non-skipped step extends the unit columns and keeps the solution set. |
| `SistemaLinearCorrecao.ReduzirPasso` | src/pages/CalculadoraPage.tsx:43-78 | One more column of the reduction keeps both invariants. |
| `SistemaLinearCorrecao.ReduzirSemPulos` | src/pages/CalculadoraPage.tsx:43-78 | If no column is skipped, the first k columns become unit columns and the solution set is unchanged. |
| `SistemaLinearCorrecao.IdentidadeSolucao` | src/pages/CalculadoraPage.tsx:91 | For an identity system, x is a solution exactly when it is the right-hand side. |
| `SistemaLinearCorrecao.IdentidadeSemFalha` | src/pages/CalculadoraPage.tsx:80-89 | An identity system never fails the consistency check. |
| `SistemaLinearCorrecao.ResolverNuloSse` | src/pages/CalculadoraPage.tsx:80-91 | The result is `null` exactly when some reduced row has both residual and right-hand side above 1e-5. Otherwise it has min(n, m) entries, each the reduced right-hand side. |
| `SistemaLinearCorrecao.ResolverQuadradoSemPulos` | src/pages/CalculadoraPage.tsx:35-92 | For a square system with no skipped column, the solver returns a solution of the original system, and every solution equals it. |
| `Formulacao.NutrientesAlvoSse` | src/pages/CalculadoraPage.tsx:187-193 | The target list holds exactly the nutrients whose target is positive, in the order n, p, k, s, ca, without repeats. |
| `Formulacao.MontarSistema` | src/pages/CalculadoraPage.tsx:215-236 | Builds the system: an all-ones row with right-hand side P, one row of percentages/100 per target with right-hand side target/100·P, and padding rows with zeros before their index and ones from it, with right-hand side 0, up to a square system. |
| `Formulacao.SistemaQuadrado` | src/pages/CalculadoraPage.tsx:214-236 | That system is square, of the ingredient count. |
| `Formulacao.ProdutoUns` | src/pages/CalculadoraPage.tsx:219-220 | The all-ones row applied to x is the sum of x. |
| `Formulacao.SistemaSignificado` | src/pages/CalculadoraPage.tsx:218-236 | x solves the system exactly when its masses sum to P, each targeted nutrient mass equals target/100·P, and every padding constraint sums to zero. |
| `Formulacao.MantidosSse` | src/pages/CalculadoraPage.tsx:246-262 | The kept indices are exactly those whose mass is at least 0.1 in the exact pass, or above 0.1 in the fallback, in increasing order. |
| `Formulacao.SelecionarAnexo` | src/pages/CalculadoraPage.tsx:252-261 | Keeping one more index appends its line: mass rounded to one decimal, percentage of P, and cost from the unrounded mass. |
| `Formulacao.ColetarPasso` | src/pages/CalculadoraPage.tsx:246-262 | One pass of the line loop keeps the collection invariant. |
| `Formulacao.ColetarItens` | src/pages/CalculadoraPage.tsx:242-263 | The loop yields exactly the lines of the kept indices, the total cost as the sum of line costs, and the unrounded kept mass. |
| `Formulacao.ItensMantidos` | src/pages/CalculadoraPage.tsx:246-262 | Each line comes from a kept index and holds its ingredient. Its mass is at least 0.1 and within 0.05 of the clamped solution; its percentage is the unrounded mass over P. |
| `Formulacao.MassasPositivas` | src/pages/CalculadoraPage.tsx:246-262 | When any line is kept, the unrounded kept mass is at least 0.1, so the rescale factor is defined. |
| `Formulacao.Reescalar` | src/pages/CalculadoraPage.tsx:272-277 | The rescale loop produces `Reescalados` of its input. |
| `Formulacao.ReescaladosCoerentes` | src/pages/CalculadoraPage.tsx:272-277 | Every rescaled line keeps its ingredient, lies within 0.05 of mass·factor, and has a percentage and cost consistent with its new mass. |
| `Formulacao.ComporPasso` | src/pages/CalculadoraPage.tsx:286-293 | One pass of the composition loop adds that line's share of each nutrient. |
| `Formulacao.Compor` | src/pages/CalculadoraPage.tsx:284-299 | The composition equals `calcularComposicao`'s rounded mean over the lines with the given divisor, and the mass sum is the lines' total. |
| `Formulacao.Arredondada` | src/pages/CalculadoraPage.tsx:296-299 | Rounding the accumulated composition field by field gives the rounded mean. |
| `Formulacao.PrecisaMelhorar` | src/pages/CalculadoraPage.tsx:301-308 | The flag is set exactly when some targeted nutrient differs from its target by more than the tolerance. |
| `Formulacao.CaminhoExato` | src/pages/CalculadoraPage.tsx:241-319 | The exact path, from an accepted solution, returns `ResultadoExato`. |
| `Formulacao.ExatoAceito` | src/pages/CalculadoraPage.tsx:241-319 | An exact result is a success with the linear-system message and at least one line. Its mass is positive and within 0.1 of P. Its cost is the sum of line costs. It meets the 0.5 tolerance unless only one nutrient is targeted. Its composition is the rounded mean of its lines. When the kept entries' unrounded total is more than 0.1 from P, the lines are the kept lines rescaled by P / total and the reported mass is exactly P. Otherwise the lines are the kept lines and the reported mass is their total. Conversely, a result exists exactly when some entry is kept and either one nutrient is targeted or that composition is within 0.5. |
| `Refinador.AjusteLimites` | src/pages/CalculadoraPage.tsx:398 | A draw in [0, 1) gives an adjustment in [−0.05·P, 0.05·P). |
| `Refinador.Somar` | src/pages/CalculadoraPage.tsx:365-367 | The loop returns the sum of the current masses. |
| `Refinador.Escalar` | src/pages/CalculadoraPage.tsx:383-386 | Every mass is multiplied by the factor, in place. |
| `Refinador.Perturbar` | src/pages/CalculadoraPage.tsx:394-401 | Every mass becomes max(0, mass + adjustment), in place. |
| `Refinador.Refinar` | src/pages/CalculadoraPage.tsx:352-402 | The 1000 iterations starting from P/n per ingredient produce `Refinado`. |
| `Refinador.SomaNulaSse` | src/pages/CalculadoraPage.tsx:383-386 | A non-negative vector sums to zero exactly when every entry is zero. |
| `Refinador.NormalizadaPropriedades` | src/pages/CalculadoraPage.tsx:383-388 | Normalising non-negative masses breaks down (a division by zero) exactly when all are zero and P > 0.01. Otherwise the masses stay non-negative and sum to within 0.01 of P. |
| `Refinador.IteracaoNaoNegativa` | src/pages/CalculadoraPage.tsx:383-401 | An iteration keeps the masses non-negative. |
| `Refinador.RefinadoNaoNegativo` | src/pages/CalculadoraPage.tsx:352-402 | Every intermediate allocation is non-negative. |
| `Refinador.RefinadoFinal` | src/pages/CalculadoraPage.tsx:352-402 | The final allocation, when defined, is non-negative and sums to within 0.01 of P, because the last iteration normalises and does not perturb. |
| `Refinador.EnvenenamentoSse` | src/pages/CalculadoraPage.tsx:383-388 | The refiner breaks down at an iteration exactly when the previous allocation was all zero and P > 0.01. |
| `Orquestrador.Fornecedores` | src/pages/CalculadoraPage.tsx:331-336 | The ingredients kept for a nutrient are exactly those with a positive percentage of it; the list is empty exactly when no ingredient supplies it. |
| `Orquestrador.PrimeiroSemFonte` | src/pages/CalculadoraPage.tsx:338-349 | None exactly when every target has a source; otherwise it gives the first target, in list order, that has none. |
| `Orquestrador.VerificarFontes` | src/pages/CalculadoraPage.tsx:338-349 | The loop finds `PrimeiroSemFonte`. |
| `Orquestrador.CaminhoIterativo` | src/pages/CalculadoraPage.tsx:352-471 | The fallback returns `ResultadoIterativo` of the refined allocation. |
| `Orquestrador.Concluir` | src/pages/CalculadoraPage.tsx:424-471 | Recomputing the composition and checking the 1.0 tolerance gives `Concluido`. |
| `Orquestrador.SistemaUnico` | src/pages/CalculadoraPage.tsx:215-236 | Any system built by the source's loop is the closed-form `Equacoes` / `Resultados`. |
| `Orquestrador.SistemaEspecificado` | src/pages/CalculadoraPage.tsx:215-236 | The closed-form system meets the construction's specification. |
| `Orquestrador.TodosAceitaveis` | src/pages/CalculadoraPage.tsx:241 | The loop accepts a solution exactly when every entry is at least −0.01. |
| `Orquestrador.TentarExato` | src/pages/CalculadoraPage.tsx:209-320 | The exact attempt returns `TentativaExata`: none when ineligible, unsolvable, not accepted, or not precise enough. |
| `Orquestrador.IdentificarAlvos` | src/pages/CalculadoraPage.tsx:187-193 | The five tests collect `NutrientesAlvo`. |
| `Orquestrador.CalcularFormulacaoOtimizada` | src/pages/CalculadoraPage.tsx:171-472 | The whole solver returns `FormulacaoOtimizada` for the given draws. |
| `Orquestrador.FalhasDeValidacao` | src/pages/CalculadoraPage.tsx:176-204 | "Select an ingredient" exactly when none is selected. "Define a target" exactly when ingredients exist but no target is positive. |
| `Orquestrador.FalhasVazias` | src/pages/CalculadoraPage.tsx:176-349 | Every request-level failure is unsuccessful, with no lines, zero composition, zero mass and zero cost. |
| `Orquestrador.EstaExata` | src/pages/CalculadoraPage.tsx:209-319 | An exact outcome means the system was eligible, solved and accepted. The result succeeds with at least one line, its mass is within 0.1 of P, its cost is the sum of line costs, and it meets 0.5 unless only one nutrient is targeted. Its lines are the solver's kept entries, rescaled so that the reported mass is exactly P when their total is more than 0.1 off, and unchanged otherwise. The attempt gives a result exactly when the request is eligible, the solver answers, no entry is below -0.01, and the exact path accepts that solution. |
| `Orquestrador.SucessoCaminhos` | src/pages/CalculadoraPage.tsx:209-471 | Every success is either an eligible exact result within 0.1 kg and the 0.5 tolerance (or one target), or an iterative result with a source for every target that meets the 1.0 tolerance. |
| `Orquestrador.CustoDasLinhas` | src/pages/CalculadoraPage.tsx:171-472 | Every outcome's total cost is the sum of its line costs. |
| `Orquestrador.SemFonteSignificado` | src/pages/CalculadoraPage.tsx:338-349 | A "no ingredient supplies X" failure names a targeted nutrient that no ingredient supplies; it is unsuccessful and has no lines. |
| `Orquestrador.SemFonteInevitavel` | src/pages/CalculadoraPage.tsx:325-349 | If the exact attempt fails and a targeted nutrient has no source, the outcome is a "no ingredient supplies" failure. |
| `Orquestrador.LinhasIterativas` | src/pages/CalculadoraPage.tsx:405-422 | Every fallback line is a selected ingredient with a mass of at least 0.1. |
| `Orquestrador.ConcluidoPropriedades` | src/pages/CalculadoraPage.tsx:424-471 | The fallback keeps its lines. It succeeds exactly within the 1.0 tolerance, with the iterative message, and otherwise reports insufficient precision. Each nutrient is round2(nutrient mass / requested P). The mass is the sum of the rounded lines; the cost is the sum of line costs. |
| `Orquestrador.IterativoEnvenenado` | src/pages/CalculadoraPage.tsx:383-471 | If the refiner breaks down, the result has no lines, zero composition, mass and cost, and it succeeds exactly when every target is at most 1.0. |
| `Orquestrador.ExatoResolveSistema` | src/pages/CalculadoraPage.tsx:215-239 | For an eligible system with no skipped column, the solver returns n masses that sum to P and meet every nutrient target exactly. |
| `Orquestrador.ExatoUnico` | src/pages/CalculadoraPage.tsx:215-239 | Under the same conditions, any vector meeting the mass, target and padding equations is the solver's answer. |

## Left out

- Floating point: all quantities are exact reals.
  - IEEE-754 rounding is not modelled.
  - When the refiner's masses are all zero, the factor at CalculadoraPage.tsx:385 is `Infinity`, and line 386 turns every mass into `0 * Infinity`, which is `NaN`. The model writes that case as `None`. A `NaN` mass fails the `> 0.1` test at line 411, so that allocation keeps no lines.
  - `solucao[index] || 0` and `B[j] || 0` read past the end of an array as 0. The model gives exactly that for indices past the solution, and never reads a `NaN` there.
- Randomness: `Math.random()` is a parameter, a table of 999 rows of draws with one draw per ingredient (`Refinador.Sorteios`). Draws are assumed to lie in [0, 1) only by `Refinador.AjusteLimites`; the other lemmas hold for any reals.
- Dead state of the refiner: `melhorErro`, `composicaoAtual` and `erro` (CalculadoraPage.tsx:356-392) are left out because nothing reads them after the loop. `pesoFinal` in the fallback (line 414) is left out for the same reason.
- The sort of `ingredientesPorNutriente` (CalculadoraPage.tsx:335) is left out, because only the list's emptiness is used. `Orquestrador.Fornecedores` keeps the filter.
- Message text: `Formulacao.Mensagem` is an enumeration. The "no source" and "insufficient precision" messages carry the nutrient and the N and K differences as values; `toUpperCase` and `toFixed` formatting is not modelled.
- `console.log`, React state, form parsing, persistence and the user interface are not modelled.
- Of the ingredient record (src/types/database.ts), only the identifier, N, P, K, S, Ca and cost per tonne are modelled; the solver reads nothing else. JavaScript `Number(...)` conversions are identities on these reals.
- `otimizarFormulacao`'s default `pesoTotal = 1000` is not modelled: nothing in this source calls `otimizarFormulacao`, and the model takes the total as an ordinary argument.
- `Orquestrador.CalcularFormulacaoOtimizada`: requires `pesoTotal > 0`. The page replaces a zero, empty or non-numeric total by 1000 (CalculadoraPage.tsx:159), but the mass input (lines 567-574) has no lower bound, so a negative total such as -500 does reach the solver. The model excludes negative totals, and does not describe what the source returns for them.
- `SistemaLinearCorrecao.PassoPreservaSolucoes`: requires the pivot row to be zero left of the diagonal, because the source normalises and eliminates only from the diagonal column on (CalculadoraPage.tsx:61-77). The reduction keeps this true when no column is skipped, so the preservation lemma does not cover skipped columns. `SistemaLinearCorrecao.PassoLinhaPivo`, `SistemaLinearCorrecao.PassoOutraLinha` and `SistemaLinearCorrecao.PassoEhOperacoesDeLinha` carry the same condition.
- `SistemaLinearCorrecao.ResolverQuadradoSemPulos`: proved for square systems with no skipped column only. Other outcomes are characterised by `SistemaLinearCorrecao.ResolverNuloSse`, not by solutions.
- `Orquestrador.ExatoResolveSistema`: same restriction, for the same reason.
- `Formulacao.Reescalar`: builds new line records instead of mutating the objects in place. The lines are local to the call and not shared, so the outcome is the same.

## Behaviour worth knowing

The model follows the code in each of these points.

- Eligibility of the exact path. The linear system is tried only when there are at most 5 ingredients, at most 3 targets, and targets + 1 does not exceed the ingredient count (CalculadoraPage.tsx:209-214).
  - So one ingredient with one target, or two ingredients with two targets, always goes to the iterative fallback.
- Mass of an exact result.
  - When the kept entries' unrounded total is within 0.1 of the requested mass, that total is reported, and the line masses are rounded to one decimal (`Formulacao.ExatoAceito`).
  - When it is further off, every line is rescaled and rounded again, and the requested mass is reported exactly.
- The fallback.
  - It divides the composition by the requested total (line 430), not by the mass actually kept.
  - It keeps the last allocation of the refiner; no "best" allocation is tracked.
  - It keeps masses strictly above 0.1, whereas the exact pass keeps masses of 0.1 or more.
  - When the refiner breaks down on an all-zero allocation, it returns an empty blend, which succeeds when every target is at most 1.0 (`Orquestrador.IterativoEnvenenado`).
- The solver returns min(rows, columns) values, and it accepts a row that is inconsistent as long as its right-hand side is within 1e-5 of zero.
