/**
  The blend orchestrator of the calculator page (calcularFormulacaoOtimizada in
  src/pages/CalculadoraPage.tsx), first half: the result record, the targeted nutrients,
  the square linear system of the exact path, the allocation lines, the achieved
  composition, the precision check and the exact path's result.
*/
module Formulacao {
  import opened Domain
  import opened Calculadora
  import opened SistemaLinear
  import opened SistemaLinearCorrecao

  /** The outcome of a request; the display text of each message is abstracted. */
  datatype Mensagem =
    | SelecioneIngrediente
    | DefinaAlvo
    | CalculadaSistemaLinear
    | SemFonte(nutriente: Nutrient)
    | PrecisaoInsuficiente(difN: real, difK: real)
    | CalculadaMetodoIterativo

  /** The page's result record (ResultadoCalculo). */
  datatype ResultadoCalculo = ResultadoCalculo(
    sucesso: bool,
    mensagem: Mensagem,
    itens: seq<ItemResultado>,
    composicaoObtida: Composicao,
    pesoTotal: real,
    custoTotal: real)

  /** A request-level failure: no lines, an all-zero composition, zero mass and cost. */
  function Falha(m: Mensagem): ResultadoCalculo {
    ResultadoCalculo(false, m, [], ZeroComposicao, 0.0, 0.0)
  }

  // ---------------------------------------------------------------------------
  // Targeted nutrients and the eligibility gate
  // ---------------------------------------------------------------------------

  /** A nutrient's place in the fixed visiting order n, p, k, s, ca. */
  function Ordem(nu: Nutrient): nat {
    match nu
    case N => 0
    case P => 1
    case K => 2
    case S => 3
    case Ca => 4
  }

  /** The nutrients whose target is positive, in the order n, p, k, s, ca. */
  function NutrientesAlvo(alvo: Composicao): seq<Nutrient> {
    (if alvo.n > 0.0 then [N] else [])
    + (if alvo.p > 0.0 then [P] else [])
    + (if alvo.k > 0.0 then [K] else [])
    + (if alvo.s > 0.0 then [S] else [])
    + (if alvo.ca > 0.0 then [Ca] else [])
  }

  /** A nutrient is targeted exactly when its target is positive; the targets are listed
      once each, in the order n, p, k, s, ca. */
  lemma {:induction false} NutrientesAlvoSse(alvo: Composicao)
    ensures forall nu :: nu in NutrientesAlvo(alvo) <==> alvo.Get(nu) > 0.0
    ensures forall i, j :: 0 <= i < j < |NutrientesAlvo(alvo)| ==>
      Ordem(NutrientesAlvo(alvo)[i]) < Ordem(NutrientesAlvo(alvo)[j])
  {
  }

  /** The exact path is tried for at most five ingredients and three targets, and only
      when the mass equation plus one equation per target fit in one row per ingredient. */
  predicate Elegivel(numIngredientes: nat, numAlvos: nat) {
    numIngredientes <= 5 && numAlvos <= 3 && numAlvos + 1 <= numIngredientes
  }

  // ---------------------------------------------------------------------------
  // The linear system of the exact path
  // ---------------------------------------------------------------------------

  /** A row of ones: the mass equation. */
  function Uns(n: nat): (u: seq<real>)
    ensures |u| == n
  {
    seq(n, _ => 1.0)
  }

  /** Each ingredient's percentage of `nu` as a fraction: a nutrient equation. */
  function Coeficientes(ingr: seq<Ingrediente>, nu: Nutrient): (c: seq<real>)
    ensures |c| == |ingr|
  {
    seq(|ingr|, i requires 0 <= i < |ingr| => ingr[i].Fraction(nu) / 100.0)
  }

  /** The padding equation added as row r: 0 for the first r ingredients, 1 after. */
  function Preenchimento(n: nat, r: nat): (u: seq<real>)
    ensures |u| == n
  {
    seq(n, idx => if idx < r then 0.0 else 1.0)
  }

  /** The system the exact path solves: one row per ingredient; row 0 is the mass
      equation with right-hand side pesoTotal; row t + 1 is the equation of the t-th
      targeted nutrient with right-hand side target / 100 * pesoTotal; every later row r
      is a padding equation with right-hand side 0. */
  predicate SistemaMontado(ingr: seq<Ingrediente>, alvo: Composicao, alvos: seq<Nutrient>, pesoTotal: real,
                           equacoes: Matriz, resultados: seq<real>)
  {
    && |alvos| < |ingr|
    && |equacoes| == |ingr| && |resultados| == |ingr|
    && equacoes[0] == Uns(|ingr|) && resultados[0] == pesoTotal
    && (forall t :: 0 <= t < |alvos| ==>
          equacoes[t + 1] == Coeficientes(ingr, alvos[t])
          && resultados[t + 1] == alvo.Get(alvos[t]) / 100.0 * pesoTotal)
    && (forall r :: |alvos| < r < |ingr| ==> equacoes[r] == Preenchimento(|ingr|, r) && resultados[r] == 0.0)
  }

  /** Builds the system row by row: the mass equation, one equation per target, then
      padding equations until the system is square. */
  method MontarSistema(ingr: seq<Ingrediente>, alvo: Composicao, alvos: seq<Nutrient>, pesoTotal: real)
    returns (equacoes: Matriz, resultados: seq<real>)
    requires |alvos| < |ingr|
    ensures SistemaMontado(ingr, alvo, alvos, pesoTotal, equacoes, resultados)
  {
    var n := |ingr|;
    equacoes := [Uns(n)];
    resultados := [pesoTotal];
    for t := 0 to |alvos|
      invariant |equacoes| == t + 1 && |resultados| == t + 1
      invariant equacoes[0] == Uns(n) && resultados[0] == pesoTotal
      invariant forall u :: 0 <= u < t ==>
        equacoes[u + 1] == Coeficientes(ingr, alvos[u])
        && resultados[u + 1] == alvo.Get(alvos[u]) / 100.0 * pesoTotal
    {
      var nu := alvos[t];
      equacoes := equacoes + [Coeficientes(ingr, nu)];
      resultados := resultados + [alvo.Get(nu) / 100.0 * pesoTotal];
    }
    while |equacoes| < n
      invariant |alvos| + 1 <= |equacoes| <= n && |resultados| == |equacoes|
      invariant equacoes[0] == Uns(n) && resultados[0] == pesoTotal
      invariant forall u :: 0 <= u < |alvos| ==>
        equacoes[u + 1] == Coeficientes(ingr, alvos[u])
        && resultados[u + 1] == alvo.Get(alvos[u]) / 100.0 * pesoTotal
      invariant forall r :: |alvos| < r < |equacoes| ==> equacoes[r] == Preenchimento(n, r) && resultados[r] == 0.0
      decreases n - |equacoes|
    {
      var eq := Preenchimento(n, |equacoes|);
      equacoes := equacoes + [eq];
      resultados := resultados + [0.0];
    }
  }

  /** The built system is square and fit for the solver. */
  lemma {:induction false} SistemaQuadrado(ingr: seq<Ingrediente>, alvo: Composicao, alvos: seq<Nutrient>, pesoTotal: real,
                                           equacoes: Matriz, resultados: seq<real>)
    requires SistemaMontado(ingr, alvo, alvos, pesoTotal, equacoes, resultados)
    ensures Entrada(equacoes, resultados) && |equacoes[0]| == |equacoes| == |ingr|
    ensures Retangular(equacoes, |ingr|)
  {
    forall r | 0 <= r < |equacoes| ensures |equacoes[r]| == |ingr| {
      if r == 0 {
      } else if r <= |alvos| {
        assert equacoes[(r - 1) + 1] == Coeficientes(ingr, alvos[r - 1]);
      } else {
        assert equacoes[r] == Preenchimento(|ingr|, r);
      }
    }
  }

  /** The mass equation's left-hand side is the total mass. */
  lemma {:induction false} ProdutoUns(x: seq<real>, k: nat)
    requires k <= |x|
    ensures Produto(Uns(|x|), x, k) == Sum(x[..k])
    decreases k
  {
    if k > 0 {
      ProdutoUns(x, k - 1);
      assert x[..k][..k - 1] == x[..k - 1];
    }
  }

  /** A mass vector solves the built system exactly when its total is pesoTotal, the mass
      of every targeted nutrient is target / 100 * pesoTotal, and every padding row sums
      to zero. */
  lemma {:induction false} SistemaSignificado(ingr: seq<Ingrediente>, alvo: Composicao, alvos: seq<Nutrient>, pesoTotal: real,
                                              equacoes: Matriz, resultados: seq<real>, x: seq<real>)
    requires SistemaMontado(ingr, alvo, alvos, pesoTotal, equacoes, resultados) && |x| == |ingr|
    ensures Retangular(equacoes, |ingr|)
    ensures Solucao(Estado(equacoes, resultados), |ingr|, x) <==>
      && Sum(x) == pesoTotal
      && (forall t :: 0 <= t < |alvos| ==>
            Produto(Coeficientes(ingr, alvos[t]), x, |ingr|) == alvo.Get(alvos[t]) / 100.0 * pesoTotal)
      && (forall r :: |alvos| < r < |ingr| ==> Produto(Preenchimento(|ingr|, r), x, |ingr|) == 0.0)
  {
    var n := |ingr|;
    var e := Estado(equacoes, resultados);
    SistemaQuadrado(ingr, alvo, alvos, pesoTotal, equacoes, resultados);
    ProdutoUns(x, n);
    assert x[..n] == x;
    if Solucao(e, n, x) {
      assert Produto(equacoes[0], x, n) == resultados[0];
      forall t | 0 <= t < |alvos|
        ensures Produto(Coeficientes(ingr, alvos[t]), x, n) == alvo.Get(alvos[t]) / 100.0 * pesoTotal
      {
        assert Produto(equacoes[t + 1], x, n) == resultados[t + 1];
      }
      forall r | |alvos| < r < n ensures Produto(Preenchimento(n, r), x, n) == 0.0 {
        assert Produto(equacoes[r], x, n) == resultados[r];
      }
    }
    if && Sum(x) == pesoTotal
       && (forall t :: 0 <= t < |alvos| ==>
             Produto(Coeficientes(ingr, alvos[t]), x, n) == alvo.Get(alvos[t]) / 100.0 * pesoTotal)
       && (forall r :: |alvos| < r < n ==> Produto(Preenchimento(n, r), x, n) == 0.0)
    {
      forall r | 0 <= r < n ensures Produto(equacoes[r], x, n) == resultados[r] {
        if r == 0 {
        } else if r <= |alvos| {
          assert equacoes[(r - 1) + 1] == Coeficientes(ingr, alvos[r - 1]);
        } else {
          assert equacoes[r] == Preenchimento(n, r);
        }
      }
    }
  }

  // ---------------------------------------------------------------------------
  // Allocation lines
  // ---------------------------------------------------------------------------

  /** The line for an ingredient given mass `qtd`: the mass rounded to one decimal, its
      share of pesoTotal in percent and its cost at the unrounded mass. */
  function Item(ing: Ingrediente, qtd: real, pesoTotal: real): ItemResultado
    requires pesoTotal != 0.0
  {
    ItemResultado(ing, Round1(qtd), qtd / pesoTotal * 100.0, ing.CustoPorKg() * qtd)
  }

  /** Whether an entry of a mass vector yields a line. The exact path snaps masses below
      0.1 to zero and keeps positive ones, so it keeps masses of at least 0.1; the
      iterative path keeps masses above 0.1. Negative entries count as 0 in both. */
  predicate Mantida(x: real, exato: bool) {
    if exato then Max(0.0, x) >= 0.1 else Max(0.0, x) > 0.1
  }

  /** The positions among the first k entries of `xs` that yield a line, in order. */
  function Mantidos(xs: seq<real>, exato: bool, k: nat): (idx: seq<nat>)
    requires k <= |xs|
    ensures forall j :: 0 <= j < |idx| ==> idx[j] < k
    decreases k
  {
    if k == 0 then []
    else Mantidos(xs, exato, k - 1) + (if Mantida(xs[k - 1], exato) then [k - 1] else [])
  }

  /** The kept positions are exactly those whose entry passes the test, in increasing
      order. */
  lemma {:induction false} MantidosSse(xs: seq<real>, exato: bool, k: nat)
    requires k <= |xs|
    ensures forall i :: 0 <= i < k ==> (i in Mantidos(xs, exato, k) <==> Mantida(xs[i], exato))
    ensures forall j1, j2 :: 0 <= j1 < j2 < |Mantidos(xs, exato, k)| ==>
      Mantidos(xs, exato, k)[j1] < Mantidos(xs, exato, k)[j2]
    decreases k
  {
    if k > 0 {
      MantidosSse(xs, exato, k - 1);
    }
  }

  /** Every position in `idx` is below n. */
  predicate IndicesAbaixo(idx: seq<nat>, n: nat) {
    forall j :: 0 <= j < |idx| ==> idx[j] < n
  }

  /** The lines for the kept positions `idx`. */
  function Selecionar(ingr: seq<Ingrediente>, xs: seq<real>, pesoTotal: real, idx: seq<nat>): (itens: seq<ItemResultado>)
    requires pesoTotal != 0.0 && |xs| == |ingr| && IndicesAbaixo(idx, |xs|)
    ensures |itens| == |idx|
  {
    seq(|idx|, j requires 0 <= j < |idx| => Item(ingr[idx[j]], Max(0.0, xs[idx[j]]), pesoTotal))
  }

  /** The unrounded masses of the kept positions. */
  function Massas(xs: seq<real>, idx: seq<nat>): (ms: seq<real>)
    requires IndicesAbaixo(idx, |xs|)
    ensures |ms| == |idx|
  {
    seq(|idx|, j requires 0 <= j < |idx| => Max(0.0, xs[idx[j]]))
  }

  /** The costs of a list of lines. */
  function Custos(itens: seq<ItemResultado>): (cs: seq<real>)
    ensures |cs| == |itens|
  {
    seq(|itens|, j requires 0 <= j < |itens| => itens[j].custoTotal)
  }

  lemma {:induction false} SumLast(s: seq<real>, v: real)
    ensures Sum(s + [v]) == Sum(s) + v
  {
    assert (s + [v])[..|s|] == s;
  }

  lemma {:induction false} SelecionarAnexo(ingr: seq<Ingrediente>, xs: seq<real>, pesoTotal: real, idx: seq<nat>, i: nat)
    requires pesoTotal != 0.0 && |xs| == |ingr| && IndicesAbaixo(idx, |xs|) && i < |xs|
    ensures IndicesAbaixo(idx + [i], |xs|)
    ensures Selecionar(ingr, xs, pesoTotal, idx + [i])
         == Selecionar(ingr, xs, pesoTotal, idx) + [Item(ingr[i], Max(0.0, xs[i]), pesoTotal)]
    ensures Massas(xs, idx + [i]) == Massas(xs, idx) + [Max(0.0, xs[i])]
  {
    assert IndicesAbaixo(idx + [i], |xs|);
  }

  /** The state of the forEach after the first i positions: the lines of the kept
      positions, the sum of their costs and the sum of their unrounded masses. */
  predicate Coletado(ingr: seq<Ingrediente>, xs: seq<real>, pesoTotal: real, exato: bool, i: nat,
                     itens: seq<ItemResultado>, custoTotal: real, peso: real)
    requires pesoTotal != 0.0 && |xs| == |ingr| && i <= |xs|
  {
    && IndicesAbaixo(Mantidos(xs, exato, i), |xs|)
    && itens == Selecionar(ingr, xs, pesoTotal, Mantidos(xs, exato, i))
    && custoTotal == Sum(Custos(itens))
    && peso == Sum(Massas(xs, Mantidos(xs, exato, i)))
  }

  /** One position of the forEach: a kept position appends its line, cost and mass;
      any other position changes nothing. */
  lemma {:induction false} ColetarPasso(ingr: seq<Ingrediente>, xs: seq<real>, pesoTotal: real, exato: bool, i: nat,
                                        itens: seq<ItemResultado>, custoTotal: real, peso: real)
    requires pesoTotal != 0.0 && |xs| == |ingr| && i < |xs|
    requires Coletado(ingr, xs, pesoTotal, exato, i, itens, custoTotal, peso)
    ensures !Mantida(xs[i], exato) ==> Coletado(ingr, xs, pesoTotal, exato, i + 1, itens, custoTotal, peso)
    ensures Mantida(xs[i], exato) ==>
      var it := Item(ingr[i], Max(0.0, xs[i]), pesoTotal);
      Coletado(ingr, xs, pesoTotal, exato, i + 1, itens + [it], custoTotal + it.custoTotal, peso + Max(0.0, xs[i]))
  {
    var idx := Mantidos(xs, exato, i);
    if Mantida(xs[i], exato) {
      var it := Item(ingr[i], Max(0.0, xs[i]), pesoTotal);
      SelecionarAnexo(ingr, xs, pesoTotal, idx, i);
      assert Custos(itens + [it]) == Custos(itens) + [it.custoTotal];
      SumLast(Custos(itens), it.custoTotal);
      SumLast(Massas(xs, idx), Max(0.0, xs[i]));
    } else {
      assert Mantidos(xs, exato, i + 1) == idx + [];
      assert idx + [] == idx;
    }
  }

  /** The forEach that turns a mass vector into lines (exact path, or iterative path),
      summing the unrounded costs and masses of the kept lines. */
  method ColetarItens(ingr: seq<Ingrediente>, xs: seq<real>, pesoTotal: real, exato: bool)
    returns (itens: seq<ItemResultado>, custoTotal: real, peso: real)
    requires pesoTotal != 0.0 && |xs| == |ingr|
    ensures IndicesAbaixo(Mantidos(xs, exato, |xs|), |xs|)
    ensures itens == Selecionar(ingr, xs, pesoTotal, Mantidos(xs, exato, |xs|))
    ensures custoTotal == Sum(Custos(itens))
    ensures peso == Sum(Massas(xs, Mantidos(xs, exato, |xs|)))
  {
    itens, custoTotal, peso := [], 0.0, 0.0;
    for i := 0 to |ingr|
      invariant Coletado(ingr, xs, pesoTotal, exato, i, itens, custoTotal, peso)
    {
      ColetarPasso(ingr, xs, pesoTotal, exato, i, itens, custoTotal, peso);
      var qtd := Max(0.0, xs[i]);
      if exato && qtd < 0.1 {
        qtd := 0.0;
      }
      if (exato && qtd > 0.0) || (!exato && qtd > 0.1) {
        assert Mantida(xs[i], exato) && qtd == Max(0.0, xs[i]);
        var item := Item(ingr[i], qtd, pesoTotal);
        custoTotal := custoTotal + item.custoTotal;
        peso := peso + qtd;
        itens := itens + [item];
      }
    }
  }

  /** Every line holds the ingredient at a kept position, its mass rounded to one
      decimal (at least 0.1 and within 0.05 of the mass) and its share of pesoTotal. */
  lemma {:induction false} ItensMantidos(ingr: seq<Ingrediente>, xs: seq<real>, pesoTotal: real, exato: bool)
    requires pesoTotal != 0.0 && |xs| == |ingr|
    ensures IndicesAbaixo(Mantidos(xs, exato, |xs|), |xs|)
    ensures forall j :: 0 <= j < |Mantidos(xs, exato, |xs|)| ==>
      && Mantida(xs[Mantidos(xs, exato, |xs|)[j]], exato)
      && Selecionar(ingr, xs, pesoTotal, Mantidos(xs, exato, |xs|))[j].ingrediente == ingr[Mantidos(xs, exato, |xs|)[j]]
      && Selecionar(ingr, xs, pesoTotal, Mantidos(xs, exato, |xs|))[j].quantidadeKg >= 0.1
      && Abs(Selecionar(ingr, xs, pesoTotal, Mantidos(xs, exato, |xs|))[j].quantidadeKg
             - Max(0.0, xs[Mantidos(xs, exato, |xs|)[j]])) <= 0.05
      && Selecionar(ingr, xs, pesoTotal, Mantidos(xs, exato, |xs|))[j].porcentagem
         == Max(0.0, xs[Mantidos(xs, exato, |xs|)[j]]) / pesoTotal * 100.0
  {
    var idx := Mantidos(xs, exato, |xs|);
    MantidosSse(xs, exato, |xs|);
    forall j | 0 <= j < |idx| ensures Mantida(xs[idx[j]], exato) {
      assert idx[j] in idx;
    }
  }

  /** Each kept mass is at least 0.1, so a non-empty selection has a positive total. */
  lemma {:induction false} MassasPositivas(xs: seq<real>, exato: bool)
    ensures IndicesAbaixo(Mantidos(xs, exato, |xs|), |xs|)
    ensures |Mantidos(xs, exato, |xs|)| > 0 ==> Sum(Massas(xs, Mantidos(xs, exato, |xs|))) >= 0.1
  {
    var idx := Mantidos(xs, exato, |xs|);
    var ms := Massas(xs, idx);
    MantidosSse(xs, exato, |xs|);
    if |idx| > 0 {
      forall j | 0 <= j < |ms| ensures ms[j] >= 0.0 {
        assert idx[j] in idx;
      }
      assert idx[|idx| - 1] in idx;
      SumNonNegative(ms[..|ms| - 1]);
    }
  }

  // ---------------------------------------------------------------------------
  // Rescaling (exact path)
  // ---------------------------------------------------------------------------

  /** A mass times a factor, rounded to one decimal. */
  function Arredondar1(q: real, fator: real): real {
    Round1(q * fator)
  }

  /** A line after rescaling by `fator`: its rounded mass times the factor, rounded to
      one decimal, with share and cost recomputed from that mass. */
  function Reescalado(it: ItemResultado, fator: real, pesoTotal: real): ItemResultado
    requires pesoTotal != 0.0
  {
    var q := Arredondar1(it.quantidadeKg, fator);
    ItemResultado(it.ingrediente, q, q / pesoTotal * 100.0, it.ingrediente.CustoPorKg() * q)
  }

  function Reescalados(itens: seq<ItemResultado>, fator: real, pesoTotal: real): (r: seq<ItemResultado>)
    requires pesoTotal != 0.0
    ensures |r| == |itens|
  {
    seq(|itens|, j requires 0 <= j < |itens| => Reescalado(itens[j], fator, pesoTotal))
  }

  /** The forEach that rescales every line in place. */
  method Reescalar(itens: seq<ItemResultado>, fator: real, pesoTotal: real) returns (novos: seq<ItemResultado>)
    requires pesoTotal != 0.0
    ensures novos == Reescalados(itens, fator, pesoTotal)
  {
    novos := itens;
    for j := 0 to |novos|
      invariant |novos| == |itens|
      invariant forall u :: 0 <= u < j ==> novos[u] == Reescalado(itens[u], fator, pesoTotal)
      invariant forall u :: j <= u < |novos| ==> novos[u] == itens[u]
    {
      var item := novos[j];
      assert item == itens[j];
      var q := Arredondar1(item.quantidadeKg, fator);
      var custo := item.ingrediente.CustoPorKg() * q;
      var pct := q / pesoTotal * 100.0;
      assert Reescalado(item, fator, pesoTotal) == ItemResultado(item.ingrediente, q, pct, custo);
      novos := novos[j := ItemResultado(item.ingrediente, q, pct, custo)];
    }
  }

  /** Rescaling keeps each line's ingredient, moves its mass to within 0.05 of the scaled
      mass, and leaves every line's share and cost consistent with its new mass. */
  lemma {:induction false} ReescaladosCoerentes(itens: seq<ItemResultado>, fator: real, pesoTotal: real)
    requires pesoTotal != 0.0
    ensures forall j :: 0 <= j < |itens| ==>
      var r := Reescalados(itens, fator, pesoTotal)[j];
      && r.ingrediente == itens[j].ingrediente
      && Abs(r.quantidadeKg - itens[j].quantidadeKg * fator) <= 0.05
      && r.porcentagem == r.quantidadeKg / pesoTotal * 100.0
      && r.custoTotal == r.ingrediente.CustoPorKg() * r.quantidadeKg
  {
  }

  // ---------------------------------------------------------------------------
  // Achieved composition and precision check
  // ---------------------------------------------------------------------------

  /** The lines as ingredient-mass pairs, at their rounded masses. */
  function Selecao(itens: seq<ItemResultado>): (sel: seq<IngredienteSelecionado>)
    ensures |sel| == |itens|
  {
    seq(|itens|, j requires 0 <= j < |itens| => IngredienteSelecionado(itens[j].ingrediente, itens[j].quantidadeKg))
  }

  lemma {:induction false} ParcelasPrefixo(sel: seq<IngredienteSelecionado>, nu: Nutrient, divisor: real, j: nat)
    requires divisor != 0.0 && j < |sel|
    ensures Sum(Parcelas(sel[..j + 1], nu, divisor))
         == Sum(Parcelas(sel[..j], nu, divisor)) + sel[j].ingrediente.Fraction(nu) * (sel[j].quantidadeKg / divisor)
  {
    var longo := Parcelas(sel[..j + 1], nu, divisor);
    var curto := Parcelas(sel[..j], nu, divisor);
    forall k | 0 <= k < j ensures longo[k] == curto[k] {
      assert sel[..j + 1][k] == sel[..j][k];
    }
    assert longo[..j] == curto;
  }

  lemma {:induction false} QuantidadesPrefixo(sel: seq<IngredienteSelecionado>, j: nat)
    requires j < |sel|
    ensures Sum(Quantidades(sel[..j + 1])) == Sum(Quantidades(sel[..j])) + sel[j].quantidadeKg
  {
    var longo := Quantidades(sel[..j + 1]);
    var curto := Quantidades(sel[..j]);
    forall k | 0 <= k < j ensures longo[k] == curto[k] {
      assert sel[..j + 1][k] == sel[..j][k];
    }
    assert longo[..j] == curto;
  }

  /** `acc` holds, for every nutrient, the accumulation over the first j lines. */
  predicate Acumulou(acc: Composicao, sel: seq<IngredienteSelecionado>, divisor: real, j: nat)
    requires divisor != 0.0 && j <= |sel|
  {
    forall nu :: acc.Get(nu) == Sum(Parcelas(sel[..j], nu, divisor))
  }

  /** Adds each nutrient's percentage times `fator` to `acc`. */
  function Somado(acc: Composicao, ing: Ingrediente, fator: real): (r: Composicao)
    ensures forall nu :: r.Get(nu) == acc.Get(nu) + ing.Fraction(nu) * fator
  {
    PerNutrient(acc.n + ing.n * fator, acc.p + ing.p * fator, acc.k + ing.k * fator,
                acc.s + ing.s * fator, acc.ca + ing.ca * fator)
  }

  lemma {:induction false} ComporPasso(acc: Composicao, sel: seq<IngredienteSelecionado>, divisor: real, j: nat)
    requires divisor != 0.0 && j < |sel| && Acumulou(acc, sel, divisor, j)
    ensures Acumulou(Somado(acc, sel[j].ingrediente, sel[j].quantidadeKg / divisor), sel, divisor, j + 1)
  {
    var r := Somado(acc, sel[j].ingrediente, sel[j].quantidadeKg / divisor);
    forall nu ensures r.Get(nu) == Sum(Parcelas(sel[..j + 1], nu, divisor)) {
      ParcelasPrefixo(sel, nu, divisor, j);
    }
  }

  /** The forEach that accumulates each nutrient's percentage times mass over `divisor`
      and the total rounded mass, then rounds the composition to two decimals. */
  method Compor(itens: seq<ItemResultado>, divisor: real) returns (comp: Composicao, somaKg: real)
    requires divisor != 0.0
    ensures comp == ComposicaoArredondada(Selecao(itens), divisor)
    ensures somaKg == Sum(Quantidades(Selecao(itens)))
  {
    ghost var sel := Selecao(itens);
    var acc := ZeroComposicao;
    somaKg := 0.0;
    for j := 0 to |itens|
      invariant Acumulou(acc, sel, divisor, j)
      invariant somaKg == Sum(Quantidades(sel[..j]))
    {
      var ing := itens[j].ingrediente;
      var fator := itens[j].quantidadeKg / divisor;
      ComporPasso(acc, sel, divisor, j);
      QuantidadesPrefixo(sel, j);
      acc := Somado(acc, ing, fator);
      somaKg := somaKg + itens[j].quantidadeKg;
    }
    assert sel[..|itens|] == sel;
    comp := PerNutrient(Round2(acc.n), Round2(acc.p), Round2(acc.k), Round2(acc.s), Round2(acc.ca));
    Arredondada(acc, sel, divisor, comp);
  }

  lemma {:induction false} Arredondada(acc: Composicao, sel: seq<IngredienteSelecionado>, divisor: real, comp: Composicao)
    requires divisor != 0.0 && Acumulou(acc, sel, divisor, |sel|)
    requires comp == PerNutrient(Round2(acc.n), Round2(acc.p), Round2(acc.k), Round2(acc.s), Round2(acc.ca))
    ensures comp == ComposicaoArredondada(sel, divisor)
  {
    assert sel[..|sel|] == sel;
    assert acc.Get(N) == Acumulado(sel, N, divisor);
    assert acc.Get(P) == Acumulado(sel, P, divisor);
    assert acc.Get(K) == Acumulado(sel, K, divisor);
    assert acc.Get(S) == Acumulado(sel, S, divisor);
    assert acc.Get(Ca) == Acumulado(sel, Ca, divisor);
  }

  /** Every targeted nutrient is within `tol` points of its target. */
  predicate DentroDaTolerancia(comp: Composicao, alvo: Composicao, alvos: seq<Nutrient>, tol: real) {
    forall t :: 0 <= t < |alvos| ==> Abs(comp.Get(alvos[t]) - alvo.Get(alvos[t])) <= tol
  }

  /** The loop that raises precisaMelhorar when some targeted nutrient is off by more
      than `tol` points. */
  method PrecisaMelhorar(comp: Composicao, alvo: Composicao, alvos: seq<Nutrient>, tol: real) returns (precisa: bool)
    ensures precisa <==> exists t :: 0 <= t < |alvos| && Abs(comp.Get(alvos[t]) - alvo.Get(alvos[t])) > tol
  {
    precisa := false;
    for t := 0 to |alvos|
      invariant precisa <==> exists u :: 0 <= u < t && Abs(comp.Get(alvos[u]) - alvo.Get(alvos[u])) > tol
    {
      var nu := alvos[t];
      var diff := Abs(comp.Get(nu) - alvo.Get(nu));
      if diff > tol {
        precisa := true;
      }
    }
  }

  // ---------------------------------------------------------------------------
  // The exact path's result
  // ---------------------------------------------------------------------------

  /** solucao.every(x => x >= -0.01): no entry of the solution is below -0.01. */
  predicate Aceitavel(sol: seq<real>) {
    forall i :: 0 <= i < |sol| ==> sol[i] >= -0.01
  }

  /** The indices of the exact path's kept entries: those of at least 0.1 once clamped. */
  function MantidosExatos(sol: seq<real>): (idx: seq<nat>)
    ensures IndicesAbaixo(idx, |sol|)
  {
    Mantidos(sol, true, |sol|)
  }

  /** The lines the exact path builds from a solution, before any rescale. */
  function LinhasMantidas(ingr: seq<Ingrediente>, sol: seq<real>, pesoTotal: real): (itens: seq<ItemResultado>)
    requires pesoTotal != 0.0 && |sol| == |ingr|
  {
    Selecionar(ingr, sol, pesoTotal, MantidosExatos(sol))
  }

  /** pesoVerificado before any rescale: the unrounded total of the kept entries. */
  function PesoMantido(sol: seq<real>): (w: real)
    ensures |MantidosExatos(sol)| > 0 ==> w >= 0.1
  {
    MassasPositivas(sol, true);
    Sum(Massas(sol, MantidosExatos(sol)))
  }

  /** What the exact path makes of an accepted solution: the success result, or None
      when it falls through to the iterative path (no line kept, or more than one target
      and some target off by more than 0.5 points). The kept lines are rescaled to the
      requested mass when their unrounded total differs from it by more than 0.1. */
  function ResultadoExato(ingr: seq<Ingrediente>, alvo: Composicao, alvos: seq<Nutrient>, pesoTotal: real,
                          sol: seq<real>): Option<ResultadoCalculo>
    requires pesoTotal > 0.0 && |sol| == |ingr|
  {
    var itens0 := LinhasMantidas(ingr, sol, pesoTotal);
    var peso0 := PesoMantido(sol);
    if |itens0| == 0 then None
    else
      var reescalar := Abs(pesoTotal - peso0) > 0.1;
      var itens := if reescalar then Reescalados(itens0, pesoTotal / peso0, pesoTotal) else itens0;
      var peso := if reescalar then pesoTotal else peso0;
      var comp := ComposicaoArredondada(Selecao(itens), peso);
      if DentroDaTolerancia(comp, alvo, alvos, 0.5) || |alvos| == 1 then
        Some(ResultadoCalculo(true, CalculadaSistemaLinear, itens, comp, peso, Sum(Custos(itens))))
      else None
  }

  /** The exact path from an accepted solution to its result. */
  method CaminhoExato(ingr: seq<Ingrediente>, alvo: Composicao, alvos: seq<Nutrient>, pesoTotal: real, sol: seq<real>)
    returns (r: Option<ResultadoCalculo>)
    requires pesoTotal > 0.0 && |sol| == |ingr|
    ensures r == ResultadoExato(ingr, alvo, alvos, pesoTotal, sol)
  {
    MassasPositivas(sol, true);
    var itens, custoTotal, pesoVerificado := ColetarItens(ingr, sol, pesoTotal, true);
    assert itens == LinhasMantidas(ingr, sol, pesoTotal) && pesoVerificado == PesoMantido(sol);
    if |itens| == 0 {
      return None;
    }
    var diferenca := pesoTotal - pesoVerificado;
    if Abs(diferenca) > 0.1 && |itens| > 0 {
      var fator := pesoTotal / pesoVerificado;
      itens := Reescalar(itens, fator, pesoTotal);
      pesoVerificado := pesoTotal;
      custoTotal := Sum(Custos(itens));
    }
    var comp, _ := Compor(itens, pesoVerificado);
    var precisa := PrecisaMelhorar(comp, alvo, alvos, 0.5);
    if !precisa || |alvos| == 1 {
      r := Some(ResultadoCalculo(true, CalculadaSistemaLinear, itens, comp, pesoVerificado, custoTotal));
    } else {
      r := None;
    }
  }

  /** A result of the exact path: its mass is within 0.1 of the requested mass, it has at
      least one line, its cost is the sum of its lines' costs, every target is within 0.5
      points unless only one nutrient is targeted, and each component of the composition
      is the nutrient mass over the reported mass, rounded to two decimals. When the kept
      total is more than 0.1 off, the lines are the kept lines rescaled by requested / kept
      and the reported mass is exactly the requested one; otherwise they are the kept lines
      and the kept total. Conversely, a result exists exactly when some line is kept and
      either one nutrient is targeted or the composition of those lines is within 0.5. */
  lemma {:induction false} ExatoAceito(ingr: seq<Ingrediente>, alvo: Composicao, alvos: seq<Nutrient>, pesoTotal: real,
                                       sol: seq<real>, nu: Nutrient)
    requires pesoTotal > 0.0 && |sol| == |ingr|
    ensures var r := ResultadoExato(ingr, alvo, alvos, pesoTotal, sol);
      r.Some? ==>
        && r.value.sucesso && r.value.mensagem == CalculadaSistemaLinear
        && |r.value.itens| > 0
        && Abs(r.value.pesoTotal - pesoTotal) <= 0.1
        && r.value.pesoTotal > 0.0
        && r.value.custoTotal == Sum(Custos(r.value.itens))
        && (|alvos| == 1 || DentroDaTolerancia(r.value.composicaoObtida, alvo, alvos, 0.5))
        && r.value.composicaoObtida.Get(nu)
           == Round2(Sum(MassaNutriente(Selecao(r.value.itens), nu)) / r.value.pesoTotal)
    ensures var r := ResultadoExato(ingr, alvo, alvos, pesoTotal, sol);
      r.Some? ==>
        && (Abs(pesoTotal - PesoMantido(sol)) > 0.1 ==>
              && r.value.pesoTotal == pesoTotal
              && r.value.itens == Reescalados(LinhasMantidas(ingr, sol, pesoTotal), pesoTotal / PesoMantido(sol), pesoTotal))
        && (Abs(pesoTotal - PesoMantido(sol)) <= 0.1 ==>
              && r.value.pesoTotal == PesoMantido(sol)
              && r.value.itens == LinhasMantidas(ingr, sol, pesoTotal))
    ensures var r := ResultadoExato(ingr, alvo, alvos, pesoTotal, sol);
      var itens0 := LinhasMantidas(ingr, sol, pesoTotal);
      && (|itens0| == 0 ==> r.None?)
      && (|itens0| > 0 && |alvos| == 1 ==> r.Some?)
      && (|itens0| > 0 && Abs(pesoTotal - PesoMantido(sol)) > 0.1 ==>
            (r.Some? <==> |alvos| == 1 || DentroDaTolerancia(
               ComposicaoArredondada(Selecao(Reescalados(itens0, pesoTotal / PesoMantido(sol), pesoTotal)), pesoTotal),
               alvo, alvos, 0.5)))
      && (|itens0| > 0 && Abs(pesoTotal - PesoMantido(sol)) <= 0.1 ==>
            (r.Some? <==> |alvos| == 1 || DentroDaTolerancia(
               ComposicaoArredondada(Selecao(itens0), PesoMantido(sol)), alvo, alvos, 0.5)))
  {
    var r := ResultadoExato(ingr, alvo, alvos, pesoTotal, sol);
    MassasPositivas(sol, true);
    if r.Some? {
      AcumuladoIsRatio(Selecao(r.value.itens), nu, r.value.pesoTotal);
    }
  }
}
