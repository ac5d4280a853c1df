/**
  The calculator library (src/lib/calculadora.ts): the mass-weighted composition of a
  mixture, its total cost, and the greedy cost-ordered allocator.
*/
module Calculadora {
  import opened Domain

  /** An ingredient together with the mass allotted to it. */
  datatype IngredienteSelecionado = IngredienteSelecionado(ingrediente: Ingrediente, quantidadeKg: real)

  /** A nutrient target as the library receives it: a number or null per nutrient. */
  type ComposicaoAlvo = PerNutrient<Option<real>>

  /** The library's result record: the allocation lines, the achieved composition,
      the total cost and the total mass. */
  datatype CalculoResultado = CalculoResultado(
    ingredientes: seq<ItemResultado>,
    composicaoObtida: Composicao,
    custoTotal: real,
    pesoTotal: real)

  // ---------------------------------------------------------------------------
  // Composition (calcularComposicao)
  // ---------------------------------------------------------------------------

  /** The masses of a selection, in order. */
  function Quantidades(items: seq<IngredienteSelecionado>): (qs: seq<real>)
    ensures |qs| == |items|
  {
    seq(|items|, i requires 0 <= i < |items| => items[i].quantidadeKg)
  }

  /** The mass of `nu` each line contributes: its percentage times its mass. */
  function MassaNutriente(items: seq<IngredienteSelecionado>, nu: Nutrient): (ws: seq<real>)
    ensures |ws| == |items|
  {
    seq(|items|, i requires 0 <= i < |items| => items[i].ingrediente.Fraction(nu) * items[i].quantidadeKg)
  }

  /** What the forEach of calcularComposicao adds up for one nutrient: each line's
      percentage times its mass divided by `divisor`. */
  function Acumulado(items: seq<IngredienteSelecionado>, nu: Nutrient, divisor: real): real
    requires divisor != 0.0
  {
    Sum(Parcelas(items, nu, divisor))
  }

  /** The terms of that accumulation, in order. */
  function Parcelas(items: seq<IngredienteSelecionado>, nu: Nutrient, divisor: real): (ts: seq<real>)
    requires divisor != 0.0
    ensures |ts| == |items|
  {
    seq(|items|, i requires 0 <= i < |items| =>
      items[i].ingrediente.Fraction(nu) * (items[i].quantidadeKg / divisor))
  }

  /** Every nutrient's accumulated value divided by `divisor`, rounded to two decimals. */
  function ComposicaoArredondada(items: seq<IngredienteSelecionado>, divisor: real): Composicao
    requires divisor != 0.0
  {
    PerNutrient(
      Round2(Acumulado(items, N, divisor)),
      Round2(Acumulado(items, P, divisor)),
      Round2(Acumulado(items, K, divisor)),
      Round2(Acumulado(items, S, divisor)),
      Round2(Acumulado(items, Ca, divisor)))
  }

  /** calcularComposicao: the achieved percentage of every nutrient. */
  function CalcularComposicao(items: seq<IngredienteSelecionado>): Composicao {
    var pesoTotal := Sum(Quantidades(items));
    if pesoTotal == 0.0 then ZeroComposicao else ComposicaoArredondada(items, pesoTotal)
  }

  /** The accumulation divides each term by the divisor; the result is the nutrient mass
      over the divisor. */
  lemma {:induction false} AcumuladoIsRatio(items: seq<IngredienteSelecionado>, nu: Nutrient, divisor: real)
    requires divisor != 0.0
    ensures Acumulado(items, nu, divisor) == Sum(MassaNutriente(items, nu)) / divisor
  {
    var ws := MassaNutriente(items, nu);
    ParcelasAreScaled(items, nu, divisor);
    SumScale(ws, 1.0 / divisor);
    TimesInverse(Sum(ws), divisor);
  }

  lemma {:induction false} ParcelasAreScaled(items: seq<IngredienteSelecionado>, nu: Nutrient, divisor: real)
    requires divisor != 0.0
    ensures Parcelas(items, nu, divisor) == Scale(MassaNutriente(items, nu), 1.0 / divisor)
  {
    var terms := Parcelas(items, nu, divisor);
    var ws := MassaNutriente(items, nu);
    forall i | 0 <= i < |items|
      ensures terms[i] == Scale(ws, 1.0 / divisor)[i]
    {
      MulAssocDiv(items[i].ingrediente.Fraction(nu), items[i].quantidadeKg, divisor);
    }
  }

  /** A zero total mass gives the all-zero composition; otherwise every component is the
      mass-weighted mean percentage, rounded to two decimals. */
  lemma {:induction false} ComposicaoIsRoundedMean(items: seq<IngredienteSelecionado>, nu: Nutrient)
    ensures Sum(Quantidades(items)) == 0.0 ==> CalcularComposicao(items) == ZeroComposicao
    ensures Sum(Quantidades(items)) != 0.0 ==>
      CalcularComposicao(items).Get(nu) == Round2(Sum(MassaNutriente(items, nu)) / Sum(Quantidades(items)))
  {
    var total := Sum(Quantidades(items));
    if total != 0.0 {
      AcumuladoIsRatio(items, nu, total);
    }
  }

  /** With non-negative masses, the nutrient mass lies between `lo` and `hi` times the total
      whenever every line with a positive mass has a percentage in [lo, hi]. */
  lemma {:induction false} NutrientMassBetween(items: seq<IngredienteSelecionado>, nu: Nutrient, lo: real, hi: real)
    requires forall i :: 0 <= i < |items| ==> items[i].quantidadeKg >= 0.0
    requires forall i :: 0 <= i < |items| && items[i].quantidadeKg > 0.0 ==>
      lo <= items[i].ingrediente.Fraction(nu) <= hi
    ensures Sum(Quantidades(items)) * lo <= Sum(MassaNutriente(items, nu)) <= Sum(Quantidades(items)) * hi
  {
    MassAtLeast(items, nu, lo);
    MassAtMost(items, nu, hi);
  }

  lemma {:induction false} MassAtLeast(items: seq<IngredienteSelecionado>, nu: Nutrient, lo: real)
    requires forall i :: 0 <= i < |items| ==> items[i].quantidadeKg >= 0.0
    requires forall i :: 0 <= i < |items| && items[i].quantidadeKg > 0.0 ==> lo <= items[i].ingrediente.Fraction(nu)
    ensures Sum(Quantidades(items)) * lo <= Sum(MassaNutriente(items, nu))
  {
    LinesAtLeast(items, nu, lo);
    SumAtLeastScaled(Quantidades(items), MassaNutriente(items, nu), lo);
  }

  lemma {:induction false} MassAtMost(items: seq<IngredienteSelecionado>, nu: Nutrient, hi: real)
    requires forall i :: 0 <= i < |items| ==> items[i].quantidadeKg >= 0.0
    requires forall i :: 0 <= i < |items| && items[i].quantidadeKg > 0.0 ==> items[i].ingrediente.Fraction(nu) <= hi
    ensures Sum(MassaNutriente(items, nu)) <= Sum(Quantidades(items)) * hi
  {
    LinesAtMost(items, nu, hi);
    SumAtMostScaled(Quantidades(items), MassaNutriente(items, nu), hi);
  }

  lemma {:induction false} LinesAtLeast(items: seq<IngredienteSelecionado>, nu: Nutrient, lo: real)
    requires forall i :: 0 <= i < |items| ==> items[i].quantidadeKg >= 0.0
    requires forall i :: 0 <= i < |items| && items[i].quantidadeKg > 0.0 ==> lo <= items[i].ingrediente.Fraction(nu)
    ensures AtLeastScaled(Quantidades(items), MassaNutriente(items, nu), lo)
  {
    forall i | 0 <= i < |items| ensures Quantidades(items)[i] * lo <= MassaNutriente(items, nu)[i] {
      LineAtLeast(items[i], nu, lo);
    }
  }

  lemma {:induction false} LinesAtMost(items: seq<IngredienteSelecionado>, nu: Nutrient, hi: real)
    requires forall i :: 0 <= i < |items| ==> items[i].quantidadeKg >= 0.0
    requires forall i :: 0 <= i < |items| && items[i].quantidadeKg > 0.0 ==> items[i].ingrediente.Fraction(nu) <= hi
    ensures AtMostScaled(Quantidades(items), MassaNutriente(items, nu), hi)
  {
    forall i | 0 <= i < |items| ensures MassaNutriente(items, nu)[i] <= Quantidades(items)[i] * hi {
      LineAtMost(items[i], nu, hi);
    }
  }

  lemma {:induction false} LineAtLeast(item: IngredienteSelecionado, nu: Nutrient, lo: real)
    requires item.quantidadeKg >= 0.0
    requires item.quantidadeKg > 0.0 ==> lo <= item.ingrediente.Fraction(nu)
    ensures item.quantidadeKg * lo <= item.ingrediente.Fraction(nu) * item.quantidadeKg
  {
    var f, q := item.ingrediente.Fraction(nu), item.quantidadeKg;
    ProductBelow(lo, f, q, f * q);
  }

  lemma {:induction false} LineAtMost(item: IngredienteSelecionado, nu: Nutrient, hi: real)
    requires item.quantidadeKg >= 0.0
    requires item.quantidadeKg > 0.0 ==> item.ingrediente.Fraction(nu) <= hi
    ensures item.ingrediente.Fraction(nu) * item.quantidadeKg <= item.quantidadeKg * hi
  {
    var f, q := item.ingrediente.Fraction(nu), item.quantidadeKg;
    ProductAbove(f, hi, q, f * q);
  }

  /** The unrounded weighted mean lies between the smallest and the largest percentage
      among the lines with a positive mass. */
  lemma {:induction false} MeanBetweenExtremes(items: seq<IngredienteSelecionado>, nu: Nutrient, lo: real, hi: real)
    requires forall i :: 0 <= i < |items| ==> items[i].quantidadeKg >= 0.0
    requires forall i :: 0 <= i < |items| && items[i].quantidadeKg > 0.0 ==>
      lo <= items[i].ingrediente.Fraction(nu) <= hi
    requires Sum(Quantidades(items)) > 0.0
    ensures lo <= Sum(MassaNutriente(items, nu)) / Sum(Quantidades(items)) <= hi
  {
    NutrientMassBetween(items, nu, lo, hi);
    DivBounds(lo, Sum(MassaNutriente(items, nu)), hi, Sum(Quantidades(items)));
  }

  /** Every mass multiplied by `c`. */
  function EscalarQuantidades(items: seq<IngredienteSelecionado>, c: real): (r: seq<IngredienteSelecionado>)
    ensures |r| == |items|
  {
    seq(|items|, i requires 0 <= i < |items| => items[i].(quantidadeKg := items[i].quantidadeKg * c))
  }

  lemma {:induction false} ScaledViews(items: seq<IngredienteSelecionado>, nu: Nutrient, c: real)
    ensures Quantidades(EscalarQuantidades(items, c)) == Scale(Quantidades(items), c)
    ensures MassaNutriente(EscalarQuantidades(items, c), nu) == Scale(MassaNutriente(items, nu), c)
  {
    var scaled := EscalarQuantidades(items, c);
    assert forall i :: 0 <= i < |items| ==> Quantidades(scaled)[i] == Scale(Quantidades(items), c)[i];
    forall i | 0 <= i < |items|
      ensures MassaNutriente(scaled, nu)[i] == Scale(MassaNutriente(items, nu), c)[i]
    {
      var f, q := items[i].ingrediente.Fraction(nu), items[i].quantidadeKg;
      assert f * (q * c) == (f * q) * c;
    }
  }

  lemma {:induction false} ScaledTotals(items: seq<IngredienteSelecionado>, nu: Nutrient, c: real)
    ensures Sum(Quantidades(EscalarQuantidades(items, c))) == Sum(Quantidades(items)) * c
    ensures Sum(MassaNutriente(EscalarQuantidades(items, c), nu)) == Sum(MassaNutriente(items, nu)) * c
  {
    ScaledViews(items, nu, c);
    SumScale(Quantidades(items), c);
    SumScale(MassaNutriente(items, nu), c);
  }

  /** One nutrient's mean is unchanged when every mass is scaled by `c`. */
  lemma {:induction false} AcumuladoScaleInvariant(items: seq<IngredienteSelecionado>, nu: Nutrient, c: real)
    requires c > 0.0 && Sum(Quantidades(items)) != 0.0
    ensures Sum(Quantidades(EscalarQuantidades(items, c))) != 0.0
    ensures Acumulado(EscalarQuantidades(items, c), nu, Sum(Quantidades(EscalarQuantidades(items, c))))
         == Acumulado(items, nu, Sum(Quantidades(items)))
  {
    var scaled := EscalarQuantidades(items, c);
    var t, w := Sum(Quantidades(items)), Sum(MassaNutriente(items, nu));
    ScaledTotals(items, nu, c);
    var tc, wc := Sum(Quantidades(scaled)), Sum(MassaNutriente(scaled, nu));
    CancelCommonFactor(w, t, c, wc, tc);
    AcumuladoIsRatio(scaled, nu, tc);
    AcumuladoIsRatio(items, nu, t);
  }

  /** Scaling every mass by the same positive factor leaves the composition unchanged. */
  lemma {:induction false} ComposicaoScaleInvariant(items: seq<IngredienteSelecionado>, c: real)
    requires c > 0.0
    ensures CalcularComposicao(EscalarQuantidades(items, c)) == CalcularComposicao(items)
  {
    var t := Sum(Quantidades(items));
    ScaledViews(items, N, c);
    SumScale(Quantidades(items), c);
    if t != 0.0 {
      AcumuladoScaleInvariant(items, N, c);
      AcumuladoScaleInvariant(items, P, c);
      AcumuladoScaleInvariant(items, K, c);
      AcumuladoScaleInvariant(items, S, c);
      AcumuladoScaleInvariant(items, Ca, c);
    }
  }

  // ---------------------------------------------------------------------------
  // Cost (calcularCustoTotal)
  // ---------------------------------------------------------------------------

  /** The cost of one line: cost per tonne / 1000 times the mass in kilograms. */
  function CustoLinha(item: IngredienteSelecionado): real {
    item.ingrediente.CustoPorKg() * item.quantidadeKg
  }

  /** calcularCustoTotal: the line costs accumulated from first to last. */
  function CalcularCustoTotal(items: seq<IngredienteSelecionado>): real {
    if |items| == 0 then 0.0
    else CalcularCustoTotal(items[..|items| - 1]) + CustoLinha(items[|items| - 1])
  }

  /** The total cost is additive over concatenation of selections. */
  lemma {:induction false} CustoTotalAppend(a: seq<IngredienteSelecionado>, b: seq<IngredienteSelecionado>)
    ensures CalcularCustoTotal(a + b) == CalcularCustoTotal(a) + CalcularCustoTotal(b)
    decreases |b|
  {
    if |b| == 0 {
      assert a + b == a;
    } else {
      assert (a + b)[..|a + b| - 1] == a + b[..|b| - 1];
      CustoTotalAppend(a, b[..|b| - 1]);
    }
  }

  /** The total cost equals the sum, taken from the front, of cost per tonne / 1000 times
      the mass of every line; it is 0 for an empty selection. */
  lemma {:induction false} CustoTotalIsSumOfLines(items: seq<IngredienteSelecionado>)
    ensures CalcularCustoTotal(items) ==
      if |items| == 0 then 0.0
      else items[0].ingrediente.custoPorTon / 1000.0 * items[0].quantidadeKg + CalcularCustoTotal(items[1..])
  {
    if |items| > 0 {
      assert items == [items[0]] + items[1..];
      CustoTotalAppend([items[0]], items[1..]);
      assert [items[0]][..0] == [];
    }
  }

  /** Non-negative costs and masses give a non-negative total cost. */
  lemma {:induction false} CustoTotalNonNegative(items: seq<IngredienteSelecionado>)
    requires forall i :: 0 <= i < |items| ==>
      items[i].ingrediente.custoPorTon >= 0.0 && items[i].quantidadeKg >= 0.0
    ensures CalcularCustoTotal(items) >= 0.0
    decreases |items|
  {
    if |items| > 0 {
      CustoTotalNonNegative(items[..|items| - 1]);
      var last := items[|items| - 1];
      assert last.ingrediente.CustoPorKg() >= 0.0;
      assert CustoLinha(last) >= 0.0;
    }
  }

  // ---------------------------------------------------------------------------
  // Greedy allocator (otimizarFormulacao)
  // ---------------------------------------------------------------------------

  /** A JavaScript truthiness test on a nullable number: null and 0 are false. */
  predicate Truthy(o: Option<real>) {
    o.Some? && o.value != 0.0
  }

  /** The relevance filter: some truthy target names a nutrient the ingredient contains. */
  predicate Relevante(ing: Ingrediente, alvo: ComposicaoAlvo) {
    || (Truthy(alvo.n) && ing.n > 0.0)
    || (Truthy(alvo.p) && ing.p > 0.0)
    || (Truthy(alvo.k) && ing.k > 0.0)
    || (Truthy(alvo.s) && ing.s > 0.0)
    || (Truthy(alvo.ca) && ing.ca > 0.0)
  }

  /** The relevance filter is "some nutrient is both targeted (truthy) and present". */
  lemma {:induction false} RelevanteIff(ing: Ingrediente, alvo: ComposicaoAlvo)
    ensures Relevante(ing, alvo) <==> exists nu: Nutrient :: Truthy(alvo.Get(nu)) && ing.Fraction(nu) > 0.0
  {
    if Relevante(ing, alvo) {
      if Truthy(alvo.n) && ing.n > 0.0 { assert Truthy(alvo.Get(N)) && ing.Fraction(N) > 0.0; }
      else if Truthy(alvo.p) && ing.p > 0.0 { assert Truthy(alvo.Get(P)) && ing.Fraction(P) > 0.0; }
      else if Truthy(alvo.k) && ing.k > 0.0 { assert Truthy(alvo.Get(K)) && ing.Fraction(K) > 0.0; }
      else if Truthy(alvo.s) && ing.s > 0.0 { assert Truthy(alvo.Get(S)) && ing.Fraction(S) > 0.0; }
      else { assert Truthy(alvo.Get(Ca)) && ing.Fraction(Ca) > 0.0; }
    }
  }

  /** ingredientesDisponiveis.filter(...): the relevant ingredients, in input order. */
  function Relevantes(xs: seq<Ingrediente>, alvo: ComposicaoAlvo): (r: seq<Ingrediente>)
    ensures |r| <= |xs|
    ensures forall x :: x in r <==> x in xs && Relevante(x, alvo)
  {
    if |xs| == 0 then []
    else (if Relevante(xs[0], alvo) then [xs[0]] else []) + Relevantes(xs[1..], alvo)
  }

  predicate SortedByCost(s: seq<Ingrediente>) {
    forall i, j :: 0 <= i < j < |s| ==> s[i].custoPorTon <= s[j].custoPorTon
  }

  /** The elements of `s` whose cost per tonne is `c`, in order. */
  function WithCost(s: seq<Ingrediente>, c: real): seq<Ingrediente> {
    if |s| == 0 then []
    else (if s[0].custoPorTon == c then [s[0]] else []) + WithCost(s[1..], c)
  }

  /** Places `x` before the first element that costs at least as much. */
  function InsertByCost(x: Ingrediente, s: seq<Ingrediente>): (r: seq<Ingrediente>)
    ensures multiset(r) == multiset(s) + multiset{x}
  {
    if |s| == 0 || x.custoPorTon <= s[0].custoPorTon then [x] + s
    else
      assert s == [s[0]] + s[1..];
      [s[0]] + InsertByCost(x, s[1..])
  }

  lemma {:induction false} InsertKeepsSorted(x: Ingrediente, s: seq<Ingrediente>)
    requires SortedByCost(s)
    ensures SortedByCost(InsertByCost(x, s))
    decreases |s|
  {
    if |s| > 0 && x.custoPorTon > s[0].custoPorTon {
      InsertKeepsSorted(x, s[1..]);
      var rest := InsertByCost(x, s[1..]);
      forall j | 0 <= j < |rest| ensures s[0].custoPorTon <= rest[j].custoPorTon {
        assert rest[j] in multiset(rest);
        assert rest[j] in multiset(s[1..]) + multiset{x};
        if rest[j] != x {
          assert rest[j] in s[1..];
        }
      }
    }
  }

  lemma {:induction false} WithCostCons(x: Ingrediente, s: seq<Ingrediente>, c: real)
    ensures WithCost([x] + s, c) == (if x.custoPorTon == c then [x] else []) + WithCost(s, c)
  {
    assert ([x] + s)[1..] == s;
  }

  /** Inserting `x` puts it ahead of every element of `s` that costs the same. */
  lemma {:induction false} InsertStable(x: Ingrediente, s: seq<Ingrediente>, c: real)
    ensures WithCost(InsertByCost(x, s), c) == if x.custoPorTon == c then [x] + WithCost(s, c) else WithCost(s, c)
    decreases |s|
  {
    if |s| == 0 || x.custoPorTon <= s[0].custoPorTon {
      WithCostCons(x, s, c);
    } else {
      InsertStable(x, s[1..], c);
      WithCostCons(s[0], InsertByCost(x, s[1..]), c);
      WithCostCons(s[0], s[1..], c);
      assert s == [s[0]] + s[1..];
    }
  }

  /** The comparator sort of otimizarFormulacao: ascending cost per tonne, stable on ties
      (Array.prototype.sort is stable). */
  function OrdenarPorCusto(xs: seq<Ingrediente>): (r: seq<Ingrediente>)
    ensures multiset(r) == multiset(xs)
  {
    if |xs| == 0 then []
    else
      assert xs == [xs[0]] + xs[1..];
      InsertByCost(xs[0], OrdenarPorCusto(xs[1..]))
  }

  /** The sort's result is ordered by cost, and for every cost it keeps the ingredients of
      that cost in their input order (stability). */
  lemma {:induction false} OrdenarPorCustoSortedStable(xs: seq<Ingrediente>, c: real)
    ensures SortedByCost(OrdenarPorCusto(xs))
    ensures WithCost(OrdenarPorCusto(xs), c) == WithCost(xs, c)
    decreases |xs|
  {
    if |xs| > 0 {
      OrdenarPorCustoSortedStable(xs[1..], c);
      InsertKeepsSorted(xs[0], OrdenarPorCusto(xs[1..]));
      InsertStable(xs[0], OrdenarPorCusto(xs[1..]), c);
      WithCostCons(xs[0], xs[1..], c);
      assert xs == [xs[0]] + xs[1..];
    }
  }

  function Pow(b: real, e: nat): real {
    if e == 0 then 1.0 else b * Pow(b, e - 1)
  }

  /** The mass the greedy loop hands the i-th cheapest relevant ingredient: 40% of what is
      left, which is 0.4 * 0.6^i of the total. */
  function QuinhaoGuloso(pesoTotal: real, i: nat): real {
    0.4 * Pow(0.6, i) * pesoTotal
  }

  function Quinhoes(pesoTotal: real, m: nat): (r: seq<real>)
    ensures |r| == m
  {
    seq(m, i requires 0 <= i < m => QuinhaoGuloso(pesoTotal, i))
  }

  /** What the greedy loop has left to allot after `m` passes: 0.6^m of the total. */
  function Sobra(pesoTotal: real, m: nat): real {
    pesoTotal * Pow(0.6, m)
  }

  /** Each pass splits what is left into the share handed out and what stays. */
  lemma {:induction false} LeftoverSplits(pesoTotal: real, m: nat)
    requires m > 0
    ensures Sobra(pesoTotal, m - 1) == QuinhaoGuloso(pesoTotal, m - 1) + Sobra(pesoTotal, m)
  {
    var p := Pow(0.6, m - 1);
    SplitProduct(pesoTotal, p, Sobra(pesoTotal, m - 1), QuinhaoGuloso(pesoTotal, m - 1), Sobra(pesoTotal, m));
  }

  /** The first m shares plus the 0.6^m that is left over make up the whole mass. */
  lemma {:induction false} SharesAndLeftoverMakeTotal(pesoTotal: real, m: nat)
    ensures Sum(Quinhoes(pesoTotal, m)) + Sobra(pesoTotal, m) == pesoTotal
  {
    if m > 0 {
      assert Quinhoes(pesoTotal, m)[..m - 1] == Quinhoes(pesoTotal, m - 1);
      SharesAndLeftoverMakeTotal(pesoTotal, m - 1);
      LeftoverSplits(pesoTotal, m);
    }
  }

  lemma {:induction false} PowPositive(b: real, e: nat)
    requires b > 0.0
    ensures Pow(b, e) > 0.0
  {
    if e > 0 {
      PowPositive(b, e - 1);
    }
  }

  /** The selection behind a list of result lines. */
  function Selecionados(itens: seq<ItemResultado>): (r: seq<IngredienteSelecionado>)
    ensures |r| == |itens|
  {
    seq(|itens|, i requires 0 <= i < |itens| => IngredienteSelecionado(itens[i].ingrediente, itens[i].quantidadeKg))
  }

  function Porcentagens(itens: seq<ItemResultado>): (r: seq<real>)
    ensures |r| == |itens|
  {
    seq(|itens|, i requires 0 <= i < |itens| => itens[i].porcentagem)
  }

  /** The result lines otimizarFormulacao maps its selection to: the mass, its percentage
      of `total` and its cost. */
  function Linhas(sel: seq<IngredienteSelecionado>, total: real): (r: seq<ItemResultado>)
    requires total != 0.0
    ensures |r| == |sel|
  {
    seq(|sel|, j requires 0 <= j < |sel| =>
      ItemResultado(
        sel[j].ingrediente,
        sel[j].quantidadeKg,
        sel[j].quantidadeKg / total * 100.0,
        sel[j].ingrediente.custoPorTon / 1000.0 * sel[j].quantidadeKg))
  }

  /** The lines keep the selection, each percentage is the entry's mass over `total` times
      100, and the cost of each line is that of its entry. */
  lemma {:induction false} LinhasKeepSelection(sel: seq<IngredienteSelecionado>, total: real)
    requires total != 0.0
    ensures Selecionados(Linhas(sel, total)) == sel
    ensures forall i :: 0 <= i < |sel| ==>
      && Linhas(sel, total)[i].ingrediente == sel[i].ingrediente
      && Linhas(sel, total)[i].quantidadeKg == sel[i].quantidadeKg
      && Linhas(sel, total)[i].porcentagem == sel[i].quantidadeKg / total * 100.0
      && Linhas(sel, total)[i].custoTotal == CustoLinha(sel[i])
  {
    assert forall i :: 0 <= i < |sel| ==> Selecionados(Linhas(sel, total))[i] == sel[i];
  }

  /** Percentages taken of the selection's own total mass add up to 100. */
  lemma {:induction false} LinhasPercentagesAddUp(sel: seq<IngredienteSelecionado>)
    requires Sum(Quantidades(sel)) != 0.0
    ensures Sum(Porcentagens(Linhas(sel, Sum(Quantidades(sel))))) == 100.0
  {
    var total := Sum(Quantidades(sel));
    var qs := Quantidades(sel);
    var c := 100.0 / total;
    PorcentagensAreScaled(sel, total);
    SumScale(qs, c);
    ShareOfWhole(total, c);
  }

  lemma {:induction false} PorcentagensAreScaled(sel: seq<IngredienteSelecionado>, total: real)
    requires total != 0.0
    ensures Porcentagens(Linhas(sel, total)) == Scale(Quantidades(sel), 100.0 / total)
  {
    var qs := Quantidades(sel);
    forall i | 0 <= i < |qs| ensures Porcentagens(Linhas(sel, total))[i] == Scale(qs, 100.0 / total)[i] {
      DivTimesConst(qs[i], total, 100.0);
    }
  }

  /** The shares of the greedy loop, one per ingredient of `ordem`, in order. */
  function Partilhas(ordem: seq<Ingrediente>, pesoTotal: real): (r: seq<IngredienteSelecionado>)
    ensures |r| == |ordem|
  {
    seq(|ordem|, j requires 0 <= j < |ordem| => IngredienteSelecionado(ordem[j], QuinhaoGuloso(pesoTotal, j)))
  }

  /** The allocation otimizarFormulacao makes for a positive mass: the greedy shares, with
      what is left after the last pass added to the first line. */
  function AlocacaoGulosa(ordem: seq<Ingrediente>, pesoTotal: real): (r: seq<IngredienteSelecionado>)
    ensures |r| == |ordem|
  {
    var partes := Partilhas(ordem, pesoTotal);
    if |ordem| == 0 then []
    else partes[0 := partes[0].(quantidadeKg := partes[0].quantidadeKg + Sobra(pesoTotal, |ordem|))]
  }

  /** The allocation keeps the cost order, hands the cheapest ingredient 40% of the mass plus
      the leftover 0.6^m, every later one 0.4 * 0.6^i of it, and allots the whole mass. */
  lemma {:induction false} AlocacaoGulosaFacts(ordem: seq<Ingrediente>, pesoTotal: real)
    requires |ordem| > 0
    ensures forall i :: 0 <= i < |ordem| ==> AlocacaoGulosa(ordem, pesoTotal)[i].ingrediente == ordem[i]
    ensures AlocacaoGulosa(ordem, pesoTotal)[0].quantidadeKg == QuinhaoGuloso(pesoTotal, 0) + Sobra(pesoTotal, |ordem|)
    ensures forall i :: 1 <= i < |ordem| ==> AlocacaoGulosa(ordem, pesoTotal)[i].quantidadeKg == QuinhaoGuloso(pesoTotal, i)
    ensures Sum(Quantidades(AlocacaoGulosa(ordem, pesoTotal))) == pesoTotal
  {
    var partes := Partilhas(ordem, pesoTotal);
    QuantidadesAreShares(partes, pesoTotal);
    GreedyMassesAddUp(partes, pesoTotal, Sobra(pesoTotal, |ordem|));
  }

  /** One pass of the greedy loop: 40% of what is left goes out, 60% stays, and what stays
      is still positive. */
  lemma {:induction false} GreedyStep(pesoTotal: real, i: nat, restante: real)
    requires pesoTotal > 0.0 && restante == Sobra(pesoTotal, i)
    ensures restante > 0.0
    ensures Min(restante * 0.4, restante) == QuinhaoGuloso(pesoTotal, i)
    ensures restante - Min(restante * 0.4, restante) == Sobra(pesoTotal, i + 1) > 0.0
  {
    PowPositive(0.6, i);
    PowPositive(0.6, i + 1);
    var p := Pow(0.6, i);
    PositiveProduct(pesoTotal, p, restante);
    PositiveProduct(pesoTotal, Pow(0.6, i + 1), Sobra(pesoTotal, i + 1));
    ReorderProduct(pesoTotal, p, restante);
  }

  /** Adding what is left to the first of the greedy shares makes the masses total the
      requested mass. */
  lemma {:induction false} GreedyMassesAddUp(sel: seq<IngredienteSelecionado>, pesoTotal: real, restante: real)
    requires |sel| > 0
    requires Quantidades(sel) == Quinhoes(pesoTotal, |sel|)
    requires restante == Sobra(pesoTotal, |sel|)
    ensures Sum(Quantidades(sel[0 := sel[0].(quantidadeKg := sel[0].quantidadeKg + restante)])) == pesoTotal
  {
    QuantidadesAfterTopUp(sel, restante);
    SharesTopUp(Quantidades(sel), pesoTotal, restante);
  }

  lemma {:induction false} SharesTopUp(qs: seq<real>, pesoTotal: real, restante: real)
    requires |qs| > 0 && qs == Quinhoes(pesoTotal, |qs|)
    requires restante == Sobra(pesoTotal, |qs|)
    ensures Sum(qs[0 := qs[0] + restante]) == pesoTotal
  {
    SumAddAt(qs, 0, restante);
    SharesAndLeftoverMakeTotal(pesoTotal, |qs|);
  }

  lemma {:induction false} QuantidadesAreShares(sel: seq<IngredienteSelecionado>, pesoTotal: real)
    requires forall j :: 0 <= j < |sel| ==> sel[j].quantidadeKg == QuinhaoGuloso(pesoTotal, j)
    ensures Quantidades(sel) == Quinhoes(pesoTotal, |sel|)
  {
  }

  lemma {:induction false} QuantidadesAfterTopUp(sel: seq<IngredienteSelecionado>, extra: real)
    requires |sel| > 0
    ensures Quantidades(sel[0 := sel[0].(quantidadeKg := sel[0].quantidadeKg + extra)])
         == Quantidades(sel)[0 := Quantidades(sel)[0] + extra]
  {
  }

  /** otimizarFormulacao: walks the relevant ingredients from cheapest to dearest, gives each
      40% of the mass still unallotted, then adds what is left to the first line. The result
      is absent exactly when nothing is relevant or the mass is not positive; otherwise its
      lines are the greedy allocation, their percentages of the total add up to 100, and the
      composition, cost and total mass are those of the allocation. */
  method OtimizarFormulacao(disponiveis: seq<Ingrediente>, alvo: ComposicaoAlvo, pesoTotal: real)
    returns (r: Option<CalculoResultado>)
    ensures r.None? <==> Relevantes(disponiveis, alvo) == [] || pesoTotal <= 0.0
    ensures r.Some? ==>
      var alocacao := AlocacaoGulosa(OrdenarPorCusto(Relevantes(disponiveis, alvo)), pesoTotal);
      var itens := r.value.ingredientes;
      && Selecionados(itens) == alocacao
      && r.value.pesoTotal == pesoTotal
      && Sum(Porcentagens(itens)) == 100.0
      && itens == Linhas(alocacao, pesoTotal)
      && (forall i :: 0 <= i < |itens| ==> itens[i].custoTotal == CustoLinha(alocacao[i]))
      && r.value.composicaoObtida == CalcularComposicao(alocacao)
      && r.value.custoTotal == CalcularCustoTotal(alocacao)
  {
    var selecionados: seq<IngredienteSelecionado> := [];
    var pesoRestante := pesoTotal;
    var ordenados := OrdenarPorCusto(Relevantes(disponiveis, alvo));

    var i := 0;
    while i < |ordenados|
      invariant 0 <= i <= |ordenados|
      invariant pesoTotal <= 0.0 ==> i == 0 && selecionados == [] && pesoRestante == pesoTotal
      invariant pesoTotal > 0.0 ==> pesoRestante == Sobra(pesoTotal, i) > 0.0 && |selecionados| == i
      invariant forall j :: 0 <= j < |selecionados| ==>
        selecionados[j] == IngredienteSelecionado(ordenados[j], QuinhaoGuloso(pesoTotal, j))
    {
      if pesoTotal > 0.0 {
        GreedyStep(pesoTotal, i, pesoRestante);
      }
      if pesoRestante <= 0.0 {
        break;
      }
      var quantidade := Min(pesoRestante * 0.4, pesoRestante);
      if quantidade > 0.0 {
        selecionados := selecionados + [IngredienteSelecionado(ordenados[i], quantidade)];
        pesoRestante := pesoRestante - quantidade;
      }
      i := i + 1;
    }

    if pesoRestante > 0.0 && |selecionados| > 0 {
      assert selecionados == Partilhas(ordenados, pesoTotal);
      selecionados := selecionados[0 := selecionados[0].(quantidadeKg := selecionados[0].quantidadeKg + pesoRestante)];
      assert selecionados == AlocacaoGulosa(ordenados, pesoTotal);
    } else {
      assert selecionados == [];
    }

    if |selecionados| == 0 {
      return None;
    }

    var composicaoObtida := CalcularComposicao(selecionados);
    var custoTotal := CalcularCustoTotal(selecionados);
    AlocacaoGulosaFacts(ordenados, pesoTotal);
    var pesoTotalCalculado := Sum(Quantidades(selecionados));
    LinhasKeepSelection(selecionados, pesoTotalCalculado);
    LinhasPercentagesAddUp(selecionados);
    assert pesoTotalCalculado == pesoTotal;
    r := Some(CalculoResultado(Linhas(selecionados, pesoTotalCalculado), composicaoObtida, custoTotal, pesoTotalCalculado));
  }
}
