/**
  The iterative fallback's refiner (src/pages/CalculadoraPage.tsx): starting from an equal
  split of the requested mass, 1000 passes each rescale the allocation to the requested
  mass when it has drifted by more than 0.01 and then, on every pass but the last, add a
  random perturbation to every entry and clamp it at zero.

  Math.random is replaced by an injected table of draws, one row per perturbing pass and
  one draw per ingredient. A rescale of an allocation whose entries have all been clamped
  to zero divides by zero; the original then carries NaN in every entry to the end, which
  is modelled as the absorbing outcome None.
*/
module Refinador {
  import opened Domain

  /** maxIteracoes: the number of passes. */
  const MaxIteracoes: nat := 1000

  /** The draws table: one row of `n` draws for each pass that perturbs (all but the last). */
  predicate Sorteios(draws: seq<seq<real>>, n: nat) {
    |draws| == MaxIteracoes - 1 && forall it :: 0 <= it < |draws| ==> |draws[it]| == n
  }

  /** The perturbation made from a draw u: (u - 0.5) * 0.1 * pesoTotal. */
  function Ajuste(u: real, pesoTotal: real): real {
    (u - 0.5) * 0.1 * pesoTotal
  }

  /** For a draw in [0, 1) the perturbation lies in [-5%, 5%) of the requested mass. */
  lemma {:induction false} AjusteLimites(u: real, pesoTotal: real)
    requires 0.0 <= u < 1.0 && pesoTotal > 0.0
    ensures -0.05 * pesoTotal <= Ajuste(u, pesoTotal) < 0.05 * pesoTotal
  {
    var d := u - 0.5;
    assert Ajuste(u, pesoTotal) == d * (0.1 * pesoTotal);
    ProductBelow(-0.5, d, 0.1 * pesoTotal, d * (0.1 * pesoTotal));
    assert (0.5 - d) * (0.1 * pesoTotal) > 0.0;
  }

  /** The equal split the refiner starts from. */
  function Inicial(n: nat, pesoTotal: real): (q: seq<real>)
    requires n > 0
    ensures |q| == n
  {
    seq(n, _ => pesoTotal / n as real)
  }

  /** The rescale step: an allocation more than 0.01 away from the requested mass is
      multiplied by pesoTotal / sum; None when that sum is zero. */
  function Normalizada(q: seq<real>, pesoTotal: real): (r: Option<seq<real>>)
    ensures r.Some? ==> |r.value| == |q|
  {
    var soma := Sum(q);
    if Abs(soma - pesoTotal) > 0.01 then
      if soma == 0.0 then None else Some(Scale(q, pesoTotal / soma))
    else Some(q)
  }

  /** The perturbation step: every entry moved by its draw's perturbation and clamped at 0. */
  function Perturbada(q: seq<real>, us: seq<real>, pesoTotal: real): (r: seq<real>)
    requires |us| == |q|
    ensures |r| == |q|
  {
    seq(|q|, i requires 0 <= i < |q| => Max(0.0, q[i] + Ajuste(us[i], pesoTotal)))
  }

  /** Pass `it`: rescale, then perturb unless it is the last pass. */
  function Iteracao(q: seq<real>, pesoTotal: real, draws: seq<seq<real>>, it: nat): (r: Option<seq<real>>)
    requires Sorteios(draws, |q|) && it < MaxIteracoes
    ensures r.Some? ==> |r.value| == |q|
  {
    match Normalizada(q, pesoTotal)
    case None => None
    case Some(nq) => if it < MaxIteracoes - 1 then Some(Perturbada(nq, draws[it], pesoTotal)) else Some(nq)
  }

  /** The allocation after the first k passes (None once a rescale has divided by zero). */
  function Refinado(n: nat, pesoTotal: real, draws: seq<seq<real>>, k: nat): (r: Option<seq<real>>)
    requires n > 0 && Sorteios(draws, n) && k <= MaxIteracoes
    ensures r.Some? ==> |r.value| == n
    decreases k
  {
    if k == 0 then Some(Inicial(n, pesoTotal))
    else match Refinado(n, pesoTotal, draws, k - 1)
      case None => None
      case Some(q) => Iteracao(q, pesoTotal, draws, k - 1)
  }

  // ---------------------------------------------------------------------------
  // The refiner as the page runs it
  // ---------------------------------------------------------------------------

  /** pesoAtual: the allocation's sum, accumulated from the first entry. */
  method Somar(q: array<real>) returns (soma: real)
    ensures soma == Sum(q[..])
  {
    soma := 0.0;
    for i := 0 to q.Length
      invariant soma == Sum(q[..i])
    {
      SumPrefix(q[..], i);
      assert q[..][..i] == q[..i] && q[..][..i + 1] == q[..i + 1];
      soma := soma + q[i];
    }
    assert q[..q.Length] == q[..];
  }

  /** melhorSolucao.map(q => q * fator). */
  method Escalar(q: array<real>, fator: real)
    modifies q
    ensures q[..] == Scale(old(q[..]), fator)
  {
    for i := 0 to q.Length
      invariant forall j :: 0 <= j < i ==> q[j] == old(q[j]) * fator
      invariant forall j :: i <= j < q.Length ==> q[j] == old(q[j])
    {
      q[i] := q[i] * fator;
    }
    assert forall j :: 0 <= j < q.Length ==> q[..][j] == Scale(old(q[..]), fator)[j];
  }

  /** The perturbation loop over the entries, with the draws of this pass. */
  method Perturbar(q: array<real>, us: seq<real>, pesoTotal: real)
    requires |us| == q.Length
    modifies q
    ensures q[..] == Perturbada(old(q[..]), us, pesoTotal)
  {
    for i := 0 to q.Length
      invariant forall j :: 0 <= j < i ==> q[j] == Max(0.0, old(q[j]) + Ajuste(us[j], pesoTotal))
      invariant forall j :: i <= j < q.Length ==> q[j] == old(q[j])
    {
      var ajuste := (us[i] - 0.5) * 0.1 * pesoTotal;
      q[i] := Max(0.0, q[i] + ajuste);
    }
  }

  /** The 1000-pass loop. It ends in the allocation Refinado describes after all passes. */
  method Refinar(n: nat, pesoTotal: real, draws: seq<seq<real>>) returns (r: Option<seq<real>>)
    requires n > 0 && Sorteios(draws, n)
    ensures r == Refinado(n, pesoTotal, draws, MaxIteracoes)
  {
    var q := new real[n](_ => pesoTotal / n as real);
    assert q[..] == Inicial(n, pesoTotal);
    var envenenado := false;
    for it := 0 to MaxIteracoes
      invariant q.Length == n
      invariant (if envenenado then None else Some(q[..])) == Refinado(n, pesoTotal, draws, it)
    {
      if !envenenado {
        var pesoAtual := Somar(q);
        if Abs(pesoAtual - pesoTotal) > 0.01 {
          if pesoAtual == 0.0 {
            envenenado := true;
          } else {
            Escalar(q, pesoTotal / pesoAtual);
          }
        }
        if !envenenado && it < MaxIteracoes - 1 {
          Perturbar(q, draws[it], pesoTotal);
        }
      }
    }
    r := if envenenado then None else Some(q[..]);
  }

  // ---------------------------------------------------------------------------
  // What the refiner guarantees
  // ---------------------------------------------------------------------------

  /** Every entry is non-negative. */
  predicate NaoNegativa(q: seq<real>) {
    forall i :: 0 <= i < |q| ==> q[i] >= 0.0
  }

  /** Every entry is zero. */
  predicate Nula(q: seq<real>) {
    forall i :: 0 <= i < |q| ==> q[i] == 0.0
  }

  /** A non-negative allocation sums to zero only when every entry is zero. */
  lemma {:induction false} SomaNulaSse(q: seq<real>)
    requires NaoNegativa(q)
    ensures Sum(q) == 0.0 <==> Nula(q)
    decreases |q|
  {
    if |q| > 0 {
      var init := q[..|q| - 1];
      assert NaoNegativa(init);
      SomaNulaSse(init);
      SumNonNegative(init);
    }
  }

  /** One rescale keeps a non-negative allocation non-negative; it divides by zero exactly
      when every entry is zero and the requested mass exceeds 0.01 (so that the zero sum is
      more than 0.01 away from it); and when it succeeds the result is within 0.01 of the
      requested mass. */
  lemma {:induction false} NormalizadaPropriedades(q: seq<real>, pesoTotal: real)
    requires NaoNegativa(q) && pesoTotal > 0.0
    ensures Normalizada(q, pesoTotal).None? <==> Nula(q) && pesoTotal > 0.01
    ensures Normalizada(q, pesoTotal).Some? ==>
      NaoNegativa(Normalizada(q, pesoTotal).value)
      && Abs(Sum(Normalizada(q, pesoTotal).value) - pesoTotal) <= 0.01
  {
    var soma := Sum(q);
    SomaNulaSse(q);
    SumNonNegative(q);
    if Abs(soma - pesoTotal) > 0.01 && soma != 0.0 {
      var c := pesoTotal / soma;
      assert c > 0.0;
      SumScale(q, c);
      assert soma * c == pesoTotal;
      var s := Scale(q, c);
      forall i | 0 <= i < |q| ensures s[i] >= 0.0 {
        NonNegativeProduct(q[i], c);
      }
    }
  }

  /** Every pass keeps the allocation non-negative. */
  lemma {:induction false} IteracaoNaoNegativa(q: seq<real>, pesoTotal: real, draws: seq<seq<real>>, it: nat)
    requires Sorteios(draws, |q|) && it < MaxIteracoes && NaoNegativa(q) && pesoTotal > 0.0
    ensures Iteracao(q, pesoTotal, draws, it).Some? ==> NaoNegativa(Iteracao(q, pesoTotal, draws, it).value)
  {
    NormalizadaPropriedades(q, pesoTotal);
  }

  /** Throughout the refinement every entry stays non-negative. */
  lemma {:induction false} RefinadoNaoNegativo(n: nat, pesoTotal: real, draws: seq<seq<real>>, k: nat)
    requires n > 0 && Sorteios(draws, n) && k <= MaxIteracoes && pesoTotal > 0.0
    ensures Refinado(n, pesoTotal, draws, k).Some? ==> NaoNegativa(Refinado(n, pesoTotal, draws, k).value)
    decreases k
  {
    if k == 0 {
      var q := Inicial(n, pesoTotal);
      forall i | 0 <= i < n ensures q[i] >= 0.0 {
        assert q[i] == pesoTotal / n as real;
      }
    } else {
      RefinadoNaoNegativo(n, pesoTotal, draws, k - 1);
      var antes := Refinado(n, pesoTotal, draws, k - 1);
      if antes.Some? {
        IteracaoNaoNegativa(antes.value, pesoTotal, draws, k - 1);
      }
    }
  }

  /** Because the last pass rescales without perturbing, the final allocation, unless a
      rescale divided by zero, is non-negative and within 0.01 of the requested mass;
      a division by zero happens only at a pass that starts from an all-zero allocation. */
  lemma {:induction false} RefinadoFinal(n: nat, pesoTotal: real, draws: seq<seq<real>>)
    requires n > 0 && Sorteios(draws, n) && pesoTotal > 0.0
    ensures var r := Refinado(n, pesoTotal, draws, MaxIteracoes);
      r.Some? ==> NaoNegativa(r.value) && Abs(Sum(r.value) - pesoTotal) <= 0.01
  {
    var antes := Refinado(n, pesoTotal, draws, MaxIteracoes - 1);
    RefinadoNaoNegativo(n, pesoTotal, draws, MaxIteracoes - 1);
    if antes.Some? {
      NormalizadaPropriedades(antes.value, pesoTotal);
    }
  }

  /** A pass divides by zero exactly when it starts from an all-zero allocation and the
      requested mass exceeds 0.01. */
  lemma {:induction false} EnvenenamentoSse(n: nat, pesoTotal: real, draws: seq<seq<real>>, k: nat)
    requires n > 0 && Sorteios(draws, n) && 0 < k <= MaxIteracoes && pesoTotal > 0.0
    requires Refinado(n, pesoTotal, draws, k - 1).Some?
    ensures Refinado(n, pesoTotal, draws, k).None? <==> Nula(Refinado(n, pesoTotal, draws, k - 1).value) && pesoTotal > 0.01
  {
    var antes := Refinado(n, pesoTotal, draws, k - 1).value;
    RefinadoNaoNegativo(n, pesoTotal, draws, k - 1);
    NormalizadaPropriedades(antes, pesoTotal);
  }
}
