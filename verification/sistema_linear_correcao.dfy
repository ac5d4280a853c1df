/**
  What the elimination in SistemaLinear achieves. A skipped column is exactly one whose
  candidate entries are all below the threshold. Every step keeps the solution set of the
  system, provided the pivot row is zero left of its column (always so while no column has
  been skipped). When no column of a square system is skipped, the reduced matrix is the
  identity, so the solver returns the system's unique solution.
*/
module SistemaLinearCorrecao {
  import opened Domain
  import opened SistemaLinear

  /** `x` satisfies every equation of the system `e`. */
  predicate Solucao(e: Estado, m: nat, x: seq<real>)
    requires BemFormado(e, m)
  {
    |x| == m && forall r :: 0 <= r < |e.a| ==> Produto(e.a[r], x, m) == e.b[r]
  }

  /** Columns 0..k-1 of `a` are the first k columns of the identity. */
  predicate ColunasUnitarias(a: Matriz, k: nat) {
    forall r, c :: 0 <= r < |a| && 0 <= c < k && c < |a[r]| ==> a[r][c] == if r == c then 1.0 else 0.0
  }

  /** None of the first k columns is skipped. */
  predicate SemPulos(e: Estado, m: nat, k: nat)
    requires BemFormado(e, m) && k <= |e.a| && k <= m
    decreases k
  {
    k == 0 || (SemPulos(e, m, k - 1) && !Pulada(Reduzir(e, m, k - 1), m, k - 1))
  }

  // ---------------------------------------------------------------------------
  // Linearity of the row product
  // ---------------------------------------------------------------------------

  /** Every entry of `w` is `c` times the matching entry of `u`. */
  predicate EhEscala(w: seq<real>, u: seq<real>, c: real) {
    |w| == |u| && forall t :: 0 <= t < |u| ==> w[t] == u[t] * c
  }

  /** Every entry of `w` is the matching entry of `u` minus `f` times that of `v`. */
  predicate EhCombinacao(w: seq<real>, u: seq<real>, v: seq<real>, f: real) {
    |w| == |u| && |v| == |u| && forall t :: 0 <= t < |u| ==> w[t] == u[t] - f * v[t]
  }

  /** `u` is row r of the identity. */
  predicate EhUnitaria(u: seq<real>, r: nat) {
    forall t :: 0 <= t < |u| ==> u[t] == if t == r then 1.0 else 0.0
  }

  lemma {:induction false} EscalaPasso(p: real, pw: real, ui: real, wi: real, xi: real, c: real)
    requires pw == p * c && wi == ui * c
    ensures pw + wi * xi == (p + ui * xi) * c
  {
  }

  lemma {:induction false} CombinaPasso(pu: real, pv: real, pw: real, ui: real, vi: real, wi: real, xi: real, f: real)
    requires pw == pu - f * pv && wi == ui - f * vi
    ensures pw + wi * xi == (pu + ui * xi) - f * (pv + vi * xi)
  {
  }

  lemma {:induction false} ProdutoEscala(w: seq<real>, u: seq<real>, c: real, x: seq<real>, k: nat)
    requires EhEscala(w, u, c) && k <= |u| && k <= |x|
    ensures Produto(w, x, k) == Produto(u, x, k) * c
    decreases k
  {
    if k > 0 {
      ProdutoEscala(w, u, c, x, k - 1);
      EscalaPasso(Produto(u, x, k - 1), Produto(w, x, k - 1), u[k - 1], w[k - 1], x[k - 1], c);
    }
  }

  lemma {:induction false} ProdutoCombinacao(w: seq<real>, u: seq<real>, v: seq<real>, f: real, x: seq<real>, k: nat)
    requires EhCombinacao(w, u, v, f) && k <= |u| && k <= |x|
    ensures Produto(w, x, k) == Produto(u, x, k) - f * Produto(v, x, k)
    decreases k
  {
    if k > 0 {
      ProdutoCombinacao(w, u, v, f, x, k - 1);
      CombinaPasso(Produto(u, x, k - 1), Produto(v, x, k - 1), Produto(w, x, k - 1),
                   u[k - 1], v[k - 1], w[k - 1], x[k - 1], f);
    }
  }

  /** Row r of the identity picks out x[r]. */
  lemma {:induction false} ProdutoUnitario(u: seq<real>, r: nat, x: seq<real>, k: nat)
    requires EhUnitaria(u, r) && k <= |u| && k <= |x|
    ensures Produto(u, x, k) == if r < k then x[r] else 0.0
    decreases k
  {
    if k > 0 {
      ProdutoUnitario(u, r, x, k - 1);
      if k - 1 == r {
        assert u[k - 1] == 1.0;
      } else {
        assert u[k - 1] == 0.0;
        ZeroFactor(x[k - 1], u[k - 1]);
      }
    }
  }

  // ---------------------------------------------------------------------------
  // The row operations as linear maps, on a row that is zero left of column i
  // ---------------------------------------------------------------------------

  /** Entries 0..i-1 of `linha` are zero. */
  predicate Limpa(linha: seq<real>, i: nat) {
    forall c :: 0 <= c < i && c < |linha| ==> linha[c] == 0.0
  }

  lemma {:induction false} NormalizarEhEscala(linha: seq<real>, i: nat, pivo: real)
    requires pivo != 0.0 && Limpa(linha, i)
    ensures EhEscala(Normalizar(linha, i, |linha|, pivo), linha, 1.0 / pivo)
  {
    var w := Normalizar(linha, i, |linha|, pivo);
    forall t | 0 <= t < |linha| ensures w[t] == linha[t] * (1.0 / pivo) {
      if t < i {
        ZeroFactor(1.0 / pivo, linha[t]);
      } else {
        TimesInverse(linha[t], pivo);
      }
    }
  }

  lemma {:induction false} SubtrairEhCombinacao(linha: seq<real>, pivoLinha: seq<real>, i: nat, f: real)
    requires |pivoLinha| == |linha| && Limpa(pivoLinha, i)
    ensures EhCombinacao(Subtrair(linha, pivoLinha, i, |linha|, f), linha, pivoLinha, f)
  {
    var w := Subtrair(linha, pivoLinha, i, |linha|, f);
    forall t | 0 <= t < |linha| ensures w[t] == linha[t] - f * pivoLinha[t] {
      if t < i {
        ZeroFactor(f, pivoLinha[t]);
      }
    }
  }

  // ---------------------------------------------------------------------------
  // Pivot choice and skipping
  // ---------------------------------------------------------------------------

  /** After the swap, row i holds the pivot row. */
  lemma {:induction false} TrocadoLinhaPivo(e: Estado, m: nat, i: nat)
    requires Coluna(e, m, i)
    ensures Trocado(e, m, i).a[i] == e.a[Pivo(e.a, m, i)]
    ensures Trocado(e, m, i).b[i] == e.b[Pivo(e.a, m, i)]
  {
  }

  /** Column i is skipped exactly when every entry of it in rows i..n-1 is below the
      threshold in absolute value. */
  lemma {:induction false} PuladaSse(e: Estado, m: nat, i: nat)
    requires Coluna(e, m, i)
    ensures Pulada(e, m, i) <==> forall r :: i <= r < |e.a| ==> Abs(e.a[r][i]) < LimitePivo
    ensures Pulada(e, m, i) ==> Passo(e, m, i) == Trocado(e, m, i)
  {
    PivoAteEhPivo(e.a, m, i, |e.a|);
    TrocadoLinhaPivo(e, m, i);
  }

  /** Swapping two rows keeps the solution set. */
  lemma {:induction false} TrocaPreservaSolucoes(e: Estado, m: nat, i: nat, x: seq<real>)
    requires Coluna(e, m, i) && |x| == m
    ensures Solucao(e, m, x) <==> Solucao(Trocado(e, m, i), m, x)
  {
    var p := Pivo(e.a, m, i);
    var t := Trocado(e, m, i);
    assert forall r :: 0 <= r < |e.a| ==>
      var s := if r == i then p else if r == p then i else r;
      t.a[r] == e.a[s] && t.b[r] == e.b[s];
    if Solucao(e, m, x) {
      forall r | 0 <= r < |t.a| ensures Produto(t.a[r], x, m) == t.b[r] {
        var s := if r == i then p else if r == p then i else r;
        assert Produto(e.a[s], x, m) == e.b[s];
      }
    }
    if Solucao(t, m, x) {
      forall r | 0 <= r < |e.a| ensures Produto(e.a[r], x, m) == e.b[r] {
        var s := if r == i then p else if r == p then i else r;
        assert Produto(t.a[s], x, m) == t.b[s];
      }
    }
  }

  /** While columns 0..i-1 are unit columns, the swap keeps them so and leaves a pivot
      row that is zero left of column i. */
  lemma {:induction false} TrocadoColunas(e: Estado, m: nat, i: nat)
    requires Coluna(e, m, i) && ColunasUnitarias(e.a, i)
    ensures ColunasUnitarias(Trocado(e, m, i).a, i)
    ensures Limpa(Trocado(e, m, i).a[i], i)
  {
    var p := Pivo(e.a, m, i);
    var t := Trocado(e, m, i);
    forall r, c | 0 <= r < |t.a| && 0 <= c < i && c < |t.a[r]|
      ensures t.a[r][c] == if r == c then 1.0 else 0.0
    {
      if r == i {
        assert t.a[r] == e.a[p];
      } else if r == p {
        assert t.a[r] == e.a[i];
      } else {
        assert t.a[r] == e.a[r];
      }
    }
  }

  // ---------------------------------------------------------------------------
  // One non-skipped step
  // ---------------------------------------------------------------------------

  lemma {:induction false} InversoCancela(d: real, bi: real, pivo: real, dn: real)
    requires pivo != 0.0 && dn == d * (1.0 / pivo)
    ensures dn == bi / pivo <==> d == bi
  {
  }

  lemma {:induction false} OutraLinhaCancela(dr: real, br: real, dn: real, bn: real, di: real, bi: real, f: real)
    requires dn == dr - f * di && bn == br - f * bi && di == bi
    ensures dn == bn <==> dr == br
  {
  }

  /** After a column that is not skipped, that column is a unit column: 1 on the pivot
      row and 0 on every other row. */
  lemma {:induction false} PassoColunaPivo(e: Estado, m: nat, i: nat)
    requires Coluna(e, m, i) && !Pulada(e, m, i)
    ensures Passo(e, m, i).a[i][i] == 1.0
    ensures forall r :: 0 <= r < |e.a| && r != i ==> Passo(e, m, i).a[r][i] == 0.0
  {
    var nz := Normalizado(e, m, i);
    var s := Passo(e, m, i);
    var pivo := Trocado(e, m, i).a[i][i];
    assert nz.a[i][i] == pivo / pivo;
    assert nz.a[i][i] == 1.0;
    forall r | 0 <= r < |e.a| && r != i ensures s.a[r][i] == 0.0 {
      var f := nz.a[r][i];
      assert s.a[r][i] == f - f * nz.a[i][i];
    }
  }

  /** The pivot row after the step: the swapped pivot row scaled by 1/pivot. */
  lemma {:induction false} PassoLinhaPivo(e: Estado, m: nat, i: nat)
    requires Coluna(e, m, i) && !Pulada(e, m, i)
    requires Limpa(Trocado(e, m, i).a[i], i)
    ensures var t := Trocado(e, m, i);
      var pivo := t.a[i][i];
      pivo != 0.0
      && EhEscala(Passo(e, m, i).a[i], t.a[i], 1.0 / pivo)
      && Passo(e, m, i).b[i] == t.b[i] / pivo
      && Limpa(Passo(e, m, i).a[i], i)
      && Passo(e, m, i).a[i][i] == 1.0
  {
    var t := Trocado(e, m, i);
    var pivo := t.a[i][i];
    NormalizarEhEscala(t.a[i], i, pivo);
  }

  /** Another row after the step: the swapped row minus its column-i entry times the new
      pivot row. */
  lemma {:induction false} PassoOutraLinha(e: Estado, m: nat, i: nat, r: nat)
    requires Coluna(e, m, i) && !Pulada(e, m, i)
    requires Limpa(Trocado(e, m, i).a[i], i)
    requires r < |e.a| && r != i
    ensures var t, s := Trocado(e, m, i), Passo(e, m, i);
      var f := t.a[r][i];
      && EhCombinacao(s.a[r], t.a[r], s.a[i], f)
      && s.b[r] == t.b[r] - f * s.b[i]
  {
    var t, s := Trocado(e, m, i), Passo(e, m, i);
    var nz := Normalizado(e, m, i);
    PassoLinhaPivo(e, m, i);
    assert nz.a[i] == s.a[i] && nz.a[r] == t.a[r];
    SubtrairEhCombinacao(nz.a[r], nz.a[i], i, t.a[r][i]);
  }

  /** A row scaled by 1/pivot, with its right-hand side divided by the pivot, holds at x
      exactly when the original row does. */
  lemma {:induction false} LinhaEscaladaSse(t: seq<real>, tb: real, s: seq<real>, sb: real, pivo: real, x: seq<real>)
    requires pivo != 0.0 && EhEscala(s, t, 1.0 / pivo) && sb == tb / pivo && |x| == |t|
    ensures Produto(s, x, |t|) == sb <==> Produto(t, x, |t|) == tb
  {
    ProdutoEscala(s, t, 1.0 / pivo, x, |t|);
    InversoCancela(Produto(t, x, |t|), tb, pivo, Produto(s, x, |t|));
  }

  /** Given that the pivot row holds at x, a row minus f times the pivot row, with the
      matching right-hand side, holds at x exactly when the original row does. */
  lemma {:induction false} LinhaCombinadaSse(t: seq<real>, tb: real, s: seq<real>, sb: real,
                                             piv: seq<real>, pivb: real, f: real, x: seq<real>)
    requires EhCombinacao(s, t, piv, f) && sb == tb - f * pivb && |x| == |t|
    requires Produto(piv, x, |t|) == pivb
    ensures Produto(s, x, |t|) == sb <==> Produto(t, x, |t|) == tb
  {
    ProdutoCombinacao(s, t, piv, f, x, |t|);
    OutraLinhaCancela(Produto(t, x, |t|), tb, Produto(s, x, |t|), sb, Produto(piv, x, |t|), pivb, f);
  }

  /** `s` comes from `t` by the row operations of a step on column i: the pivot row
      scaled by 1/pivot, every other row r reduced by t[r][i] times the new pivot row. */
  predicate OperacoesDeLinha(t: Estado, s: Estado, m: nat, i: nat, pivo: real)
    requires BemFormado(t, m) && BemFormado(s, m) && |s.a| == |t.a| && i < |t.a| && i < m
  {
    && pivo != 0.0
    && EhEscala(s.a[i], t.a[i], 1.0 / pivo) && s.b[i] == t.b[i] / pivo
    && forall r :: 0 <= r < |t.a| && r != i ==>
         EhCombinacao(s.a[r], t.a[r], s.a[i], t.a[r][i]) && s.b[r] == t.b[r] - t.a[r][i] * s.b[i]
  }

  lemma {:induction false} PassoEhOperacoesDeLinha(e: Estado, m: nat, i: nat)
    requires Coluna(e, m, i) && !Pulada(e, m, i)
    requires Limpa(Trocado(e, m, i).a[i], i)
    ensures OperacoesDeLinha(Trocado(e, m, i), Passo(e, m, i), m, i, Trocado(e, m, i).a[i][i])
  {
    PassoLinhaPivo(e, m, i);
    forall r | 0 <= r < |e.a| && r != i
      ensures EhCombinacao(Passo(e, m, i).a[r], Trocado(e, m, i).a[r], Passo(e, m, i).a[i], Trocado(e, m, i).a[r][i])
      ensures Passo(e, m, i).b[r] == Trocado(e, m, i).b[r] - Trocado(e, m, i).a[r][i] * Passo(e, m, i).b[i]
    {
      PassoOutraLinha(e, m, i, r);
    }
  }

  /** Row operations of that kind keep the solution set. */
  lemma {:induction false} OperacoesPreservamSolucoes(t: Estado, s: Estado, m: nat, i: nat, pivo: real, x: seq<real>)
    requires BemFormado(t, m) && BemFormado(s, m) && |s.a| == |t.a| && i < |t.a| && i < m && |x| == m
    requires OperacoesDeLinha(t, s, m, i, pivo)
    ensures Solucao(t, m, x) <==> Solucao(s, m, x)
  {
    LinhaEscaladaSse(t.a[i], t.b[i], s.a[i], s.b[i], pivo, x);
    if Solucao(t, m, x) {
      forall r | 0 <= r < |s.a| && r != i ensures Produto(s.a[r], x, m) == s.b[r] {
        LinhaCombinadaSse(t.a[r], t.b[r], s.a[r], s.b[r], s.a[i], s.b[i], t.a[r][i], x);
      }
    }
    if Solucao(s, m, x) {
      forall r | 0 <= r < |t.a| && r != i ensures Produto(t.a[r], x, m) == t.b[r] {
        LinhaCombinadaSse(t.a[r], t.b[r], s.a[r], s.b[r], s.a[i], s.b[i], t.a[r][i], x);
      }
    }
  }

  /** A non-skipped step whose pivot row is zero left of column i keeps the solution set. */
  lemma {:induction false} PassoPreservaSolucoes(e: Estado, m: nat, i: nat, x: seq<real>)
    requires Coluna(e, m, i) && !Pulada(e, m, i) && |x| == m
    requires Limpa(Trocado(e, m, i).a[i], i)
    ensures Solucao(Trocado(e, m, i), m, x) <==> Solucao(Passo(e, m, i), m, x)
  {
    PassoEhOperacoesDeLinha(e, m, i);
    OperacoesPreservamSolucoes(Trocado(e, m, i), Passo(e, m, i), m, i, Trocado(e, m, i).a[i][i], x);
  }

  /** A non-skipped step, from unit columns 0..i-1, yields unit columns 0..i. */
  lemma {:induction false} PassoColunas(e: Estado, m: nat, i: nat)
    requires Coluna(e, m, i) && !Pulada(e, m, i) && ColunasUnitarias(e.a, i)
    ensures ColunasUnitarias(Passo(e, m, i).a, i + 1)
  {
    var t, s := Trocado(e, m, i), Passo(e, m, i);
    TrocadoColunas(e, m, i);
    PassoLinhaPivo(e, m, i);
    forall r, c | 0 <= r < |s.a| && 0 <= c < i + 1 && c < |s.a[r]|
      ensures s.a[r][c] == if r == c then 1.0 else 0.0
    {
      if r != i {
        PassoOutraLinha(e, m, i, r);
        var f := t.a[r][i];
        assert s.a[r][c] == t.a[r][c] - f * s.a[i][c];
        if c < i {
          ZeroFactor(f, s.a[i][c]);
        }
      }
    }
  }

  // ---------------------------------------------------------------------------
  // The whole reduction
  // ---------------------------------------------------------------------------

  /** Column i is processed without a skip, starting from unit columns 0..i-1. */
  predicate PassoLimpo(e: Estado, m: nat, i: nat) {
    Coluna(e, m, i) && !Pulada(e, m, i) && ColunasUnitarias(e.a, i)
  }

  /** A non-skipped step from unit columns 0..i-1 yields unit columns 0..i and keeps the
      solution set. */
  lemma {:induction false} PassoSemPulo(e: Estado, s: Estado, m: nat, i: nat, x: seq<real>)
    requires PassoLimpo(e, m, i) && s == Passo(e, m, i) && |x| == m
    ensures ColunasUnitarias(s.a, i + 1)
    ensures Solucao(e, m, x) <==> Solucao(s, m, x)
  {
    TrocadoColunas(e, m, i);
    TrocaPreservaSolucoes(e, m, i, x);
    PassoPreservaSolucoes(e, m, i, x);
    PassoColunas(e, m, i);
  }

  /** The inductive step of the reduction: from k-1 to k columns. */
  lemma {:induction false} ReduzirPasso(e: Estado, m: nat, k: nat, x: seq<real>)
    requires BemFormado(e, m) && 0 < k <= |e.a| && k <= m && SemPulos(e, m, k) && |x| == m
    requires ColunasUnitarias(Reduzir(e, m, k - 1).a, k - 1)
    ensures ColunasUnitarias(Reduzir(e, m, k).a, k)
    ensures Solucao(Reduzir(e, m, k - 1), m, x) <==> Solucao(Reduzir(e, m, k), m, x)
  {
    var antes := Reduzir(e, m, k - 1);
    assert Reduzir(e, m, k) == Passo(antes, m, k - 1);
    assert PassoLimpo(antes, m, k - 1);
    PassoSemPulo(antes, Reduzir(e, m, k), m, k - 1, x);
  }

  /** Without skips, the first k steps leave the first k columns as identity columns and
      keep the solution set. */
  lemma {:induction false} ReduzirSemPulos(e: Estado, m: nat, k: nat, x: seq<real>)
    requires BemFormado(e, m) && k <= |e.a| && k <= m && SemPulos(e, m, k) && |x| == m
    ensures ColunasUnitarias(Reduzir(e, m, k).a, k)
    ensures Solucao(e, m, x) <==> Solucao(Reduzir(e, m, k), m, x)
    decreases k
  {
    if k > 0 {
      ReduzirSemPulos(e, m, k - 1, x);
      ReduzirPasso(e, m, k, x);
    }
  }

  /** A system whose first n columns are the identity is solved exactly by its
      right-hand side. */
  lemma {:induction false} IdentidadeSolucao(e: Estado, n: nat, x: seq<real>)
    requires BemFormado(e, n) && |e.a| == n && ColunasUnitarias(e.a, n) && |x| == n
    ensures Solucao(e, n, x) <==> x == e.b
  {
    forall r | 0 <= r < n ensures Produto(e.a[r], x, n) == x[r] {
      ProdutoUnitario(e.a[r], r, x, n);
    }
  }

  /** The check passes on a system whose matrix is the identity. */
  lemma {:induction false} IdentidadeSemFalha(e: Estado, n: nat)
    requires BemFormado(e, n) && |e.a| == n && ColunasUnitarias(e.a, n)
    ensures !AlgumaFalha(e, n)
  {
    var v := Vetor(e.b, n);
    forall r | 0 <= r < n ensures !LinhaFalha(e, n, r) {
      ProdutoUnitario(e.a[r], r, v, n);
    }
  }

  /** The solver returns null exactly when some row of the reduced system has a residual
      above 1e-5 at B and a right-hand side above 1e-5; otherwise it returns the reduced
      right-hand side, one entry per column (or per row, when there are fewer rows). */
  lemma {:induction false} ResolverNuloSse(equacoes: Matriz, resultados: seq<real>)
    requires Entrada(equacoes, resultados)
    ensures Resolver(equacoes, resultados).None? <==>
      exists q :: 0 <= q < |equacoes| &&
        Abs(Produto(Reduzido(equacoes, resultados).a[q], Vetor(Reduzido(equacoes, resultados).b, |equacoes[0]|), |equacoes[0]|)
            - Reduzido(equacoes, resultados).b[q]) > Tolerancia
        && Abs(Reduzido(equacoes, resultados).b[q]) > Tolerancia
    ensures Resolver(equacoes, resultados).Some? ==>
      |Resolver(equacoes, resultados).value| == Limite(equacoes)
      && forall j :: 0 <= j < Limite(equacoes) ==>
           Resolver(equacoes, resultados).value[j] == Reduzido(equacoes, resultados).b[j]
  {
    var m := |equacoes[0]|;
    var fim := Reduzido(equacoes, resultados);
    if AlgumaFalha(fim, m) {
      var q :| 0 <= q < |equacoes| && LinhaFalha(fim, m, q);
      assert Abs(Produto(fim.a[q], Vetor(fim.b, m), m) - fim.b[q]) > Tolerancia && Abs(fim.b[q]) > Tolerancia;
    } else {
      forall q | 0 <= q < |equacoes|
        ensures !(Abs(Produto(fim.a[q], Vetor(fim.b, m), m) - fim.b[q]) > Tolerancia && Abs(fim.b[q]) > Tolerancia)
      {
        assert !LinhaFalha(fim, m, q);
      }
    }
  }

  /** A square system in which no column is skipped: the solver returns a vector that
      satisfies every equation, and no other vector does. */
  lemma {:induction false} ResolverQuadradoSemPulos(equacoes: Matriz, resultados: seq<real>)
    requires Entrada(equacoes, resultados) && |equacoes[0]| == |equacoes|
    requires SemPulos(Estado(equacoes, resultados), |equacoes|, |equacoes|)
    ensures Resolver(equacoes, resultados).Some?
    ensures Solucao(Estado(equacoes, resultados), |equacoes|, Resolver(equacoes, resultados).value)
    ensures forall y :: |y| == |equacoes| && Solucao(Estado(equacoes, resultados), |equacoes|, y)
                        ==> y == Resolver(equacoes, resultados).value
  {
    var n := |equacoes|;
    var e := Estado(equacoes, resultados);
    var fim := Reduzir(e, n, n);
    ReduzirSemPulos(e, n, n, fim.b);
    IdentidadeSemFalha(fim, n);
    assert fim.b[..n] == fim.b;
    IdentidadeSolucao(fim, n, fim.b);
    forall y | |y| == n && Solucao(e, n, y) ensures y == fim.b {
      ReduzirSemPulos(e, n, n, y);
      IdentidadeSolucao(fim, n, y);
    }
  }
}
