/**
  resolverSistemaLinear (src/pages/CalculadoraPage.tsx): Gauss-Jordan elimination with
  partial pivoting on copies of the coefficient rows and of the right-hand side, followed
  by a row-by-row consistency check on the reduced system.

  The rows are values (`seq<real>`), held in an array of rows so that a row swap exchanges
  two references as the original does; the right-hand side is an array of reals. The
  functions below describe each stage on values; the method runs the loops and is proved
  to end in the state those functions describe.
*/
module SistemaLinear {
  import opened Domain

  type Matriz = seq<seq<real>>

  /** Every row has `m` entries. */
  predicate Retangular(a: Matriz, m: nat) {
    forall r :: 0 <= r < |a| ==> |a[r]| == m
  }

  /** The coefficient rows and right-hand side at some point of the elimination. */
  datatype Estado = Estado(a: Matriz, b: seq<real>)

  /** A state with one right-hand entry per row and `m` columns. */
  predicate BemFormado(e: Estado, m: nat) {
    |e.a| == |e.b| && Retangular(e.a, m)
  }

  /** Column i can be processed in `e`: `e` is well formed and i is below both its row
      count and its column count. */
  predicate Coluna(e: Estado, m: nat, i: nat) {
    BemFormado(e, m) && i < |e.a| && i < m
  }

  /** The pivot threshold below which a column is skipped. */
  const LimitePivo: real := 0.0000000001

  /** The tolerance of the consistency check. */
  const Tolerancia: real := 0.00001

  // ---------------------------------------------------------------------------
  // Pivot search
  // ---------------------------------------------------------------------------

  /** The row the pivot search holds after looking at rows i..j-1 of column i: the first
      row whose |entry| is strictly larger than every earlier one. */
  function PivoAte(a: Matriz, m: nat, i: nat, j: nat): (p: nat)
    requires Retangular(a, m) && i < m && i < j <= |a|
    ensures i <= p < j
    decreases j
  {
    if j == i + 1 then i
    else
      var melhor := PivoAte(a, m, i, j - 1);
      if Abs(a[j - 1][i]) > Abs(a[melhor][i]) then j - 1 else melhor
  }

  /** The pivot row for column i: the search over rows i..n-1. */
  function Pivo(a: Matriz, m: nat, i: nat): (p: nat)
    requires Retangular(a, m) && i < m && i < |a|
    ensures i <= p < |a|
  {
    PivoAte(a, m, i, |a|)
  }

  /** `p` holds a largest |entry| of column i among rows i..j-1, and is the first such row. */
  predicate EhPivo(a: Matriz, m: nat, i: nat, j: nat, p: nat)
    requires Retangular(a, m) && i < m && j <= |a|
  {
    && i <= p < j
    && (forall r :: i <= r < j ==> Abs(a[r][i]) <= Abs(a[p][i]))
    && (forall r :: i <= r < p ==> Abs(a[r][i]) < Abs(a[p][i]))
  }

  /** The pivot search finds the earliest row of maximal |entry| in its column. */
  lemma {:induction false} PivoAteEhPivo(a: Matriz, m: nat, i: nat, j: nat)
    requires Retangular(a, m) && i < m && i < j <= |a|
    ensures EhPivo(a, m, i, j, PivoAte(a, m, i, j))
    decreases j
  {
    if j > i + 1 {
      PivoAteEhPivo(a, m, i, j - 1);
    }
  }

  /** The earliest row of maximal |entry| is unique, so it is what the search returns. */
  lemma {:induction false} PivoUnico(a: Matriz, m: nat, i: nat, p: nat)
    requires Retangular(a, m) && i < m && i < |a|
    requires EhPivo(a, m, i, |a|, p)
    ensures p == Pivo(a, m, i)
  {
    PivoAteEhPivo(a, m, i, |a|);
  }

  // ---------------------------------------------------------------------------
  // Row operations
  // ---------------------------------------------------------------------------

  /** Exchanges the elements at i and p (the destructuring swap of rows or of entries). */
  function Trocar<T>(s: seq<T>, i: nat, p: nat): (r: seq<T>)
    requires i < |s| && p < |s|
    ensures |r| == |s|
  {
    s[i := s[p]][p := s[i]]
  }

  /** The pivot row with entries i..k-1 divided by the pivot. */
  function Normalizar(linha: seq<real>, i: nat, k: nat, pivo: real): (r: seq<real>)
    requires pivo != 0.0
    ensures |r| == |linha|
  {
    seq(|linha|, c requires 0 <= c < |linha| => if i <= c < k then linha[c] / pivo else linha[c])
  }

  /** Row `linha` with `fator` times the pivot row subtracted from entries i..k-1. */
  function Subtrair(linha: seq<real>, pivoLinha: seq<real>, i: nat, k: nat, fator: real): (r: seq<real>)
    requires |pivoLinha| == |linha|
    ensures |r| == |linha|
  {
    seq(|linha|, c requires 0 <= c < |linha| => if i <= c < k then linha[c] - fator * pivoLinha[c] else linha[c])
  }

  /** The coefficient rows after eliminating column i from rows 0..j-1 (other than i). */
  function EliminarAte(a: Matriz, m: nat, i: nat, j: nat): (r: Matriz)
    requires Retangular(a, m) && i < |a| && i < m
    ensures |r| == |a| && Retangular(r, m)
  {
    seq(|a|, q requires 0 <= q < |a| =>
      if q < j && q != i then Subtrair(a[q], a[i], i, m, a[q][i]) else a[q])
  }

  /** The right-hand side after eliminating column i from rows 0..j-1 (other than i). */
  function EliminarAteB(a: Matriz, b: seq<real>, m: nat, i: nat, j: nat): (r: seq<real>)
    requires Retangular(a, m) && |b| == |a| && i < |a| && i < m
    ensures |r| == |b|
  {
    seq(|b|, q requires 0 <= q < |b| => if q < j && q != i then b[q] - a[q][i] * b[i] else b[q])
  }

  /** The state right after the swap of column i's step. */
  function Trocado(e: Estado, m: nat, i: nat): (r: Estado)
    requires Coluna(e, m, i)
    ensures BemFormado(r, m) && |r.a| == |e.a|
  {
    var p := Pivo(e.a, m, i);
    Estado(Trocar(e.a, i, p), Trocar(e.b, i, p))
  }

  /** Whether column i is skipped: its pivot, once swapped into place, is below 1e-10. */
  predicate Pulada(e: Estado, m: nat, i: nat)
    requires Coluna(e, m, i)
  {
    Abs(Trocado(e, m, i).a[i][i]) < LimitePivo
  }

  /** The state after normalising the pivot row of a non-skipped column i. */
  function Normalizado(e: Estado, m: nat, i: nat): (r: Estado)
    requires Coluna(e, m, i) && !Pulada(e, m, i)
    ensures BemFormado(r, m) && |r.a| == |e.a|
  {
    var t := Trocado(e, m, i);
    var pivo := t.a[i][i];
    Estado(t.a[i := Normalizar(t.a[i], i, m, pivo)], t.b[i := t.b[i] / pivo])
  }

  /** One pass of the outer loop, for column i. */
  function Passo(e: Estado, m: nat, i: nat): (r: Estado)
    requires Coluna(e, m, i)
    ensures BemFormado(r, m) && |r.a| == |e.a|
  {
    if Pulada(e, m, i) then Trocado(e, m, i)
    else
      var nz := Normalizado(e, m, i);
      Estado(EliminarAte(nz.a, m, i, |nz.a|), EliminarAteB(nz.a, nz.b, m, i, |nz.a|))
  }

  /** The state after the first k columns have been processed. */
  function Reduzir(e: Estado, m: nat, k: nat): (r: Estado)
    requires BemFormado(e, m) && k <= |e.a| && k <= m
    ensures BemFormado(r, m) && |r.a| == |e.a|
    decreases k
  {
    if k == 0 then e else Passo(Reduzir(e, m, k - 1), m, k - 1)
  }

  // ---------------------------------------------------------------------------
  // Consistency check
  // ---------------------------------------------------------------------------

  /** The vector the check multiplies by: B[j] where it exists, 0 past the end of B. */
  function Vetor(b: seq<real>, m: nat): (x: seq<real>)
    ensures |x| == m
  {
    seq(m, j requires 0 <= j < m => if j < |b| then b[j] else 0.0)
  }

  /** u[0]*x[0] + ... + u[k-1]*x[k-1], accumulated from the left. */
  function Produto(u: seq<real>, x: seq<real>, k: nat): real
    requires k <= |u| && k <= |x|
  {
    if k == 0 then 0.0 else Produto(u, x, k - 1) + u[k - 1] * x[k - 1]
  }

  /** Row r fails the check: its residual exceeds 1e-5 and so does |B[r]|. */
  predicate LinhaFalha(e: Estado, m: nat, r: nat)
    requires BemFormado(e, m) && r < |e.a|
  {
    Abs(Produto(e.a[r], Vetor(e.b, m), m) - e.b[r]) > Tolerancia && Abs(e.b[r]) > Tolerancia
  }

  /** Some row fails the check. */
  predicate AlgumaFalha(e: Estado, m: nat)
    requires BemFormado(e, m)
  {
    exists r :: 0 <= r < |e.a| && LinhaFalha(e, m, r)
  }

  /** The input the solver accepts: at least one row (it reads the column count from the
      first row), rows of equal length and one right-hand entry per row. */
  predicate Entrada(equacoes: Matriz, resultados: seq<real>) {
    |equacoes| >= 1 && Retangular(equacoes, |equacoes[0]|) && |resultados| == |equacoes|
  }

  /** The number of columns the solver processes: min(n, m). */
  function Limite(equacoes: Matriz): nat
    requires |equacoes| >= 1
  {
    if |equacoes| < |equacoes[0]| then |equacoes| else |equacoes[0]|
  }

  /** The system after the elimination loop. */
  function Reduzido(equacoes: Matriz, resultados: seq<real>): (e: Estado)
    requires Entrada(equacoes, resultados)
    ensures BemFormado(e, |equacoes[0]|) && |e.a| == |equacoes|
  {
    Reduzir(Estado(equacoes, resultados), |equacoes[0]|, Limite(equacoes))
  }

  /** What resolverSistemaLinear returns: null when a row of the reduced system fails the
      check, otherwise the first min(n, m) entries of the reduced right-hand side. */
  function Resolver(equacoes: Matriz, resultados: seq<real>): (r: Option<seq<real>>)
    requires Entrada(equacoes, resultados)
    ensures r.Some? ==> |r.value| == Limite(equacoes)
  {
    var e := Reduzido(equacoes, resultados);
    if AlgumaFalha(e, |equacoes[0]|) then None else Some(e.b[..Limite(equacoes)])
  }

  // ---------------------------------------------------------------------------
  // Loop-step facts
  // ---------------------------------------------------------------------------

  lemma {:induction false} NormalizarInicio(linha: seq<real>, i: nat, pivo: real)
    requires pivo != 0.0
    ensures Normalizar(linha, i, i, pivo) == linha
  {
  }

  lemma {:induction false} NormalizarPasso(linha: seq<real>, i: nat, k: nat, pivo: real)
    requires pivo != 0.0 && i <= k < |linha|
    ensures Normalizar(linha, i, k, pivo)[k := linha[k] / pivo] == Normalizar(linha, i, k + 1, pivo)
  {
    var antes, depois := Normalizar(linha, i, k, pivo), Normalizar(linha, i, k + 1, pivo);
    forall c | 0 <= c < |linha| ensures antes[k := linha[k] / pivo][c] == depois[c] {
    }
  }

  lemma {:induction false} SubtrairInicio(linha: seq<real>, pivoLinha: seq<real>, i: nat, fator: real)
    requires |pivoLinha| == |linha|
    ensures Subtrair(linha, pivoLinha, i, i, fator) == linha
  {
  }

  lemma {:induction false} SubtrairPasso(linha: seq<real>, pivoLinha: seq<real>, i: nat, k: nat, fator: real)
    requires |pivoLinha| == |linha| && i <= k < |linha|
    ensures Subtrair(linha, pivoLinha, i, k, fator)[k := linha[k] - fator * pivoLinha[k]]
         == Subtrair(linha, pivoLinha, i, k + 1, fator)
  {
    var antes, depois := Subtrair(linha, pivoLinha, i, k, fator), Subtrair(linha, pivoLinha, i, k + 1, fator);
    forall c | 0 <= c < |linha| ensures antes[k := linha[k] - fator * pivoLinha[k]][c] == depois[c] {
    }
  }

  lemma {:induction false} EliminarAtePasso(a: Matriz, m: nat, i: nat, j: nat)
    requires Retangular(a, m) && i < |a| && i < m && j < |a| && j != i
    ensures EliminarAte(a, m, i, j)[j := Subtrair(a[j], a[i], i, m, a[j][i])] == EliminarAte(a, m, i, j + 1)
  {
  }

  lemma {:induction false} EliminarAteBPasso(a: Matriz, b: seq<real>, m: nat, i: nat, j: nat)
    requires Retangular(a, m) && |b| == |a| && i < |a| && i < m && j < |a| && j != i
    ensures EliminarAteB(a, b, m, i, j)[j := b[j] - a[j][i] * b[i]] == EliminarAteB(a, b, m, i, j + 1)
  {
    var antes, depois := EliminarAteB(a, b, m, i, j), EliminarAteB(a, b, m, i, j + 1);
    forall q | 0 <= q < |b| ensures antes[j := b[j] - a[j][i] * b[i]][q] == depois[q] {
    }
  }

  lemma {:induction false} EliminarAtePivo(a: Matriz, b: seq<real>, m: nat, i: nat)
    requires Retangular(a, m) && |b| == |a| && i < |a| && i < m
    ensures EliminarAte(a, m, i, i + 1) == EliminarAte(a, m, i, i)
    ensures EliminarAteB(a, b, m, i, i + 1) == EliminarAteB(a, b, m, i, i)
  {
  }

  lemma {:induction false} EliminarAteInicio(a: Matriz, b: seq<real>, m: nat, i: nat)
    requires Retangular(a, m) && |b| == |a| && i < |a| && i < m
    ensures EliminarAte(a, m, i, 0) == a
    ensures EliminarAteB(a, b, m, i, 0) == b
  {
  }

  // ---------------------------------------------------------------------------
  // The solver
  // ---------------------------------------------------------------------------

  /** resolverSistemaLinear: the result is the one Resolver describes, and the arguments,
      being values, are left as they were. */
  method ResolverSistemaLinear(equacoes: Matriz, resultados: seq<real>) returns (r: Option<seq<real>>)
    requires Entrada(equacoes, resultados)
    ensures r == Resolver(equacoes, resultados)
  {
    var n := |equacoes|;
    var m := |equacoes[0]|;
    var a := new seq<real>[n](q requires 0 <= q < n => equacoes[q]);
    var b := new real[n](q requires 0 <= q < n => resultados[q]);
    assert a[..] == equacoes && b[..] == resultados;
    var lim := if n < m then n else m;
    assert lim == Limite(equacoes);
    Escalonar(a, b, m, lim);
    assert Estado(a[..], b[..]) == Reduzido(equacoes, resultados);

    var falha := Verificar(a, b, m);
    if falha {
      r := None;
    } else {
      r := Some(b[..lim]);
    }
  }

  /** The outer loop over the first lim columns. */
  method Escalonar(a: array<seq<real>>, b: array<real>, m: nat, lim: nat)
    requires a.Length == b.Length && Retangular(a[..], m) && lim <= a.Length && lim <= m
    modifies a, b
    ensures Estado(a[..], b[..]) == Reduzir(old(Estado(a[..], b[..])), m, lim)
  {
    ghost var inicial := Estado(a[..], b[..]);
    for i := 0 to lim
      invariant Estado(a[..], b[..]) == Reduzir(inicial, m, i)
    {
      ProcessarColuna(a, b, m, i);
    }
  }

  /** One pass of the outer loop: pivot search, swap, and, unless the pivot is below the
      threshold, normalisation of the pivot row and elimination of column i. */
  method ProcessarColuna(a: array<seq<real>>, b: array<real>, m: nat, i: nat)
    requires a.Length == b.Length && Retangular(a[..], m) && i < a.Length && i < m
    modifies a, b
    ensures Estado(a[..], b[..]) == Passo(old(Estado(a[..], b[..])), m, i)
  {
    ghost var antes := Estado(a[..], b[..]);
    var maxRow := Pivotear(a, m, i);
    a[i], a[maxRow] := a[maxRow], a[i];
    b[i], b[maxRow] := b[maxRow], b[i];
    assert Estado(a[..], b[..]) == Trocado(antes, m, i);
    if Abs(a[i][i]) >= LimitePivo {
      NormalizarLinha(a, b, m, i);
      assert Estado(a[..], b[..]) == Normalizado(antes, m, i);
      EliminarColuna(a, b, m, i);
    }
  }

  /** The consistency check: whether some row of the reduced system fails it. */
  method Verificar(a: array<seq<real>>, b: array<real>, m: nat) returns (falha: bool)
    requires a.Length == b.Length && Retangular(a[..], m)
    ensures falha == AlgumaFalha(Estado(a[..], b[..]), m)
  {
    ghost var e := Estado(a[..], b[..]);
    for i := 0 to a.Length
      invariant forall q :: 0 <= q < i ==> !LinhaFalha(e, m, q)
    {
      var soma := 0.0;
      for j := 0 to m
        invariant soma == Produto(a[i], Vetor(b[..], m), j)
      {
        soma := soma + a[i][j] * (if j < b.Length then b[j] else 0.0);
      }
      if Abs(soma - b[i]) > Tolerancia && Abs(b[i]) > Tolerancia {
        assert LinhaFalha(e, m, i);
        return true;
      }
    }
    return false;
  }

  /** The pivot search of column i. */
  method Pivotear(a: array<seq<real>>, m: nat, i: nat) returns (maxRow: nat)
    requires Retangular(a[..], m) && i < a.Length && i < m
    ensures maxRow == Pivo(a[..], m, i)
  {
    maxRow := i;
    for j := i + 1 to a.Length
      invariant maxRow == PivoAte(a[..], m, i, j)
    {
      if Abs(a[j][i]) > Abs(a[maxRow][i]) {
        maxRow := j;
      }
    }
  }

  /** Divides entries i..m-1 of the pivot row, and B[i], by the pivot. */
  method NormalizarLinha(a: array<seq<real>>, b: array<real>, m: nat, i: nat)
    requires a.Length == b.Length && Retangular(a[..], m) && i < a.Length && i < m
    requires Abs(a[i][i]) >= LimitePivo
    modifies a, b
    ensures a[..] == old(a[..])[i := Normalizar(old(a[i]), i, m, old(a[i][i]))]
    ensures b[..] == old(b[..])[i := old(b[i]) / old(a[i][i])]
  {
    var pivot := a[i][i];
    ghost var linha := a[i];
    ghost var a0 := a[..];
    NormalizarInicio(linha, i, pivot);
    assert a0 == a0[i := linha];
    for j := i to m
      invariant a[..] == a0[i := Normalizar(linha, i, j, pivot)]
      invariant b[..] == old(b[..])
    {
      NormalizarPasso(linha, i, j, pivot);
      a[i] := a[i][j := a[i][j] / pivot];
    }
    b[i] := b[i] / pivot;
  }

  /** Subtracts, from every row but the pivot row, its column-i entry times the pivot row. */
  method EliminarColuna(a: array<seq<real>>, b: array<real>, m: nat, i: nat)
    requires a.Length == b.Length && Retangular(a[..], m) && i < a.Length && i < m
    modifies a, b
    ensures a[..] == EliminarAte(old(a[..]), m, i, a.Length)
    ensures b[..] == EliminarAteB(old(a[..]), old(b[..]), m, i, a.Length)
  {
    ghost var a0, b0 := a[..], b[..];
    EliminarAteInicio(a0, b0, m, i);
    for j := 0 to a.Length
      invariant a[..] == EliminarAte(a0, m, i, j)
      invariant b[..] == EliminarAteB(a0, b0, m, i, j)
    {
      if j != i {
        assert a[j] == a0[j] && a[i] == a0[i] && b[j] == b0[j] && b[i] == b0[i];
        var factor := a[j][i];
        assert factor == a0[j][i];
        EliminarLinha(a, m, i, j, factor);
        EliminarAtePasso(a0, m, i, j);
        assert b[j] == b0[j] && b[i] == b0[i];
        assert b[j] - factor * b[i] == b0[j] - a0[j][i] * b0[i];
        b[j] := b[j] - factor * b[i];
        EliminarAteBPasso(a0, b0, m, i, j);
      } else {
        EliminarAtePivo(a0, b0, m, i);
      }
    }
  }

  /** Row j minus `factor` times the pivot row, over columns i..m-1. */
  method EliminarLinha(a: array<seq<real>>, m: nat, i: nat, j: nat, factor: real)
    requires Retangular(a[..], m) && i < a.Length && j < a.Length && i != j && i < m
    modifies a
    ensures a[..] == old(a[..])[j := Subtrair(old(a[j]), old(a[i]), i, m, factor)]
  {
    ghost var linha, pivoLinha := a[j], a[i];
    ghost var a0 := a[..];
    SubtrairInicio(linha, pivoLinha, i, factor);
    assert a0 == a0[j := linha];
    for k := i to m
      invariant a[..] == a0[j := Subtrair(linha, pivoLinha, i, k, factor)]
    {
      assert a[i] == pivoLinha && a[j] == Subtrair(linha, pivoLinha, i, k, factor);
      SubtrairPasso(linha, pivoLinha, i, k, factor);
      assert a[j][k] == linha[k] && a[i][k] == pivoLinha[k];
      assert factor * a[i][k] == factor * pivoLinha[k];
      assert a[j][k] - factor * a[i][k] == linha[k] - factor * pivoLinha[k];
      a[j] := a[j][k := a[j][k] - factor * a[i][k]];
    }
  }
}
