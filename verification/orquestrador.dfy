/**
  The blend orchestrator of the calculator page (calcularFormulacaoOtimizada in
  src/pages/CalculadoraPage.tsx), second half: the check that every targeted nutrient has
  a source, the iterative fallback's result, and the whole request — validation, the exact
  path through the linear solver, and the fallback — proved equal to one specification
  function whose outcomes are then characterised.
*/
module Orquestrador {
  import opened Domain
  import opened Calculadora
  import opened SistemaLinear
  import opened SistemaLinearCorrecao
  import opened Formulacao
  import opened Refinador

  // ---------------------------------------------------------------------------
  // Sources of the targeted nutrients
  // ---------------------------------------------------------------------------

  /** Some selected ingredient has a positive percentage of `nu`. */
  predicate TemFonte(ingr: seq<Ingrediente>, nu: Nutrient) {
    exists i :: 0 <= i < |ingr| && ingr[i].Fraction(nu) > 0.0
  }

  /** The ingredients with a positive percentage of `nu`, in their selection order (the
      filter of ingredientesPorNutriente; its sort is left out, only emptiness is used). */
  function Fornecedores(ingr: seq<Ingrediente>, nu: Nutrient): (f: seq<Ingrediente>)
    ensures forall x :: x in f <==> x in ingr && x.Fraction(nu) > 0.0
    ensures |f| == 0 <==> !TemFonte(ingr, nu)
    decreases |ingr|
  {
    if |ingr| == 0 then []
    else
      var resto := Fornecedores(ingr[1..], nu);
      assert forall x :: x in ingr <==> x == ingr[0] || x in ingr[1..];
      assert TemFonte(ingr, nu) <==> ingr[0].Fraction(nu) > 0.0 || TemFonte(ingr[1..], nu) by {
        if TemFonte(ingr[1..], nu) {
          var i :| 0 <= i < |ingr[1..]| && ingr[1..][i].Fraction(nu) > 0.0;
          assert ingr[i + 1] == ingr[1..][i];
        }
        if TemFonte(ingr, nu) && ingr[0].Fraction(nu) <= 0.0 {
          var i :| 0 <= i < |ingr| && ingr[i].Fraction(nu) > 0.0;
          assert ingr[1..][i - 1] == ingr[i];
        }
      }
      if ingr[0].Fraction(nu) > 0.0 then [ingr[0]] + resto else resto
  }

  /** The first targeted nutrient, from position `desde` on, that no ingredient provides. */
  function PrimeiroSemFonte(ingr: seq<Ingrediente>, alvos: seq<Nutrient>, desde: nat): (r: Option<Nutrient>)
    requires desde <= |alvos|
    ensures r.None? <==> forall t :: desde <= t < |alvos| ==> TemFonte(ingr, alvos[t])
    ensures r.Some? ==> exists t :: (desde <= t < |alvos| && alvos[t] == r.value && !TemFonte(ingr, r.value)
                                     && forall u :: desde <= u < t ==> TemFonte(ingr, alvos[u]))
    decreases |alvos| - desde
  {
    if desde == |alvos| then None
    else if !TemFonte(ingr, alvos[desde]) then Some(alvos[desde])
    else PrimeiroSemFonte(ingr, alvos, desde + 1)
  }

  /** The loop that fails on the first targeted nutrient with no supplying ingredient. */
  method VerificarFontes(ingr: seq<Ingrediente>, alvos: seq<Nutrient>) returns (r: Option<Nutrient>)
    ensures r == PrimeiroSemFonte(ingr, alvos, 0)
  {
    for t := 0 to |alvos|
      invariant PrimeiroSemFonte(ingr, alvos, 0) == PrimeiroSemFonte(ingr, alvos, t)
    {
      var fornecedores := Fornecedores(ingr, alvos[t]);
      if |fornecedores| == 0 {
        return Some(alvos[t]);
      }
    }
    r := None;
  }

  // ---------------------------------------------------------------------------
  // The iterative fallback's result
  // ---------------------------------------------------------------------------

  /** The lines built from the refiner's final allocation (none when a rescale divided
      by zero: every entry is then NaN and fails the 0.1 test). */
  function ItensIterativos(ingr: seq<Ingrediente>, pesoTotal: real, fim: Option<seq<real>>): (itens: seq<ItemResultado>)
    requires pesoTotal > 0.0 && (fim.Some? ==> |fim.value| == |ingr|)
  {
    if fim.Some? then Selecionar(ingr, fim.value, pesoTotal, Mantidos(fim.value, false, |ingr|)) else []
  }

  /** The fallback's result: the lines, the composition of their rounded masses divided by
      the requested mass, their total rounded mass and their total cost; a success when
      every target is within one point, otherwise the failure carrying the N and K gaps. */
  function ResultadoIterativo(ingr: seq<Ingrediente>, alvo: Composicao, alvos: seq<Nutrient>, pesoTotal: real,
                              fim: Option<seq<real>>): ResultadoCalculo
    requires pesoTotal > 0.0 && (fim.Some? ==> |fim.value| == |ingr|)
  {
    Concluido(ItensIterativos(ingr, pesoTotal, fim), alvo, alvos, pesoTotal)
  }

  /** The fallback's result for its lines. */
  function Concluido(itens: seq<ItemResultado>, alvo: Composicao, alvos: seq<Nutrient>, pesoTotal: real): ResultadoCalculo
    requires pesoTotal > 0.0
  {
    var comp := ComposicaoArredondada(Selecao(itens), pesoTotal);
    var peso := Sum(Quantidades(Selecao(itens)));
    var custo := Sum(Custos(itens));
    if DentroDaTolerancia(comp, alvo, alvos, 1.0) then
      ResultadoCalculo(true, CalculadaMetodoIterativo, itens, comp, peso, custo)
    else
      ResultadoCalculo(false, PrecisaoInsuficiente(Abs(comp.n - alvo.n), Abs(comp.k - alvo.k)), itens, comp, peso, custo)
  }

  /** The fallback: refine, turn the final allocation into lines, recompute the
      composition and the mass, and check the one-point tolerance. */
  method CaminhoIterativo(ingr: seq<Ingrediente>, alvo: Composicao, alvos: seq<Nutrient>, pesoTotal: real,
                          draws: seq<seq<real>>) returns (r: ResultadoCalculo)
    requires pesoTotal > 0.0 && |ingr| > 0 && Sorteios(draws, |ingr|)
    ensures r == ResultadoIterativo(ingr, alvo, alvos, pesoTotal, Refinado(|ingr|, pesoTotal, draws, MaxIteracoes))
  {
    var fim := Refinar(|ingr|, pesoTotal, draws);
    var itens: seq<ItemResultado> := [];
    var custoTotal := 0.0;
    if fim.Some? {
      var pesoFinal;
      itens, custoTotal, pesoFinal := ColetarItens(ingr, fim.value, pesoTotal, false);
    }
    assert itens == ItensIterativos(ingr, pesoTotal, fim) && custoTotal == Sum(Custos(itens));
    r := Concluir(itens, custoTotal, alvo, alvos, pesoTotal);
  }

  /** The fallback's last steps: recompute the composition and the mass of the lines and
      check the one-point tolerance. */
  method Concluir(itens: seq<ItemResultado>, custoTotal: real, alvo: Composicao, alvos: seq<Nutrient>, pesoTotal: real)
    returns (r: ResultadoCalculo)
    requires pesoTotal > 0.0 && custoTotal == Sum(Custos(itens))
    ensures r == Concluido(itens, alvo, alvos, pesoTotal)
  {
    var comp, pesoVerificado := Compor(itens, pesoTotal);
    var precisa := PrecisaMelhorar(comp, alvo, alvos, 1.0);
    if precisa {
      r := ResultadoCalculo(false, PrecisaoInsuficiente(Abs(comp.n - alvo.n), Abs(comp.k - alvo.k)),
                            itens, comp, pesoVerificado, custoTotal);
    } else {
      r := ResultadoCalculo(true, CalculadaMetodoIterativo, itens, comp, pesoVerificado, custoTotal);
    }
  }

  // ---------------------------------------------------------------------------
  // The exact attempt
  // ---------------------------------------------------------------------------

  /** The coefficient rows of the exact path's system. */
  function Equacoes(ingr: seq<Ingrediente>, alvos: seq<Nutrient>): (e: Matriz)
    ensures |e| == |ingr| && Retangular(e, |ingr|)
  {
    seq(|ingr|, r requires 0 <= r < |ingr| => Linha(ingr, alvos, r))
  }

  /** Row r of that system: the mass equation, a nutrient equation or a padding equation. */
  function Linha(ingr: seq<Ingrediente>, alvos: seq<Nutrient>, r: nat): (l: seq<real>)
    ensures |l| == |ingr|
  {
    if r == 0 then Uns(|ingr|)
    else if r <= |alvos| then Coeficientes(ingr, alvos[r - 1])
    else Preenchimento(|ingr|, r)
  }

  /** The right-hand side of the exact path's system. */
  function Resultados(ingr: seq<Ingrediente>, alvo: Composicao, alvos: seq<Nutrient>, pesoTotal: real): (b: seq<real>)
    ensures |b| == |ingr|
  {
    seq(|ingr|, r requires 0 <= r < |ingr| =>
      if r == 0 then pesoTotal
      else if r <= |alvos| then alvo.Get(alvos[r - 1]) / 100.0 * pesoTotal
      else 0.0)
  }

  /** The built system is exactly (Equacoes, Resultados): it is determined by its inputs. */
  lemma {:induction false} SistemaUnico(ingr: seq<Ingrediente>, alvo: Composicao, alvos: seq<Nutrient>, pesoTotal: real,
                                        equacoes: Matriz, resultados: seq<real>)
    requires SistemaMontado(ingr, alvo, alvos, pesoTotal, equacoes, resultados)
    ensures equacoes == Equacoes(ingr, alvos)
    ensures resultados == Resultados(ingr, alvo, alvos, pesoTotal)
  {
    var e := Equacoes(ingr, alvos);
    var b := Resultados(ingr, alvo, alvos, pesoTotal);
    forall r | 0 <= r < |ingr| ensures equacoes[r] == e[r] && resultados[r] == b[r] {
      if r == 0 {
      } else if r <= |alvos| {
        assert equacoes[(r - 1) + 1] == Coeficientes(ingr, alvos[r - 1]);
        assert resultados[(r - 1) + 1] == alvo.Get(alvos[r - 1]) / 100.0 * pesoTotal;
      } else {
        assert equacoes[r] == Preenchimento(|ingr|, r);
      }
    }
  }

  /** The specified system satisfies the description of the built one. */
  lemma {:induction false} SistemaEspecificado(ingr: seq<Ingrediente>, alvo: Composicao, alvos: seq<Nutrient>, pesoTotal: real)
    requires |alvos| < |ingr|
    ensures SistemaMontado(ingr, alvo, alvos, pesoTotal, Equacoes(ingr, alvos), Resultados(ingr, alvo, alvos, pesoTotal))
  {
    var e := Equacoes(ingr, alvos);
    var b := Resultados(ingr, alvo, alvos, pesoTotal);
    forall t | 0 <= t < |alvos|
      ensures e[t + 1] == Coeficientes(ingr, alvos[t]) && b[t + 1] == alvo.Get(alvos[t]) / 100.0 * pesoTotal
    {
      assert (t + 1) - 1 == t;
    }
  }

  /** What the exact attempt yields: None when the request is not eligible, the solver
      gives up, some entry of the solution is below -0.01, or the exact path falls through. */
  function TentativaExata(ingr: seq<Ingrediente>, alvo: Composicao, alvos: seq<Nutrient>, pesoTotal: real)
    : Option<ResultadoCalculo>
    requires pesoTotal > 0.0
  {
    if !Elegivel(|ingr|, |alvos|) then None
    else
      SistemaEspecificado(ingr, alvo, alvos, pesoTotal);
      SistemaQuadrado(ingr, alvo, alvos, pesoTotal, Equacoes(ingr, alvos), Resultados(ingr, alvo, alvos, pesoTotal));
      var sol := Resolver(Equacoes(ingr, alvos), Resultados(ingr, alvo, alvos, pesoTotal));
      if sol.None? || !Aceitavel(sol.value) then None
      else ResultadoExato(ingr, alvo, alvos, pesoTotal, sol.value)
  }

  // ---------------------------------------------------------------------------
  // The whole request
  // ---------------------------------------------------------------------------

  /** calcularFormulacaoOtimizada: no ingredient or no positive target fails at once; an
      eligible request whose exact attempt succeeds returns it; otherwise a targeted
      nutrient without a source fails, and the rest is the iterative fallback. */
  function FormulacaoOtimizada(ingr: seq<Ingrediente>, alvo: Composicao, pesoTotal: real, draws: seq<seq<real>>)
    : ResultadoCalculo
    requires pesoTotal > 0.0 && Sorteios(draws, |ingr|)
  {
    var alvos := NutrientesAlvo(alvo);
    if |ingr| == 0 then Falha(SelecioneIngrediente)
    else if |alvos| == 0 then Falha(DefinaAlvo)
    else
      var exata := TentativaExata(ingr, alvo, alvos, pesoTotal);
      if exata.Some? then exata.value
      else
        var semFonte := PrimeiroSemFonte(ingr, alvos, 0);
        if semFonte.Some? then Falha(SemFonte(semFonte.value))
        else ResultadoIterativo(ingr, alvo, alvos, pesoTotal, Refinado(|ingr|, pesoTotal, draws, MaxIteracoes))
  }

  /** solucao.every(x => x >= -0.01). */
  method TodosAceitaveis(sol: seq<real>) returns (ok: bool)
    ensures ok == Aceitavel(sol)
  {
    for i := 0 to |sol|
      invariant forall j :: 0 <= j < i ==> sol[j] >= -0.01
    {
      if sol[i] < -0.01 {
        return false;
      }
    }
    ok := true;
  }

  /** The exact attempt: build the system, solve it, and take the exact path. */
  method TentarExato(ingr: seq<Ingrediente>, alvo: Composicao, alvos: seq<Nutrient>, pesoTotal: real)
    returns (r: Option<ResultadoCalculo>)
    requires pesoTotal > 0.0
    ensures r == TentativaExata(ingr, alvo, alvos, pesoTotal)
  {
    r := None;
    if |ingr| <= 5 && |alvos| <= 3 {
      var numEquacoes := |alvos| + 1;
      var numVariaveis := |ingr|;
      if numEquacoes <= numVariaveis {
        var equacoes, resultados := MontarSistema(ingr, alvo, alvos, pesoTotal);
        SistemaUnico(ingr, alvo, alvos, pesoTotal, equacoes, resultados);
        SistemaQuadrado(ingr, alvo, alvos, pesoTotal, equacoes, resultados);
        var solucao := ResolverSistemaLinear(equacoes, resultados);
        if solucao.Some? {
          var aceitavel := TodosAceitaveis(solucao.value);
          if aceitavel {
            r := CaminhoExato(ingr, alvo, alvos, pesoTotal, solucao.value);
          }
        }
      }
    }
  }

  /** The pushes that list the nutrients with a positive target. */
  method IdentificarAlvos(alvo: Composicao) returns (alvos: seq<Nutrient>)
    ensures alvos == NutrientesAlvo(alvo)
  {
    alvos := [];
    if alvo.n > 0.0 { alvos := alvos + [N]; }
    if alvo.p > 0.0 { alvos := alvos + [P]; }
    if alvo.k > 0.0 { alvos := alvos + [K]; }
    if alvo.s > 0.0 { alvos := alvos + [S]; }
    if alvo.ca > 0.0 { alvos := alvos + [Ca]; }
  }

  /** The request, step by step as the page runs it. */
  method CalcularFormulacaoOtimizada(ingr: seq<Ingrediente>, alvo: Composicao, pesoTotal: real, draws: seq<seq<real>>)
    returns (r: ResultadoCalculo)
    requires pesoTotal > 0.0 && Sorteios(draws, |ingr|)
    ensures r == FormulacaoOtimizada(ingr, alvo, pesoTotal, draws)
  {
    if |ingr| == 0 {
      return Falha(SelecioneIngrediente);
    }
    var alvos := IdentificarAlvos(alvo);
    if |alvos| == 0 {
      return Falha(DefinaAlvo);
    }
    var exata := TentarExato(ingr, alvo, alvos, pesoTotal);
    if exata.Some? {
      return exata.value;
    }
    var semFonte := VerificarFontes(ingr, alvos);
    if semFonte.Some? {
      return Falha(SemFonte(semFonte.value));
    }
    r := CaminhoIterativo(ingr, alvo, alvos, pesoTotal, draws);
  }

  // ---------------------------------------------------------------------------
  // What a request can come back with
  // ---------------------------------------------------------------------------

  /** The two validation failures happen exactly when no ingredient is selected, and
      exactly when ingredients are selected but no nutrient has a positive target. */
  lemma {:induction false} FalhasDeValidacao(ingr: seq<Ingrediente>, alvo: Composicao, pesoTotal: real, draws: seq<seq<real>>)
    requires pesoTotal > 0.0 && Sorteios(draws, |ingr|)
    ensures var r := FormulacaoOtimizada(ingr, alvo, pesoTotal, draws);
      && (r.mensagem == SelecioneIngrediente <==> |ingr| == 0)
      && (r.mensagem == DefinaAlvo <==> |ingr| > 0 && forall nu :: alvo.Get(nu) <= 0.0)
  {
    var r := FormulacaoOtimizada(ingr, alvo, pesoTotal, draws);
    var alvos := NutrientesAlvo(alvo);
    NutrientesAlvoSse(alvo);
    if |ingr| > 0 && |alvos| > 0 {
      var exata := TentativaExata(ingr, alvo, alvos, pesoTotal);
      if exata.Some? {
        EstaExata(ingr, alvo, alvos, pesoTotal);
      }
      assert alvos[0] in alvos;
      assert alvo.Get(alvos[0]) > 0.0;
    }
    if |ingr| > 0 && |alvos| == 0 {
      forall nu ensures alvo.Get(nu) <= 0.0 {
        assert nu !in alvos;
      }
    }
  }

  /** The request-level failures (no ingredient, no target, a targeted nutrient without a
      source) carry no line, an all-zero composition, zero mass and zero cost. */
  lemma {:induction false} FalhasVazias(ingr: seq<Ingrediente>, alvo: Composicao, pesoTotal: real, draws: seq<seq<real>>)
    requires pesoTotal > 0.0 && Sorteios(draws, |ingr|)
    ensures var r := FormulacaoOtimizada(ingr, alvo, pesoTotal, draws);
      (r.mensagem == SelecioneIngrediente || r.mensagem == DefinaAlvo || r.mensagem.SemFonte?) ==>
        && !r.sucesso && r.itens == [] && r.composicaoObtida == ZeroComposicao
        && r.pesoTotal == 0.0 && r.custoTotal == 0.0
  {
    var r := FormulacaoOtimizada(ingr, alvo, pesoTotal, draws);
    var alvos := NutrientesAlvo(alvo);
    if |ingr| == 0 || |alvos| == 0 {
    } else if TentativaExata(ingr, alvo, alvos, pesoTotal).Some? {
      EstaExata(ingr, alvo, alvos, pesoTotal);
    } else if PrimeiroSemFonte(ingr, alvos, 0).Some? {
    } else {
      var fim := Refinado(|ingr|, pesoTotal, draws, MaxIteracoes);
      assert r == Concluido(ItensIterativos(ingr, pesoTotal, fim), alvo, alvos, pesoTotal);
      ConcluidoPropriedades(ItensIterativos(ingr, pesoTotal, fim), alvo, alvos, pesoTotal, N);
    }
  }

  /** A result of the exact attempt is a success of the linear system method, for an
      eligible request, with at least one line and a mass within 0.1 of the requested
      mass, every target within 0.5 points unless only one is set, and a cost that is the
      sum of its lines' costs. Its lines are the solver's kept entries, rescaled to exactly
      the requested mass when their total is more than 0.1 off. The attempt yields a result
      exactly when the request is eligible, the solver answers, no entry is below -0.01 and
      the exact path accepts that solution. */
  lemma {:induction false} EstaExata(ingr: seq<Ingrediente>, alvo: Composicao, alvos: seq<Nutrient>, pesoTotal: real)
    requires pesoTotal > 0.0
    ensures var e := TentativaExata(ingr, alvo, alvos, pesoTotal);
      e.Some? ==>
        && Elegivel(|ingr|, |alvos|)
        && Resolver(Equacoes(ingr, alvos), Resultados(ingr, alvo, alvos, pesoTotal)).Some?
        && Aceitavel(Resolver(Equacoes(ingr, alvos), Resultados(ingr, alvo, alvos, pesoTotal)).value)
        && e.value.sucesso && e.value.mensagem == CalculadaSistemaLinear
        && |e.value.itens| > 0 && Abs(e.value.pesoTotal - pesoTotal) <= 0.1
        && (|alvos| == 1 || DentroDaTolerancia(e.value.composicaoObtida, alvo, alvos, 0.5))
        && e.value.custoTotal == Sum(Custos(e.value.itens))
    ensures var e := TentativaExata(ingr, alvo, alvos, pesoTotal);
      e.Some? ==>
        && |Resolver(Equacoes(ingr, alvos), Resultados(ingr, alvo, alvos, pesoTotal)).value| == |ingr|
        && var sol := Resolver(Equacoes(ingr, alvos), Resultados(ingr, alvo, alvos, pesoTotal)).value;
           && (Abs(pesoTotal - PesoMantido(sol)) > 0.1 ==>
                 && e.value.pesoTotal == pesoTotal
                 && e.value.itens == Reescalados(LinhasMantidas(ingr, sol, pesoTotal), pesoTotal / PesoMantido(sol), pesoTotal))
           && (Abs(pesoTotal - PesoMantido(sol)) <= 0.1 ==>
                 && e.value.pesoTotal == PesoMantido(sol)
                 && e.value.itens == LinhasMantidas(ingr, sol, pesoTotal))
    ensures TentativaExata(ingr, alvo, alvos, pesoTotal).Some? <==>
      && Elegivel(|ingr|, |alvos|)
      && Resolver(Equacoes(ingr, alvos), Resultados(ingr, alvo, alvos, pesoTotal)).Some?
      && Aceitavel(Resolver(Equacoes(ingr, alvos), Resultados(ingr, alvo, alvos, pesoTotal)).value)
      && ResultadoExato(ingr, alvo, alvos, pesoTotal,
                        Resolver(Equacoes(ingr, alvos), Resultados(ingr, alvo, alvos, pesoTotal)).value).Some?
  {
    if Elegivel(|ingr|, |alvos|) {
      SistemaEspecificado(ingr, alvo, alvos, pesoTotal);
      SistemaQuadrado(ingr, alvo, alvos, pesoTotal, Equacoes(ingr, alvos), Resultados(ingr, alvo, alvos, pesoTotal));
      var sol := Resolver(Equacoes(ingr, alvos), Resultados(ingr, alvo, alvos, pesoTotal));
      if sol.Some? && Aceitavel(sol.value) {
        ExatoAceito(ingr, alvo, alvos, pesoTotal, sol.value, N);
      }
    }
  }

  /** A successful request was solved either by the linear system (eligible, mass within
      0.1 of the request, targets within 0.5 points unless only one is set) or by the
      iterative method (every targeted nutrient has a source and every target is within
      one point of the recomputed composition). */
  lemma {:induction false} SucessoCaminhos(ingr: seq<Ingrediente>, alvo: Composicao, pesoTotal: real, draws: seq<seq<real>>)
    requires pesoTotal > 0.0 && Sorteios(draws, |ingr|)
    ensures var r := FormulacaoOtimizada(ingr, alvo, pesoTotal, draws);
      var alvos := NutrientesAlvo(alvo);
      r.sucesso ==>
        || (&& r.mensagem == CalculadaSistemaLinear
            && Elegivel(|ingr|, |alvos|)
            && Abs(r.pesoTotal - pesoTotal) <= 0.1
            && (|alvos| == 1 || DentroDaTolerancia(r.composicaoObtida, alvo, alvos, 0.5)))
        || (&& r.mensagem == CalculadaMetodoIterativo
            && (forall t :: 0 <= t < |alvos| ==> TemFonte(ingr, alvos[t]))
            && DentroDaTolerancia(r.composicaoObtida, alvo, alvos, 1.0))
  {
    var alvos := NutrientesAlvo(alvo);
    if |ingr| > 0 && |alvos| > 0 {
      EstaExata(ingr, alvo, alvos, pesoTotal);
    }
  }

  /** Whatever the outcome, the reported cost is the sum of the reported lines' costs. */
  lemma {:induction false} CustoDasLinhas(ingr: seq<Ingrediente>, alvo: Composicao, pesoTotal: real, draws: seq<seq<real>>)
    requires pesoTotal > 0.0 && Sorteios(draws, |ingr|)
    ensures var r := FormulacaoOtimizada(ingr, alvo, pesoTotal, draws);
      r.custoTotal == Sum(Custos(r.itens))
  {
    var r := FormulacaoOtimizada(ingr, alvo, pesoTotal, draws);
    var alvos := NutrientesAlvo(alvo);
    if |ingr| == 0 || |alvos| == 0 {
      assert r.itens == [] && r.custoTotal == 0.0;
    } else if TentativaExata(ingr, alvo, alvos, pesoTotal).Some? {
      EstaExata(ingr, alvo, alvos, pesoTotal);
    } else if PrimeiroSemFonte(ingr, alvos, 0).Some? {
      assert r.itens == [] && r.custoTotal == 0.0;
    } else {
      var fim := Refinado(|ingr|, pesoTotal, draws, MaxIteracoes);
      assert r == Concluido(ItensIterativos(ingr, pesoTotal, fim), alvo, alvos, pesoTotal);
      ConcluidoPropriedades(ItensIterativos(ingr, pesoTotal, fim), alvo, alvos, pesoTotal, N);
    }
  }

  /** The failure for a missing source names a targeted nutrient that no selected
      ingredient provides, and carries no line. */
  lemma {:induction false} SemFonteSignificado(ingr: seq<Ingrediente>, alvo: Composicao, pesoTotal: real,
                                               draws: seq<seq<real>>, nu: Nutrient)
    requires pesoTotal > 0.0 && Sorteios(draws, |ingr|)
    ensures var r := FormulacaoOtimizada(ingr, alvo, pesoTotal, draws);
      r.mensagem == SemFonte(nu) ==> alvo.Get(nu) > 0.0 && !TemFonte(ingr, nu) && !r.sucesso && r.itens == []
  {
    var alvos := NutrientesAlvo(alvo);
    NutrientesAlvoSse(alvo);
    if |ingr| > 0 && |alvos| > 0 {
      EstaExata(ingr, alvo, alvos, pesoTotal);
      var semFonte := PrimeiroSemFonte(ingr, alvos, 0);
      if semFonte.Some? {
        var t :| 0 <= t < |alvos| && alvos[t] == semFonte.value && !TemFonte(ingr, semFonte.value);
        assert alvos[t] in alvos;
      }
    }
  }

  /** Once the exact attempt has not succeeded, a targeted nutrient without a source
      always ends the request with that failure. */
  lemma {:induction false} SemFonteInevitavel(ingr: seq<Ingrediente>, alvo: Composicao, pesoTotal: real,
                                              draws: seq<seq<real>>, nu: Nutrient)
    requires pesoTotal > 0.0 && Sorteios(draws, |ingr|)
    requires alvo.Get(nu) > 0.0 && !TemFonte(ingr, nu) && |ingr| > 0
    requires TentativaExata(ingr, alvo, NutrientesAlvo(alvo), pesoTotal).None?
    ensures FormulacaoOtimizada(ingr, alvo, pesoTotal, draws).mensagem.SemFonte?
    ensures !FormulacaoOtimizada(ingr, alvo, pesoTotal, draws).sucesso
  {
    var alvos := NutrientesAlvo(alvo);
    NutrientesAlvoSse(alvo);
    assert nu in alvos;
    var t :| 0 <= t < |alvos| && alvos[t] == nu;
    assert !TemFonte(ingr, alvos[t]);
  }

  /** The fallback's lines: each holds a selected ingredient at a mass above 0.1 in the
      final allocation, rounded to at least 0.1. */
  lemma {:induction false} LinhasIterativas(ingr: seq<Ingrediente>, pesoTotal: real, fim: Option<seq<real>>)
    requires pesoTotal > 0.0 && (fim.Some? ==> |fim.value| == |ingr|)
    ensures var itens := ItensIterativos(ingr, pesoTotal, fim);
      forall j :: 0 <= j < |itens| ==> itens[j].ingrediente in ingr && itens[j].quantidadeKg >= 0.1
  {
    var itens := ItensIterativos(ingr, pesoTotal, fim);
    if fim.Some? {
      var xs := fim.value;
      var idx := Mantidos(xs, false, |xs|);
      ItensMantidos(ingr, xs, pesoTotal, false);
      assert itens == Selecionar(ingr, xs, pesoTotal, idx);
      forall j | 0 <= j < |itens| ensures itens[j].ingrediente in ingr && itens[j].quantidadeKg >= 0.1 {
        assert itens[j].ingrediente == ingr[idx[j]];
      }
    }
  }

  /** The fallback's result for its lines: it succeeds exactly when every target is
      within one point of the composition; each nutrient of the composition is the
      nutrient mass of the rounded lines divided by the requested (not the reported) mass,
      rounded to two decimals; the reported mass is the total of the rounded lines and the
      cost the total of the lines' costs. */
  lemma {:induction false} ConcluidoPropriedades(itens: seq<ItemResultado>, alvo: Composicao, alvos: seq<Nutrient>,
                                                 pesoTotal: real, nu: Nutrient)
    requires pesoTotal > 0.0
    ensures var r := Concluido(itens, alvo, alvos, pesoTotal);
      && r.itens == itens
      && (r.sucesso <==> DentroDaTolerancia(r.composicaoObtida, alvo, alvos, 1.0))
      && (r.sucesso ==> r.mensagem == CalculadaMetodoIterativo)
      && (!r.sucesso ==> r.mensagem.PrecisaoInsuficiente?)
      && r.composicaoObtida.Get(nu) == Round2(Sum(MassaNutriente(Selecao(itens), nu)) / pesoTotal)
      && r.pesoTotal == Sum(Quantidades(Selecao(itens)))
      && r.custoTotal == Sum(Custos(itens))
  {
    AcumuladoIsRatio(Selecao(itens), nu, pesoTotal);
  }

  /** When a rescale of the fallback has divided by zero there is no line, the
      composition, mass and cost are zero, and the result is a success exactly when every
      target is at most one point. */
  lemma {:induction false} IterativoEnvenenado(ingr: seq<Ingrediente>, alvo: Composicao, pesoTotal: real)
    requires pesoTotal > 0.0
    ensures var alvos := NutrientesAlvo(alvo);
      var r := ResultadoIterativo(ingr, alvo, alvos, pesoTotal, None);
      && r.itens == [] && r.composicaoObtida == ZeroComposicao && r.pesoTotal == 0.0 && r.custoTotal == 0.0
      && (r.sucesso <==> forall t :: 0 <= t < |alvos| ==> alvo.Get(alvos[t]) <= 1.0)
  {
    var alvos := NutrientesAlvo(alvo);
    NutrientesAlvoSse(alvo);
    var r := ResultadoIterativo(ingr, alvo, alvos, pesoTotal, None);
    assert Round2(0.0) == 0.0;
    assert r.composicaoObtida == ZeroComposicao;
    forall t | 0 <= t < |alvos|
      ensures Abs(r.composicaoObtida.Get(alvos[t]) - alvo.Get(alvos[t])) <= 1.0 <==> alvo.Get(alvos[t]) <= 1.0
    {
      assert alvos[t] in alvos;
    }
  }

  /** The exact path's system read back: when the elimination of the built system
      processes every column (no column skipped for a small pivot), the solver returns
      masses that add up to the requested mass and put exactly target / 100 * pesoTotal
      of every targeted nutrient in the blend. */
  lemma {:induction false} ExatoResolveSistema(ingr: seq<Ingrediente>, alvo: Composicao, alvos: seq<Nutrient>, pesoTotal: real)
    requires pesoTotal > 0.0 && Elegivel(|ingr|, |alvos|)
    requires SemPulos(Estado(Equacoes(ingr, alvos), Resultados(ingr, alvo, alvos, pesoTotal)), |ingr|, |ingr|)
    ensures var sol := Resolver(Equacoes(ingr, alvos), Resultados(ingr, alvo, alvos, pesoTotal));
      && sol.Some? && |sol.value| == |ingr|
      && Sum(sol.value) == pesoTotal
      && (forall t :: 0 <= t < |alvos| ==>
            Produto(Coeficientes(ingr, alvos[t]), sol.value, |ingr|) == alvo.Get(alvos[t]) / 100.0 * pesoTotal)
  {
    var E := Equacoes(ingr, alvos);
    var R := Resultados(ingr, alvo, alvos, pesoTotal);
    SistemaEspecificado(ingr, alvo, alvos, pesoTotal);
    SistemaQuadrado(ingr, alvo, alvos, pesoTotal, E, R);
    ResolverQuadradoSemPulos(E, R);
    SistemaSignificado(ingr, alvo, alvos, pesoTotal, E, R, Resolver(E, R).value);
  }

  /** In the same case the solver's masses are the only ones that add up to the requested
      mass, meet every target equation and make every padding row sum to zero. */
  lemma {:induction false} ExatoUnico(ingr: seq<Ingrediente>, alvo: Composicao, alvos: seq<Nutrient>, pesoTotal: real,
                                      y: seq<real>)
    requires pesoTotal > 0.0 && Elegivel(|ingr|, |alvos|)
    requires SemPulos(Estado(Equacoes(ingr, alvos), Resultados(ingr, alvo, alvos, pesoTotal)), |ingr|, |ingr|)
    requires |y| == |ingr| && Sum(y) == pesoTotal
    requires forall t :: 0 <= t < |alvos| ==>
      Produto(Coeficientes(ingr, alvos[t]), y, |ingr|) == alvo.Get(alvos[t]) / 100.0 * pesoTotal
    requires forall r :: |alvos| < r < |ingr| ==> Produto(Preenchimento(|ingr|, r), y, |ingr|) == 0.0
    ensures Resolver(Equacoes(ingr, alvos), Resultados(ingr, alvo, alvos, pesoTotal)) == Some(y)
  {
    var E := Equacoes(ingr, alvos);
    var R := Resultados(ingr, alvo, alvos, pesoTotal);
    SistemaEspecificado(ingr, alvo, alvos, pesoTotal);
    SistemaQuadrado(ingr, alvo, alvos, pesoTotal, E, R);
    ResolverQuadradoSemPulos(E, R);
    SistemaSignificado(ingr, alvo, alvos, pesoTotal, E, R, y);
  }
}
