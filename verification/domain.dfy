/**
  Shared vocabulary of the blend solver: the five macronutrients, the fields of an
  ingredient record the solver reads, records holding one value per nutrient,
  JavaScript's Math.round at a fixed number of decimals, and sums taken in list order.

  Quantities are exact reals; IEEE-754 rounding of the original is abstracted away.
*/
module Domain {

  datatype Option<T> = None | Some(value: T)

  /** The macronutrients a target can name. */
  datatype Nutrient = N | P | K | S | Ca

  /** The fixed order in which the solver visits nutrients: n, p, k, s, ca. */
  const NutrientOrder: seq<Nutrient> := [N, P, K, S, Ca]

  /** One value per nutrient: an achieved composition, a target, or a nullable target. */
  datatype PerNutrient<T> = PerNutrient(n: T, p: T, k: T, s: T, ca: T) {
    function Get(nu: Nutrient): T {
      match nu
      case N => n
      case P => p
      case K => k
      case S => s
      case Ca => ca
    }
  }

  /** Nutrient percentages of a mixture. */
  type Composicao = PerNutrient<real>

  const ZeroComposicao: Composicao := PerNutrient(0.0, 0.0, 0.0, 0.0, 0.0)

  /** The fields of an ingredient record (src/types/database.ts) that the solver reads:
      its identifier, its N/P/K/S/Ca percentages and its cost per tonne. */
  datatype Ingrediente = Ingrediente(id: int, n: real, p: real, k: real, s: real, ca: real, custoPorTon: real) {
    /** The ingredient's percentage of `nu`. */
    function Fraction(nu: Nutrient): real {
      match nu
      case N => n
      case P => p
      case K => k
      case S => s
      case Ca => ca
    }

    /** Cost per kilogram: the cost per tonne divided by 1000. */
    function CustoPorKg(): real {
      custoPorTon / 1000.0
    }
  }

  /** A line of a blend result: an ingredient, its mass, its share of the total and its cost. */
  datatype ItemResultado = ItemResultado(ingrediente: Ingrediente, quantidadeKg: real, porcentagem: real, custoTotal: real)

  function Abs(x: real): real {
    if x < 0.0 then -x else x
  }

  function Max(a: real, b: real): real {
    if a < b then b else a
  }

  function Min(a: real, b: real): real {
    if a < b then a else b
  }

  /** Math.round: the nearest integer, halves rounded towards +infinity. */
  function RoundInt(x: real): (r: int)
    ensures x - 0.5 < r as real <= x + 0.5
  {
    (x + 0.5).Floor
  }

  /** Math.round(x * 100) / 100: rounding to two decimals. */
  function Round2(x: real): (r: real)
    ensures Abs(r - x) <= 0.005
    ensures x >= 0.0 ==> r >= 0.0
  {
    RoundInt(x * 100.0) as real / 100.0
  }

  /** Math.round(x * 10) / 10: rounding to one decimal. */
  function Round1(x: real): (r: real)
    ensures Abs(r - x) <= 0.05
    ensures x >= 0.0 ==> r >= 0.0
    ensures x >= 0.1 ==> r >= 0.1
  {
    RoundInt(x * 10.0) as real / 10.0
  }

  /** The sum of `s`, accumulated from the first element to the last (Array.reduce order). */
  function Sum(s: seq<real>): real {
    if |s| == 0 then 0.0 else Sum(s[..|s| - 1]) + s[|s| - 1]
  }

  /** Every element of `s` multiplied by `c`. */
  function Scale(s: seq<real>, c: real): (r: seq<real>)
    ensures |r| == |s|
  {
    seq(|s|, i requires 0 <= i < |s| => s[i] * c)
  }

  lemma {:induction false} SumAppend(a: seq<real>, b: seq<real>)
    ensures Sum(a + b) == Sum(a) + Sum(b)
    decreases |b|
  {
    if |b| > 0 {
      assert (a + b)[..|a + b| - 1] == a + b[..|b| - 1];
      SumAppend(a, b[..|b| - 1]);
    } else {
      assert a + b == a;
    }
  }

  lemma {:induction false} SumScale(s: seq<real>, c: real)
    ensures Sum(Scale(s, c)) == Sum(s) * c
    decreases |s|
  {
    if |s| > 0 {
      var init, last := s[..|s| - 1], s[|s| - 1];
      ScalePrefix(s, c);
      SumScale(init, c);
      Distribute(Sum(init), last, c);
    }
  }

  lemma {:induction false} ScalePrefix(s: seq<real>, c: real)
    requires |s| > 0
    ensures Scale(s, c)[..|s| - 1] == Scale(s[..|s| - 1], c)
  {
    var init := s[..|s| - 1];
    forall i | 0 <= i < |init| ensures Scale(s, c)[..|s| - 1][i] == Scale(init, c)[i] {
      assert init[i] == s[i];
    }
  }

  lemma {:induction false} SumNonNegative(s: seq<real>)
    requires forall i :: 0 <= i < |s| ==> s[i] >= 0.0
    ensures Sum(s) >= 0.0
    decreases |s|
  {
    if |s| > 0 {
      SumNonNegative(s[..|s| - 1]);
    }
  }

  /** Replacing one element changes the sum by the difference. */
  lemma {:induction false} SumUpdate(s: seq<real>, i: nat, v: real)
    requires i < |s|
    ensures Sum(s[i := v]) == Sum(s) - s[i] + v
    decreases |s|
  {
    var last := |s| - 1;
    if i == last {
      assert s[i := v][..last] == s[..last];
    } else {
      assert s[i := v][..last] == s[..last][i := v];
      SumUpdate(s[..last], i, v);
    }
  }

  /** Adding `e` to one element adds `e` to the sum. */
  lemma {:induction false} SumAddAt(s: seq<real>, i: nat, e: real)
    requires i < |s|
    ensures Sum(s[i := s[i] + e]) == Sum(s) + e
  {
    SumUpdate(s, i, s[i] + e);
  }

  /** The sum of a prefix one element longer. */
  lemma {:induction false} SumPrefix(s: seq<real>, j: nat)
    requires j < |s|
    ensures Sum(s[..j + 1]) == Sum(s[..j]) + s[j]
  {
    assert s[..j + 1][..j] == s[..j];
  }

  // Small facts of real arithmetic, kept apart so that each proof sees only what it needs.

  lemma {:induction false} Distribute(a: real, b: real, c: real)
    ensures (a + b) * c == a * c + b * c
  {
  }

  lemma {:induction false} MulAssocDiv(f: real, q: real, d: real)
    requires d != 0.0
    ensures f * (q / d) == (f * q) * (1.0 / d)
  {
  }

  lemma {:induction false} DivTimesConst(q: real, t: real, c: real)
    requires t != 0.0
    ensures q / t * c == q * (c / t)
  {
  }

  lemma {:induction false} CancelCommonFactor(w: real, t: real, c: real, wc: real, tc: real)
    requires t != 0.0 && c != 0.0 && wc == w * c && tc == t * c
    ensures tc != 0.0 && wc / tc == w / t
  {
  }

  lemma {:induction false} DivBounds(lo: real, w: real, hi: real, t: real)
    requires t > 0.0
    requires t * lo <= w <= t * hi
    ensures lo <= w / t <= hi
  {
  }

  /** Sums are monotone: elementwise smaller terms give a smaller sum. */
  lemma {:induction false} SumMonotone(a: seq<real>, b: seq<real>)
    requires |a| == |b|
    requires forall i :: 0 <= i < |a| ==> a[i] <= b[i]
    ensures Sum(a) <= Sum(b)
    decreases |a|
  {
    if |a| > 0 {
      SumMonotone(a[..|a| - 1], b[..|b| - 1]);
    }
  }

  /** Every element of `w` is at least `c` times the matching element of `q`. */
  predicate AtLeastScaled(q: seq<real>, w: seq<real>, c: real) {
    |q| == |w| && forall i :: 0 <= i < |q| ==> q[i] * c <= w[i]
  }

  /** Every element of `w` is at most `c` times the matching element of `q`. */
  predicate AtMostScaled(q: seq<real>, w: seq<real>, c: real) {
    |q| == |w| && forall i :: 0 <= i < |q| ==> w[i] <= q[i] * c
  }

  /** Elementwise lower bounds by a multiple give the same bound on the sums. */
  lemma {:induction false} SumAtLeastScaled(q: seq<real>, w: seq<real>, c: real)
    requires AtLeastScaled(q, w, c)
    ensures Sum(q) * c <= Sum(w)
  {
    SumMonotone(Scale(q, c), w);
    SumScale(q, c);
  }

  /** Elementwise upper bounds by a multiple give the same bound on the sums. */
  lemma {:induction false} SumAtMostScaled(q: seq<real>, w: seq<real>, c: real)
    requires AtMostScaled(q, w, c)
    ensures Sum(w) <= Sum(q) * c
  {
    SumMonotone(w, Scale(q, c));
    SumScale(q, c);
  }

  lemma {:induction false} ProductBelow(lo: real, f: real, q: real, w: real)
    requires q >= 0.0 && (q > 0.0 ==> lo <= f) && w == f * q
    ensures q * lo <= w
  {
    if q > 0.0 {
      NonNegativeProduct(f - lo, q);
      assert (f - lo) * q == f * q - q * lo;
    } else {
      ZeroFactor(lo, q);
      ZeroFactor(f, q);
    }
  }

  lemma {:induction false} ProductAbove(f: real, hi: real, q: real, w: real)
    requires q >= 0.0 && (q > 0.0 ==> f <= hi) && w == f * q
    ensures w <= q * hi
  {
    if q > 0.0 {
      NonNegativeProduct(hi - f, q);
      assert (hi - f) * q == q * hi - f * q;
    } else {
      ZeroFactor(hi, q);
      ZeroFactor(f, q);
    }
  }

  lemma {:induction false} ZeroFactor(a: real, z: real)
    requires z == 0.0
    ensures a * z == 0.0 && z * a == 0.0
  {
  }

  lemma {:induction false} NonNegativeProduct(a: real, b: real)
    requires a >= 0.0 && b >= 0.0
    ensures a * b >= 0.0
  {
  }

  lemma {:induction false} TimesInverse(w: real, d: real)
    requires d != 0.0
    ensures w * (1.0 / d) == w / d
  {
  }

  lemma {:induction false} ShareOfWhole(total: real, c: real)
    requires total != 0.0 && c == 100.0 / total
    ensures total * c == 100.0
  {
  }

  lemma {:induction false} PositiveProduct(a: real, b: real, ab: real)
    requires a > 0.0 && b > 0.0 && ab == a * b
    ensures ab > 0.0
  {
  }

  /** The greedy allocator's arithmetic: 40% of a * b is 0.4 * b * a, and 60% of it is a * (0.6 * b). */
  lemma {:induction false} ReorderProduct(a: real, b: real, ab: real)
    requires ab == a * b
    ensures ab * 0.4 == 0.4 * b * a
    ensures ab - ab * 0.4 == a * (0.6 * b)
  {
  }

  /** a * b splits into 40% and 60% parts. */
  lemma {:induction false} SplitProduct(a: real, b: real, ab: real, share: real, rest: real)
    requires ab == a * b && share == 0.4 * b * a && rest == a * (0.6 * b)
    ensures ab == share + rest
  {
  }
}
