/** Value types and real-number helpers shared by every module of the model.
    Python floats are modelled as `real`; the `float('inf')` sentinel that the
    solvers use for "no error measured yet" is the `Inf` case of `ExtReal`. */
module Comun {

  /** Python's `None` or a value. */
  datatype Option<+T> = None | Some(value: T)

  /** The ways a computation of the source raises instead of returning. */
  datatype Falla =
    | DivisionPorCero   // ZeroDivisionError
    | MinimoDeVacio     // ValueError from `min` of an empty sequence

  datatype Result<+T> = Ok(value: T) | Err(falla: Falla)

  /** A float that is either a real number or `float('inf')`. */
  datatype ExtReal = Finite(val: real) | Inf

  /** `e > t` in Python, where `inf > t` for every real `t`. */
  predicate Mayor(e: ExtReal, t: real)
  {
    e.Inf? || e.val > t
  }

  /** `e <= t` in Python, which is false for `inf`. */
  predicate MenorIgual(e: ExtReal, t: real)
  {
    e.Finite? && e.val <= t
  }

  /** `d <= e` on extended reals. */
  predicate MenorIgualExt(d: ExtReal, e: ExtReal)
  {
    e.Inf? || (d.Finite? && d.val <= e.val)
  }

  /** `d < e` on extended reals (`inf < inf` is false, as in Python). */
  predicate MenorExt(d: ExtReal, e: ExtReal)
  {
    d.Finite? && (e.Inf? || d.val < e.val)
  }

  /** `k * e` for a positive factor, with `k * inf == inf`. */
  function Escalar(k: real, e: ExtReal): (r: ExtReal)
    requires k > 0.0
    ensures r.Inf? <==> e.Inf?
    ensures r.Finite? ==> r.val == k * e.val
  {
    match e
    case Inf => Inf
    case Finite(v) => Finite(k * v)
  }

  function Abs(x: real): (r: real)
    ensures r >= 0.0
    ensures r == x || r == -x
  {
    if x < 0.0 then -x else x
  }

  function Max0(n: int): (r: nat)
    ensures r >= n
    ensures n >= 0 ==> r == n
  {
    if n < 0 then 0 else n
  }

  /** 2^n as a real. */
  function Pow2(n: nat): (r: real)
    ensures r >= 1.0
  {
    if n == 0 then 1.0 else 2.0 * Pow2(n - 1)
  }

  /** Strictly opposite signs. On real numbers this is exactly the test
      `x * y < 0` (`ProductoNegativo`), and stating it without the product
      keeps proofs about it linear. */
  predicate SignosOpuestos(x: real, y: real)
  {
    (x < 0.0 && y > 0.0) || (x > 0.0 && y < 0.0)
  }

  lemma ProductoNegativo(x: real, y: real)
    ensures x * y < 0.0 <==> SignosOpuestos(x, y)
  {
    if x < 0.0 && y < 0.0 {
      assert x * y == (-x) * (-y);
    }
  }

  lemma ProductoNoNegativo(x: real, y: real)
    requires x >= 0.0 && y >= 0.0
    ensures x * y >= 0.0
  {
  }

  /** Python's `sum` of a list of numbers. */
  function Suma(s: seq<real>): real
  {
    if s == [] then 0.0 else Suma(s[..|s| - 1]) + s[|s| - 1]
  }

  /** `np.mean` of a non-empty list. */
  function Media(s: seq<real>): real
    requires |s| > 0
  {
    Suma(s) / |s| as real
  }

  /** The index Python's `min(values, key=...)` picks: the FIRST position
      whose key is minimal, because later keys replace the current minimum
      only when strictly smaller. */
  function IndiceMinimo(claves: seq<ExtReal>): (i: nat)
    requires |claves| > 0
    ensures i < |claves|
    ensures forall j :: 0 <= j < |claves| ==> MenorIgualExt(claves[i], claves[j])
    ensures forall j :: 0 <= j < i ==> MenorExt(claves[i], claves[j])
  {
    if |claves| == 1 then 0
    else
      var m := IndiceMinimo(claves[..|claves| - 1]);
      if MenorExt(claves[|claves| - 1], claves[m]) then |claves| - 1 else m
  }

  /** The value of Python's `max` on a non-empty list. */
  function MaximoExt(s: seq<ExtReal>): (r: ExtReal)
    requires |s| > 0
    ensures r in s
    ensures forall j :: 0 <= j < |s| ==> MenorIgualExt(s[j], r)
  {
    if |s| == 1 then s[0]
    else
      var m := MaximoExt(s[..|s| - 1]);
      assert forall j :: 0 <= j < |s| - 1 ==> s[..|s| - 1][j] == s[j];
      if MenorExt(m, s[|s| - 1]) then s[|s| - 1] else m
  }

  function MinimoReal(s: seq<real>): (r: real)
    requires |s| > 0
    ensures r in s
    ensures forall j :: 0 <= j < |s| ==> r <= s[j]
  {
    if |s| == 1 then s[0]
    else
      var m := MinimoReal(s[..|s| - 1]);
      assert forall j :: 0 <= j < |s| - 1 ==> s[..|s| - 1][j] == s[j];
      if s[|s| - 1] < m then s[|s| - 1] else m
  }

  function MaximoReal(s: seq<real>): (r: real)
    requires |s| > 0
    ensures r in s
    ensures forall j :: 0 <= j < |s| ==> s[j] <= r
  {
    if |s| == 1 then s[0]
    else
      var m := MaximoReal(s[..|s| - 1]);
      assert forall j :: 0 <= j < |s| - 1 ==> s[..|s| - 1][j] == s[j];
      if m < s[|s| - 1] then s[|s| - 1] else m
  }

  /** The mean of a list lies between its minimum and its maximum. */
  lemma {:induction false} MediaAcotada(s: seq<real>)
    requires |s| > 0
    ensures MinimoReal(s) <= Media(s) <= MaximoReal(s)
  {
    var lo, hi := MinimoReal(s), MaximoReal(s);
    SumaAcotada(s, lo, hi);
    DividirAcotado(Suma(s), |s| as real, lo, hi);
  }

  lemma DividirAcotado(x: real, n: real, lo: real, hi: real)
    requires n > 0.0 && n * lo <= x <= n * hi
    ensures lo <= x / n <= hi
  {
    assert x / n * n == x;
  }

  lemma {:induction false} SumaAcotada(s: seq<real>, lo: real, hi: real)
    requires forall j :: 0 <= j < |s| ==> lo <= s[j] <= hi
    ensures |s| as real * lo <= Suma(s) <= |s| as real * hi
  {
    if s != [] {
      var p := s[..|s| - 1];
      assert forall j :: 0 <= j < |p| ==> p[j] == s[j];
      SumaAcotada(p, lo, hi);
      var n := |p| as real;
      assert Suma(s) == Suma(p) + s[|s| - 1];
      assert |s| as real * lo == n * lo + lo;
      assert |s| as real * hi == n * hi + hi;
    }
  }

  /** The ratios that `estimar_orden_convergencia` and `analizar_convergencia`
      collect: for every centre index j in [1, i) whose triple
      e[j-1], e[j], e[j+1] is all positive, ln(e[j+1]/e[j]) / ln(e[j]/e[j-1]),
      with `ln` standing for `math.log`. `None` when one of those divisions
      has a zero denominator, which raises inside the source's `try`. */
  function RazonesHasta(e: seq<real>, ln: real -> real, i: nat): (r: Option<seq<real>>)
    requires 1 <= i < |e|
    ensures r.Some? ==> |r.value| <= i - 1
    decreases i
  {
    if i == 1 then Some([])
    else
      match RazonesHasta(e, ln, i - 1)
      case None => None
      case Some(rs) =>
        var j := i - 1;
        if TernaPositiva(e, j) then
          var den := ln(e[j] / e[j - 1]);
          if den == 0.0 then None else Some(rs + [ln(e[j + 1] / e[j]) / den])
        else Some(rs)
  }

  /** The three errors around centre index j are all strictly positive. */
  predicate TernaPositiva(e: seq<real>, j: nat)
    requires 1 <= j < |e| - 1
  {
    e[j] > 0.0 && e[j + 1] > 0.0 && e[j - 1] > 0.0
  }

  /** How one more centre index extends the ratios. */
  lemma RazonesPaso(e: seq<real>, ln: real -> real, i: nat)
    requires 1 <= i < |e| - 1
    ensures RazonesHasta(e, ln, i + 1) ==
            match RazonesHasta(e, ln, i)
            case None => None
            case Some(rs) =>
              if TernaPositiva(e, i) then
                (if ln(e[i] / e[i - 1]) == 0.0 then None else Some(rs + [ln(e[i + 1] / e[i]) / ln(e[i] / e[i - 1])]))
              else Some(rs)
  {
  }

  /** The `for` loop over centre indices 1 .. |e|-2 that both order estimators
      of the source run inside a `try`: it collects a ratio for every positive
      triple and gives up (`None`) when a denominator is zero. */
  method CalcularRazones(e: seq<real>, ln: real -> real) returns (r: Option<seq<real>>)
    requires |e| >= 2
    ensures r == RazonesHasta(e, ln, |e| - 1)
  {
    var ratios: seq<real> := [];
    var i := 1;
    while i < |e| - 1
      invariant 1 <= i <= |e| - 1
      invariant RazonesHasta(e, ln, i) == Some(ratios)
    {
      RazonesPaso(e, ln, i);
      if e[i] > 0.0 && e[i + 1] > 0.0 && e[i - 1] > 0.0 {
        var den := ln(e[i] / e[i - 1]);
        if den == 0.0 {
          RazonesFallidasSiguenFallidas(e, ln, i + 1, |e| - 1);
          return None;
        }
        ratios := ratios + [ln(e[i + 1] / e[i]) / den];
      }
      i := i + 1;
    }
    r := Some(ratios);
  }

  /** Once a ratio computation has raised, it stays raised. */
  lemma {:induction false} RazonesFallidasSiguenFallidas(e: seq<real>, ln: real -> real, i: nat, k: nat)
    requires 1 <= i <= k < |e|
    requires RazonesHasta(e, ln, i).None?
    ensures RazonesHasta(e, ln, k).None?
    decreases k - i
  {
    if i < k {
      RazonesFallidasSiguenFallidas(e, ln, i + 1, k);
    }
  }

  /** A ratio is collected only from a positive triple, and if none of the
      triples is positive there are no ratios at all. */
  lemma {:induction false} RazonesSoloDeTernasPositivas(e: seq<real>, ln: real -> real, i: nat)
    requires 1 <= i < |e|
    requires RazonesHasta(e, ln, i).Some?
    ensures |RazonesHasta(e, ln, i).value| > 0 <==> exists j :: 1 <= j < i && TernaPositiva(e, j)
    decreases i
  {
    if i > 1 {
      RazonesSoloDeTernasPositivas(e, ln, i - 1);
    }
  }

  /** The averaged convergence order that `estimar_orden_convergencia` and
      the `try` block of `analizar_convergencia` compute over errors e:
      the mean of the collected ratios, or `None` when there are fewer than
      three errors, no positive triple, or a ratio raised. */
  function OrdenEstimado(e: seq<real>, ln: real -> real): Option<real>
  {
    if |e| < 3 then None
    else
      match RazonesHasta(e, ln, |e| - 1)
      case None => None
      case Some(rs) => if rs == [] then None else Some(Media(rs))
  }
}
