/** The static helpers of `Funciones`: interval and derivative checks,
    error measures, the convergence-order estimate, the search for a
    bisection bracket, the local fixed-point test and the iteration table.

    The callables these helpers evaluate inside `try` blocks are modelled as
    `real -> Option<real>`: `None` is an evaluation that raised. */
module Funciones {
  import opened Comun
  import MetodosNumericos

  // ---------------------------------------------------------------------
  // validar_intervalo (utils/funciones.py:10-38)
  // ---------------------------------------------------------------------

  datatype MensajeValidacion = IntervaloValido | NoGarantizaRaiz | ErrorAlEvaluar

  function TextoValidacion(m: MensajeValidacion): string
  {
    match m
    case IntervaloValido => "Intervalo válido"
    case NoGarantizaRaiz => "No garantiza raíz"
    case ErrorAlEvaluar => "Error al evaluar función"
  }

  /** The values a successful evaluation reports: f(a), f(b) and their
      product. */
  datatype Evaluacion = Evaluacion(fA: real, fB: real, producto: real)

  /** The dictionary `validar_intervalo` returns; `evaluacion` is `None` on
      the error path, which carries no numbers. */
  datatype ValidacionIntervalo = ValidacionIntervalo(
    valido: bool,
    evaluacion: Option<Evaluacion>,
    mensaje: MensajeValidacion)

  /** [a, b] is valid for bisection exactly when f can be evaluated at both
      ends and changes sign strictly between them; a failed evaluation gives
      an invalid interval with the error message. */
  function ValidarIntervalo(f: real -> Option<real>, a: real, b: real): (v: ValidacionIntervalo)
    ensures v.valido <==> f(a).Some? && f(b).Some? && SignosOpuestos(f(a).value, f(b).value)
    ensures v.evaluacion.None? <==> f(a).None? || f(b).None?
    ensures v.evaluacion.Some? ==>
              v.evaluacion.value.fA == f(a).value && v.evaluacion.value.fB == f(b).value
              && v.evaluacion.value.producto == f(a).value * f(b).value
    ensures v.mensaje == ErrorAlEvaluar <==> v.evaluacion.None?
    ensures v.mensaje == IntervaloValido <==> v.valido
  {
    match (f(a), f(b))
    case (Some(fa), Some(fb)) =>
      var producto := fa * fb;
      ProductoNegativo(fa, fb);
      ValidacionIntervalo(producto < 0.0, Some(Evaluacion(fa, fb, producto)),
                          if producto < 0.0 then IntervaloValido else NoGarantizaRaiz)
    case _ => ValidacionIntervalo(false, None, ErrorAlEvaluar)
  }

  // ---------------------------------------------------------------------
  // Error measures (utils/funciones.py:41-50)
  // ---------------------------------------------------------------------

  /** Below this magnitude the previous value counts as zero for the
      relative error. */
  const UmbralCero: real := 1e-15

  /** |x_nuevo - x_anterior|: non-negative, zero exactly when the two values
      agree, and the same with the arguments swapped. */
  function CalcularErrorAbsoluto(xNuevo: real, xAnterior: real): (r: real)
    ensures r >= 0.0
    ensures r == 0.0 <==> xNuevo == xAnterior
    ensures r == Abs(xAnterior - xNuevo)
  {
    Abs(xNuevo - xAnterior)
  }

  /** The absolute error over |x_anterior|, or `inf` when |x_anterior| is
      below 1e-15. */
  function CalcularErrorRelativo(xNuevo: real, xAnterior: real): (r: ExtReal)
    ensures r.Inf? <==> Abs(xAnterior) < UmbralCero
    ensures r.Finite? ==>
              r.val >= 0.0 && r.val * Abs(xAnterior) == CalcularErrorAbsoluto(xNuevo, xAnterior)
    ensures r.Finite? ==> (r.val == 0.0 <==> xNuevo == xAnterior)
  {
    if Abs(xAnterior) < UmbralCero then Inf
    else
      var d := Abs(xNuevo - xAnterior);
      var q := d / Abs(xAnterior);
      assert q * Abs(xAnterior) == d;
      Finite(q)
  }

  // ---------------------------------------------------------------------
  // estimar_orden_convergencia (utils/funciones.py:53-75)
  // ---------------------------------------------------------------------

  /** Finite errors as numbers. */
  function Valores(errores: seq<ExtReal>): (v: seq<real>)
    requires forall k :: 0 <= k < |errores| ==> errores[k].Finite?
    ensures |v| == |errores| && forall k :: 0 <= k < |v| ==> Finite(v[k]) == errores[k]
  {
    seq(|errores|, k requires 0 <= k < |errores| => errores[k].val)
  }

  /** The estimate over a list whose first entry may be the `inf` sentinel
      the solvers put at the head of their error histories (every later
      entry is a number). An `inf` head in a triple whose other two errors
      are positive (`inf > 0` holds) makes the first ratio compute
      `math.log(errores[1] / inf)`, the logarithm of 0.0, which raises inside
      the `try`: `None`. An `inf` head in a triple that is not positive is
      skipped, and the remaining triples are those of the list without it. */
  function OrdenDeErrores(errores: seq<ExtReal>, ln: real -> real): Option<real>
    requires forall k :: 1 <= k < |errores| ==> errores[k].Finite?
  {
    if |errores| < 3 then None
    else if errores[0].Finite? then OrdenEstimado(Valores(errores), ln)
    else if errores[1].val > 0.0 && errores[2].val > 0.0 then None
    else OrdenEstimado(Valores(errores[1..]), ln)
  }

  /** The `for` loop over centre indices inside a `try`, with `ln` standing
      for `math.log`: the mean of the collected ratios, `None` when there are
      fewer than three errors, when no ratio was collected, or when one of the
      divisions or logarithms raised. */
  method EstimarOrdenConvergencia(errores: seq<ExtReal>, ln: real -> real) returns (r: Option<real>)
    requires forall k :: 1 <= k < |errores| ==> errores[k].Finite?
    ensures r == OrdenDeErrores(errores, ln)
  {
    if |errores| < 3 {
      return None;
    }
    if errores[0].Inf? && errores[1].val > 0.0 && errores[2].val > 0.0 {
      // the first ratio takes the logarithm of errores[1] / inf == 0.0
      return None;
    }
    var e := if errores[0].Finite? then Valores(errores) else Valores(errores[1..]);
    assert OrdenDeErrores(errores, ln) == OrdenEstimado(e, ln);
    if |e| < 3 {
      return None;
    }
    var ratios := CalcularRazones(e, ln);
    match ratios
    case None =>
      r := None;
    case Some(rs) =>
      r := if rs != [] then Some(Media(rs)) else None;
  }

  /** An estimate exists only for at least three errors with some triple of
      consecutive errors that are all numbers and positive. */
  lemma OrdenDeErroresCasos(errores: seq<ExtReal>, ln: real -> real)
    requires forall k :: 1 <= k < |errores| ==> errores[k].Finite?
    ensures OrdenDeErrores(errores, ln).Some? ==>
              |errores| >= 3
              && exists j :: 1 <= j < |errores| - 1 && errores[j - 1].Finite?
                             && errores[j - 1].val > 0.0 && errores[j].val > 0.0 && errores[j + 1].val > 0.0
  {
    if OrdenDeErrores(errores, ln).Some? {
      if errores[0].Finite? {
        var v := Valores(errores);
        OrdenEstimadoCasos(v, ln);
        var j :| 1 <= j < |v| - 1 && TernaPositiva(v, j);
        assert Finite(v[j - 1]) == errores[j - 1] && Finite(v[j]) == errores[j] && Finite(v[j + 1]) == errores[j + 1];
      } else {
        var resto := errores[1..];
        var v := Valores(resto);
        OrdenEstimadoCasos(v, ln);
        var j :| 1 <= j < |v| - 1 && TernaPositiva(v, j);
        assert resto[j - 1] == errores[j] && resto[j] == errores[j + 1] && resto[j + 1] == errores[j + 2];
        assert Finite(v[j - 1]) == errores[j] && Finite(v[j]) == errores[j + 1] && Finite(v[j + 1]) == errores[j + 2];
        assert 1 <= j + 1 < |errores| - 1;
      }
    }
  }

  /** On a raw bisection error history of three or more entries the estimate
      is always `None`: the history starts with `inf` followed by the positive
      half-widths |b - a|/4 and |b - a|/8, so the first ratio raises. */
  lemma OrdenDeHistorialBiseccion(f: real -> real, a: real, b: real, tol: real, maxIter: int, ln: real -> real)
    requires tol > 0.0 && f(a) * f(b) < 0.0
    ensures var he := MetodosNumericos.ResultadoBiseccion(f, a, b, tol, maxIter).historialError;
            (forall k :: 1 <= k < |he| ==> he[k].Finite?)
            && OrdenDeErrores(he, ln) == None
  {
    var he := MetodosNumericos.ResultadoBiseccion(f, a, b, tol, maxIter).historialError;
    MetodosNumericos.BiseccionHistorial(f, a, b, tol, maxIter);
    if |he| >= 3 {
      assert a != b;
      assert he[1] == Finite(Abs(b - a) / Pow2(2)) && he[2] == Finite(Abs(b - a) / Pow2(3));
      CocientePositivo(Abs(b - a), Pow2(2));
      CocientePositivo(Abs(b - a), Pow2(3));
    }
  }

  lemma CocientePositivo(x: real, y: real)
    requires x > 0.0 && y >= 1.0
    ensures x / y > 0.0
  {
  }

  /** The estimate needs at least three errors and a triple of consecutive
      positive ones; each collected ratio comes from such a triple. */
  lemma OrdenEstimadoCasos(errores: seq<real>, ln: real -> real)
    ensures OrdenEstimado(errores, ln).Some? ==>
              |errores| >= 3 && exists j :: 1 <= j < |errores| - 1 && TernaPositiva(errores, j)
    ensures |errores| >= 3 && (forall j :: 1 <= j < |errores| - 1 ==> !TernaPositiva(errores, j)) ==>
              OrdenEstimado(errores, ln).None?
  {
    if |errores| >= 3 && RazonesHasta(errores, ln, |errores| - 1).Some? {
      RazonesSoloDeTernasPositivas(errores, ln, |errores| - 1);
    }
  }

  /** When no division raises, the estimate is the mean of the ratios, so it
      lies between the smallest and the largest of them. */
  lemma OrdenEstimadoAcotado(errores: seq<real>, ln: real -> real)
    requires OrdenEstimado(errores, ln).Some?
    ensures var rs := RazonesHasta(errores, ln, |errores| - 1).value;
            |rs| > 0 && MinimoReal(rs) <= OrdenEstimado(errores, ln).value <= MaximoReal(rs)
  {
    MediaAcotada(RazonesHasta(errores, ln, |errores| - 1).value);
  }

  // ---------------------------------------------------------------------
  // generar_intervalo_biseccion (utils/funciones.py:78-100)
  // ---------------------------------------------------------------------

  /** How many radii `np.linspace(0.1, radio, 100)` produces. */
  const NumeroRadios: nat := 100

  /** The i-th of 100 evenly spaced radii from 0.1 to `radio`. */
  function Radio(radio: real, i: nat): real
  {
    0.1 + (i as real) * (radio - 0.1) / 99.0
  }

  /** The radii run from 0.1 to `radio`, increasing when `radio` > 0.1, so
      the search tries the narrowest intervals first. */
  lemma RadiosCrecientes(radio: real, i: nat, j: nat)
    requires i < j < NumeroRadios && radio > 0.1
    ensures Radio(radio, 0) == 0.1 && Radio(radio, NumeroRadios - 1) == radio
    ensures Radio(radio, i) < Radio(radio, j)
  {
    var w := radio - 0.1;
    calc {
      (j as real) * w;
      (i as real) * w + ((j - i) as real) * w;
    > { assert ((j - i) as real) * w > 0.0; }
      (i as real) * w;
    }
  }

  /** f can be evaluated at c - r and c + r, and changes sign between them. */
  predicate CambioDeSigno(f: real -> Option<real>, c: real, r: real)
  {
    f(c - r).Some? && f(c + r).Some? && SignosOpuestos(f(c - r).value, f(c + r).value)
  }

  /** The search over increasing radii: the interval (c - r, c + r) for the
      first radius with a sign change, where evaluation failures are skipped,
      or `None` (the source's `(None, None)`) when no radius gives one. The
      interval found is centred on c. */
  method GenerarIntervaloBiseccion(f: real -> Option<real>, xCentro: real, radio: real := 10.0)
    returns (r: Option<(real, real)>)
    ensures r.None? <==>
              forall i :: 0 <= i < NumeroRadios ==> !CambioDeSigno(f, xCentro, Radio(radio, i))
    ensures r.Some? ==>
              exists i :: 0 <= i < NumeroRadios
                && r.value == (xCentro - Radio(radio, i), xCentro + Radio(radio, i))
                && CambioDeSigno(f, xCentro, Radio(radio, i))
                && forall j :: 0 <= j < i ==> !CambioDeSigno(f, xCentro, Radio(radio, j))
    ensures r.Some? ==> (r.value.0 + r.value.1) / 2.0 == xCentro
  {
    var i: nat := 0;
    while i < NumeroRadios
      invariant i <= NumeroRadios
      invariant forall j :: 0 <= j < i ==> !CambioDeSigno(f, xCentro, Radio(radio, j))
    {
      var rad := Radio(radio, i);
      var a := xCentro - rad;
      var b := xCentro + rad;
      var fa, fb := f(a), f(b);
      if fa.Some? && fb.Some? {
        ProductoNegativo(fa.value, fb.value);
        if fa.value * fb.value < 0.0 {
          return Some((a, b));
        }
      }
      i := i + 1;
    }
    r := None;
  }

  // ---------------------------------------------------------------------
  // verificar_derivada_no_cero (utils/funciones.py:103-119)
  // ---------------------------------------------------------------------

  /** The derivative passes exactly when it can be evaluated at x and its
      magnitude is strictly above the tolerance. */
  function VerificarDerivadaNoCero(derivada: real -> Option<real>, x: real, tolerancia: real := UmbralCero): (ok: bool)
    ensures ok <==> derivada(x).Some? && (derivada(x).value > tolerancia || derivada(x).value < -tolerancia)
  {
    match derivada(x)
    case None => false
    case Some(d) => Abs(d) > tolerancia
  }

  /** With its default tolerance this check and Newton-Raphson's derivative
      guard are complementary except at |f'(x)| = 1e-15 exactly, where the
      check fails but Newton-Raphson still takes the step. */
  lemma DerivadaFrenteAGuardaNewton(fp: real -> real, x: real)
    ensures VerificarDerivadaNoCero(y => Some(fp(y)), x)
            ==> Abs(fp(x)) >= MetodosNumericos.DerivadaMinima
    ensures Abs(fp(x)) < MetodosNumericos.DerivadaMinima
            ==> !VerificarDerivadaNoCero(y => Some(fp(y)), x)
    ensures Abs(fp(x)) == MetodosNumericos.DerivadaMinima
            ==> !VerificarDerivadaNoCero(y => Some(fp(y)), x)
  {
  }

  // ---------------------------------------------------------------------
  // analizar_convergencia_punto_fijo (utils/funciones.py:122-148)
  // ---------------------------------------------------------------------

  datatype TipoPuntoFijo = Convergente | Divergente | ErrorEnEvaluacion

  /** The dictionary `analizar_convergencia_punto_fijo` returns. */
  datatype AnalisisPuntoFijo = AnalisisPuntoFijo(
    gPrima: Option<real>,
    convergenciaLocal: bool,
    tipo: TipoPuntoFijo)

  /** The local test |g'(x)| < 1 and its label; an evaluation failure of g'
      gives no value, no convergence and the error label. `g` itself is
      never evaluated. */
  function AnalizarConvergenciaPuntoFijo(g: real -> Option<real>, gDerivada: real -> Option<real>, x: real)
    : (an: AnalisisPuntoFijo)
    ensures an.gPrima == gDerivada(x)
    ensures an.convergenciaLocal <==> gDerivada(x).Some? && -1.0 < gDerivada(x).value < 1.0
    ensures an.tipo == Convergente <==> an.convergenciaLocal
    ensures an.tipo == ErrorEnEvaluacion <==> gDerivada(x).None?
  {
    match gDerivada(x)
    case None => AnalisisPuntoFijo(None, false, ErrorEnEvaluacion)
    case Some(gp) =>
      var convergencia := Abs(gp) < 1.0;
      AnalisisPuntoFijo(Some(gp), convergencia, if convergencia then Convergente else Divergente)
  }

  // ---------------------------------------------------------------------
  // crear_tabla_iteraciones (utils/funciones.py:161-181)
  // ---------------------------------------------------------------------

  /** One row of the iteration table; the x and error columns are the
      numbers the source renders as text. */
  datatype Fila = Fila(iteracion: nat, x: real, error: ExtReal, metodo: string)

  function Min(m: nat, n: nat): (r: nat)
    ensures r <= m && r <= n && (r == m || r == n)
  {
    if m < n then m else n
  }

  /** `zip` stops at the shorter history, so the table has one row per pair,
      row i numbered i; for a history of x values one longer than the errors
      (Newton-Raphson and fixed-point iteration) the last x is left out. */
  method CrearTablaIteraciones(historialX: seq<real>, historialError: seq<ExtReal>, metodo: string)
    returns (tabla: seq<Fila>)
    ensures |tabla| == Min(|historialX|, |historialError|)
    ensures forall i :: 0 <= i < |tabla| ==>
              tabla[i] == Fila(i, historialX[i], historialError[i], metodo)
    ensures |historialX| == |historialError| + 1 ==> |tabla| == |historialX| - 1
  {
    tabla := [];
    var n := Min(|historialX|, |historialError|);
    var i := 0;
    while i < n
      invariant 0 <= i <= n
      invariant |tabla| == i
      invariant forall k :: 0 <= k < i ==> tabla[k] == Fila(k, historialX[k], historialError[k], metodo)
    {
      tabla := tabla + [Fila(i, historialX[i], historialError[i], metodo)];
      i := i + 1;
    }
  }
}
