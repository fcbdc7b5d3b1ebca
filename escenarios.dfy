/**
  End-to-end facts: the solvers run on the functions of the Blackjack problem,
  with the parameters of the predefined cases.
*/
module Escenarios {
  import opened Comun
  import opened MetodosNumericos
  import opened BlackjackGame
  import Funciones
  import Resultados

  /** Bisection on the squared objective never finds a sign change: both
      end values are non-negative, so it returns before any loop work,
      whatever the interval. */
  lemma BiseccionSobreObjetivoFalla(m: BlackjackMath, f: real -> real, a: real, b: real, tol: real, maxIter: int)
    requires forall x :: f(x) == FuncionObjetivo(m, x)
    ensures ResultadoBiseccion(f, a, b, tol, maxIter)
            == Resultado(None, 0, false, Inf, [], [], SinCambioDeSigno)
  {
    ProductoNoNegativo(f(a), f(b));
    BiseccionSinCambioDeSigno(f, a, b, tol, maxIter);
  }

  /** Newton-Raphson seeded at the analytic root meets a zero derivative and
      returns through the guard, not converged. */
  lemma NewtonDesdeLaRaiz(m: BlackjackMath, f: real -> real, fp: real -> real, tol: real, maxIter: int)
    requires forall x :: fp(x) == DerivadaFuncion(m, x)
    requires maxIter >= 1
    ensures var raiz := RaizAnalitica(m);
            ResultadoNewton(f, fp, raiz, tol, maxIter)
            == Resultado(Some(raiz), 0, false, Inf, [raiz], [], DerivadaPequena)
  {
    var raiz := RaizAnalitica(m);
    assert fp(raiz) == 0.0;
    NewtonDerivadaNulaEnSemilla(f, fp, raiz, tol, maxIter);
  }

  /** Every predefined case seeds Newton-Raphson at its expected root, so
      Newton-Raphson on the case's objective returns through the derivative
      guard. */
  lemma NewtonEnCasosPredefinidos(i: nat, f: real -> real, fp: real -> real)
    requires i < |Resultados.CasosPruebaPredefinidos|
    requires var p := Resultados.CasosPruebaPredefinidos[i].parametros;
             forall x :: fp(x) == DerivadaFuncion(Crear(p.valorCartas, p.objetivo), x)
    ensures var p := Resultados.CasosPruebaPredefinidos[i].parametros;
            var r := ResultadoNewton(f, fp, p.x0, p.tolerancia, p.maxIter);
            !r.convergencia && r.mensaje == DerivadaPequena && r.raiz == Some(p.x0)
  {
    var c := Resultados.CasosPruebaPredefinidos[i];
    var p := c.parametros;
    assert c in Resultados.CasosPruebaPredefinidos;
    Resultados.CasosCoherentes();
    NewtonDesdeLaRaiz(Crear(p.valorCartas, p.objetivo), f, fp, p.tolerancia, p.maxIter);
  }

  /** Fixed-point iteration of g(x) = o - v reaches the analytic root in one
      iteration from a seed within the tolerance, and in two from a seed
      further away (when the root is below the divergence bound). */
  lemma PuntoFijoSobreBlackjack(m: BlackjackMath, g: real -> real, x0: real, tol: real, maxIter: int)
    requires forall x :: g(x) == FuncionPuntoFijo(m, x)
    requires tol > 0.0 && maxIter >= 2 && Abs(RaizAnalitica(m)) <= CotaDivergencia
    ensures var raiz := RaizAnalitica(m);
            var r := ResultadoPuntoFijo(g, x0, tol, maxIter);
            r.convergencia && r.raiz == Some(raiz)
            && (Abs(raiz - x0) < tol ==> r.iteraciones == 1)
            && (Abs(raiz - x0) > tol ==> r.iteraciones == 2)
  {
    var raiz := RaizAnalitica(m);
    if Abs(raiz - x0) < tol {
      PuntoFijoConstanteCercano(g, raiz, x0, tol, maxIter);
    } else if Abs(raiz - x0) > tol {
      PuntoFijoConstanteLejano(g, raiz, x0, tol, maxIter);
    } else {
      PuntoFijoConstanteEnElBorde(g, raiz, x0, tol, maxIter);
    }
  }

  /** On the predefined cases the seed is the root itself, so fixed-point
      iteration converges in one iteration with error 0. */
  lemma PuntoFijoEnCasosPredefinidos(i: nat, g: real -> real)
    requires i < |Resultados.CasosPruebaPredefinidos|
    requires var p := Resultados.CasosPruebaPredefinidos[i].parametros;
             forall x :: g(x) == FuncionPuntoFijo(Crear(p.valorCartas, p.objetivo), x)
    ensures var c := Resultados.CasosPruebaPredefinidos[i];
            var p := c.parametros;
            ResultadoPuntoFijo(g, p.x0, p.tolerancia, p.maxIter)
            == Resultado(Some(c.raizEsperada), 1, true, Finite(0.0), [p.x0, c.raizEsperada], [Finite(0.0)],
                         ConvergenciaExitosa)
  {
    var c := Resultados.CasosPruebaPredefinidos[i];
    var p := c.parametros;
    assert c in Resultados.CasosPruebaPredefinidos;
    Resultados.CasosCoherentes();
    PuntoFijoConstanteCercano(g, c.raizEsperada, p.x0, p.tolerancia, p.maxIter);
  }

  /** Bisection on the linear objective x - r over a bracket that strictly
      contains the root has a sign change, so it enters the loop, and it
      converges once the midpoint step |b - a| / 2^(k+1) of some iteration
      k below the cap is within the tolerance. */
  lemma BiseccionLinealConverge(m: BlackjackMath, f: real -> real, a: real, b: real, tol: real, maxIter: int, k: nat)
    requires forall x :: f(x) == FuncionObjetivoBiseccion(m, x)
    requires a < RaizAnalitica(m) < b
    requires tol > 0.0 && 1 <= k < maxIter && Abs(b - a) / Pow2(k + 1) <= tol
    ensures f(a) * f(b) < 0.0
    ensures ResultadoBiseccion(f, a, b, tol, maxIter).convergencia
  {
    assert f(a) < 0.0 && f(b) > 0.0;
    ProductoNegativo(f(a), f(b));
    BiseccionConverge(f, a, b, tol, maxIter, k);
  }

  lemma {:induction false} Pow2Suma(m: nat, n: nat)
    ensures Pow2(m + n) == Pow2(m) * Pow2(n)
  {
    if n > 0 {
      Pow2Suma(m, n - 1);
      assert Pow2(m + n) == 2.0 * Pow2(m + n - 1);
    }
  }

  lemma Pow2Veinticinco()
    ensures Pow2(25) == 33554432.0
  {
    assert Pow2(5) == 32.0;
    Pow2Suma(5, 5);
    Pow2Suma(10, 10);
    Pow2Suma(20, 5);
  }

  /** Bisection on the linear objective converges on every predefined case:
      the bracket is at most 20 wide and the tolerance is 1e-6, so by
      iteration 24 the midpoint step 20 / 2^25 is within it. */
  lemma BiseccionEnCasosPredefinidos(i: nat, f: real -> real)
    requires i < |Resultados.CasosPruebaPredefinidos|
    requires var p := Resultados.CasosPruebaPredefinidos[i].parametros;
             forall x :: f(x) == FuncionObjetivoBiseccion(Crear(p.valorCartas, p.objetivo), x)
    ensures var p := Resultados.CasosPruebaPredefinidos[i].parametros;
            ResultadoBiseccion(f, p.a, p.b, p.tolerancia, p.maxIter).convergencia
  {
    var c := Resultados.CasosPruebaPredefinidos[i];
    var p := c.parametros;
    assert c in Resultados.CasosPruebaPredefinidos;
    Resultados.CasosCoherentes();
    assert 0.0 < p.b - p.a <= 20.0 && p.tolerancia == 1e-6 && p.maxIter == 100;
    PasoPequeno(p.b - p.a);
    BiseccionLinealConverge(Crear(p.valorCartas, p.objetivo), f, p.a, p.b, p.tolerancia, p.maxIter, 24);
  }

  lemma PasoPequeno(w: real)
    requires 0.0 < w <= 20.0
    ensures Abs(w) / Pow2(25) <= 1e-6
  {
    Pow2Veinticinco();
  }

  /** The iteration table of a Newton-Raphson run: one row per error, so the
      last estimate of the history has no row. */
  method TablaDeNewton(f: real -> real, fp: real -> real, x0: real, tol: real, maxIter: int)
    returns (tabla: seq<Funciones.Fila>)
    ensures var r := ResultadoNewton(f, fp, x0, tol, maxIter);
            var hx, he := r.historialX, r.historialError;
            |hx| == |he| + 1 && |tabla| == |he|
            && forall i :: 0 <= i < |tabla| ==>
                 tabla[i] == Funciones.Fila(i, hx[i], he[i], "Newton-Raphson")
  {
    var r := NewtonRaphson(f, fp, x0, tol, maxIter);
    NewtonPropiedades(f, fp, x0, tol, maxIter);
    tabla := Funciones.CrearTablaIteraciones(r.historialX, r.historialError, "Newton-Raphson");
  }
}
