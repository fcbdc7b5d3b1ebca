/** The three iterative root finders of `MetodosNumericos`, the record each
    one returns, the comparison of the three and the post-hoc convergence
    classifier.

    Each solver is a method with the source's `while` loop, proved equal to a
    recursive specification function (`…Desde`) that runs the same loop from a
    given state. The properties the source promises are lemmas about those
    functions. The solver's `tolerancia` and `max_iteraciones`, which the
    Python class stores once in its constructor, are parameters here. */
module MetodosNumericos {
  import opened Comun

  /** Below this magnitude Newton-Raphson treats the derivative as zero. */
  const DerivadaMinima: real := 1e-15

  /** Above this magnitude fixed-point iteration is declared divergent. */
  const CotaDivergencia: real := 1e10

  datatype Mensaje =
    | ConvergenciaExitosa
    | MaximoIteraciones
    | SinCambioDeSigno
    | DerivadaPequena
    | MetodoDivergente

  /** The text each outcome carries in the source's `mensaje` field. */
  function Texto(m: Mensaje): string
  {
    match m
    case ConvergenciaExitosa => "Convergencia exitosa"
    case MaximoIteraciones => "Máximo de iteraciones alcanzado"
    case SinCambioDeSigno => "No se garantiza la existencia de raíz en el intervalo"
    case DerivadaPequena => "Derivada muy pequeña - posible punto crítico"
    case MetodoDivergente => "Método divergente"
  }

  /** The dictionary every solver returns. */
  datatype Resultado = Resultado(
    raiz: Option<real>,
    iteraciones: nat,
    convergencia: bool,
    error: ExtReal,
    historialX: seq<real>,
    historialError: seq<ExtReal>,
    mensaje: Mensaje)

  /** The record built after a solver's loop ends normally: the current
      estimate, converged exactly when the last error is within tolerance. */
  /** The error a run reports when it leaves through a step: the length of
      the last step, or `inf` before the first one. */
  function UltimoError(he: seq<ExtReal>): ExtReal
  {
    if |he| > 0 then he[|he| - 1] else Inf
  }

  function FinDelBucle(x: real, iteracion: nat, error: ExtReal, tol: real,
                       hx: seq<real>, he: seq<ExtReal>): Resultado
  {
    var ok := MenorIgual(error, tol);
    Resultado(Some(x), iteracion, ok, error, hx, he,
              if ok then ConvergenciaExitosa else MaximoIteraciones)
  }

  /** The invariants every solver result keeps, whichever path it leaves by:
      one error per iteration, the iteration cap, the message agreeing with
      `convergencia`, a converged result carrying a root and a finite error,
      "maximum reached" meaning the cap really was reached, only the first
      error possibly the `inf` sentinel, and every error but the last above
      the tolerance (the loop went on after it). */
  predicate Coherente(r: Resultado, tol: real, maxIter: int)
  {
    var he := r.historialError;
    |he| == r.iteraciones
    && r.iteraciones <= Max0(maxIter)
    && (r.convergencia <==> r.mensaje == ConvergenciaExitosa)
    && (r.convergencia ==> r.raiz.Some? && r.error.Finite? && r.iteraciones >= 1 && tol >= 0.0)
    && (r.mensaje == MaximoIteraciones ==> r.iteraciones == Max0(maxIter) && Mayor(r.error, tol))
    && (r.error.Finite? ==> r.error.val >= 0.0)
    && ErroresFinitos(r)
    && (forall k :: 0 <= k < |he| && he[k].Finite? ==> he[k].val >= 0.0)
    && (forall k :: 0 <= k < |he| - 1 ==> Mayor(he[k], tol))
  }

  /** Every error after the first is a real number. */
  predicate ErroresFinitos(r: Resultado)
  {
    forall k :: 1 <= k < |r.historialError| ==> r.historialError[k].Finite?
  }

  /** The part of `Coherente` that holds of a solver's loop state. */
  predicate EstadoCoherente(iteracion: nat, error: ExtReal, he: seq<ExtReal>, tol: real, maxIter: int)
  {
    |he| == iteracion
    && iteracion <= Max0(maxIter)
    && (iteracion == 0 ==> error == Inf)
    && (iteracion > 0 ==> he[iteracion - 1] == error)
    && (error.Finite? ==> error.val >= 0.0)
    && (forall k :: 1 <= k < |he| ==> he[k].Finite?)
    && (forall k :: 0 <= k < |he| && he[k].Finite? ==> he[k].val >= 0.0)
    && (forall k :: 0 <= k < |he| - 1 ==> Mayor(he[k], tol))
  }

  /** One more iteration that appends `e` keeps the loop state coherent. */
  lemma PasoCoherente(iteracion: nat, error: ExtReal, he: seq<ExtReal>, e: ExtReal, tol: real, maxIter: int)
    requires EstadoCoherente(iteracion, error, he, tol, maxIter)
    requires iteracion < maxIter && Mayor(error, tol)
    requires iteracion > 0 ==> e.Finite?
    requires iteracion == 0 && e.Inf? ==> e == error
    requires e.Finite? ==> e.val >= 0.0
    ensures EstadoCoherente(iteracion + 1, e, he + [e], tol, maxIter)
  {
    var he' := he + [e];
    assert forall k :: 0 <= k < |he| ==> he'[k] == he[k];
  }

  /** A loop that ends normally from a coherent state gives a coherent result. */
  lemma FinCoherente(x: real, iteracion: nat, error: ExtReal, tol: real, maxIter: int, hx: seq<real>, he: seq<ExtReal>)
    requires EstadoCoherente(iteracion, error, he, tol, maxIter)
    requires !(iteracion < maxIter && Mayor(error, tol))
    ensures Coherente(FinDelBucle(x, iteracion, error, tol, hx, he), tol, maxIter)
  {
  }

  // ---------------------------------------------------------------------
  // Bisection (`biseccion`, src/metodos_numericos.py:21-95)
  // ---------------------------------------------------------------------

  /** The bisection loop run from bracket [a, b] after `iteracion` steps,
      with the last error, the previous midpoint and the histories so far.
      The source's test `f(a) * f(c) < 0` is written
      `SignosOpuestos(f(a), f(c))`, the same on real numbers
      (`ProductoNegativo`). */
  function BiseccionDesde(f: real -> real, tol: real, maxIter: int, a: real, b: real,
                          iteracion: nat, error: ExtReal, xAnterior: real,
                          hx: seq<real>, he: seq<ExtReal>): Resultado
    decreases maxIter - iteracion
  {
    if iteracion < maxIter && Mayor(error, tol) then
      var c := (a + b) / 2.0;
      var e := if iteracion > 0 then Finite(Abs(c - xAnterior)) else error;
      var fc := f(c);
      if Abs(fc) < tol then
        Resultado(Some(c), iteracion + 1, true, Finite(Abs(fc)), hx + [c], he + [e], ConvergenciaExitosa)
      else if SignosOpuestos(f(a), fc) then
        BiseccionDesde(f, tol, maxIter, a, c, iteracion + 1, e, c, hx + [c], he + [e])
      else
        BiseccionDesde(f, tol, maxIter, c, b, iteracion + 1, e, c, hx + [c], he + [e])
    else
      FinDelBucle((a + b) / 2.0, iteracion, error, tol, hx, he)
  }

  /** The result of `biseccion(f, a, b)`. */
  function ResultadoBiseccion(f: real -> real, a: real, b: real, tol: real, maxIter: int): Resultado
  {
    if f(a) * f(b) >= 0.0 then Resultado(None, 0, false, Inf, [], [], SinCambioDeSigno)
    else BiseccionDesde(f, tol, maxIter, a, b, 0, Inf, 0.0, [], [])
  }

  method Biseccion(f: real -> real, a0: real, b0: real, tol: real, maxIter: int) returns (r: Resultado)
    ensures r == ResultadoBiseccion(f, a0, b0, tol, maxIter)
  {
    if f(a0) * f(b0) >= 0.0 {
      return Resultado(None, 0, false, Inf, [], [], SinCambioDeSigno);
    }
    var a, b := a0, b0;
    var iteracion: nat := 0;
    var error := Inf;
    var historialX: seq<real> := [];
    var historialError: seq<ExtReal> := [];
    var xAnterior := 0.0;
    while iteracion < maxIter && Mayor(error, tol)
      invariant BiseccionDesde(f, tol, maxIter, a, b, iteracion, error, xAnterior, historialX, historialError)
                == ResultadoBiseccion(f, a0, b0, tol, maxIter)
      decreases maxIter - iteracion
    {
      var c := (a + b) / 2.0;
      historialX := historialX + [c];
      if iteracion > 0 {
        error := Finite(Abs(c - xAnterior));
      }
      historialError := historialError + [error];
      var fc := f(c);
      ProductoNegativo(f(a), fc);
      if Abs(fc) < tol {
        return Resultado(Some(c), iteracion + 1, true, Finite(Abs(fc)), historialX, historialError, ConvergenciaExitosa);
      }
      if f(a) * fc < 0.0 {
        b := c;
      } else {
        a := c;
      }
      xAnterior := c;
      iteracion := iteracion + 1;
    }
    r := FinDelBucle((a + b) / 2.0, iteracion, error, tol, historialX, historialError);
  }

  /** Without a sign change, bisection returns before any loop work. */
  lemma BiseccionSinCambioDeSigno(f: real -> real, a: real, b: real, tol: real, maxIter: int)
    requires f(a) * f(b) >= 0.0
    ensures ResultadoBiseccion(f, a, b, tol, maxIter)
            == Resultado(None, 0, false, Inf, [], [], SinCambioDeSigno)
  {
  }

  lemma {:induction false} BiseccionDesdeCoherente(f: real -> real, tol: real, maxIter: int, a: real, b: real,
                                                   iteracion: nat, error: ExtReal, xAnterior: real,
                                                   hx: seq<real>, he: seq<ExtReal>)
    requires EstadoCoherente(iteracion, error, he, tol, maxIter)
    ensures Coherente(BiseccionDesde(f, tol, maxIter, a, b, iteracion, error, xAnterior, hx, he), tol, maxIter)
    decreases maxIter - iteracion
  {
    if iteracion < maxIter && Mayor(error, tol) {
      var c := (a + b) / 2.0;
      var e := if iteracion > 0 then Finite(Abs(c - xAnterior)) else error;
      PasoCoherente(iteracion, error, he, e, tol, maxIter);
      if Abs(f(c)) >= tol {
        if SignosOpuestos(f(a), f(c)) {
          BiseccionDesdeCoherente(f, tol, maxIter, a, c, iteracion + 1, e, c, hx + [c], he + [e]);
        } else {
          BiseccionDesdeCoherente(f, tol, maxIter, c, b, iteracion + 1, e, c, hx + [c], he + [e]);
        }
      }
    } else {
      FinCoherente((a + b) / 2.0, iteracion, error, tol, maxIter, hx, he);
    }
  }

  /** Every bisection result satisfies the shared result invariants; in
      particular both histories have one entry per iteration. */
  lemma BiseccionCoherente(f: real -> real, a: real, b: real, tol: real, maxIter: int)
    ensures var r := ResultadoBiseccion(f, a, b, tol, maxIter);
            Coherente(r, tol, maxIter) && |r.historialX| == |r.historialError|
  {
    if f(a) * f(b) < 0.0 {
      BiseccionDesdeCoherente(f, tol, maxIter, a, b, 0, Inf, 0.0, [], []);
      BiseccionDesdeLongitudes(f, tol, maxIter, a, b, 0, Inf, 0.0, [], []);
    }
  }

  lemma {:induction false} BiseccionDesdeLongitudes(f: real -> real, tol: real, maxIter: int, a: real, b: real,
                                                    iteracion: nat, error: ExtReal, xAnterior: real,
                                                    hx: seq<real>, he: seq<ExtReal>)
    requires |hx| == |he|
    ensures var r := BiseccionDesde(f, tol, maxIter, a, b, iteracion, error, xAnterior, hx, he);
            |r.historialX| == |r.historialError|
    decreases maxIter - iteracion
  {
    if iteracion < maxIter && Mayor(error, tol) {
      var c := (a + b) / 2.0;
      var e := if iteracion > 0 then Finite(Abs(c - xAnterior)) else error;
      if Abs(f(c)) >= tol {
        if SignosOpuestos(f(a), f(c)) {
          BiseccionDesdeLongitudes(f, tol, maxIter, a, c, iteracion + 1, e, c, hx + [c], he + [e]);
        } else {
          BiseccionDesdeLongitudes(f, tol, maxIter, c, b, iteracion + 1, e, c, hx + [c], he + [e]);
        }
      }
    }
  }

  /** x lies in the closed interval spanned by a0 and b0 (the source does not
      demand a0 < b0). */
  predicate EnIntervalo(x: real, a0: real, b0: real)
  {
    (a0 <= x <= b0) || (b0 <= x <= a0)
  }

  /** w halved n times: the width of the bisection bracket after n steps. */
  function Mitad(w: real, n: nat): real
  {
    if n == 0 then w else Mitad(w, n - 1) / 2.0
  }

  /** Halving n times is dividing by 2^n. */
  lemma {:induction false} MitadEsDivision(w: real, n: nat)
    ensures Mitad(w, n) == w / Pow2(n)
  {
    if n > 0 {
      MitadEsDivision(w, n - 1);
      assert Mitad(w, n) * Pow2(n) == Mitad(w, n - 1) * Pow2(n - 1);
    }
  }

  lemma {:induction false} MitadAbs(w: real, n: nat)
    ensures Abs(Mitad(w, n)) == Mitad(Abs(w), n)
  {
    if n > 0 {
      MitadAbs(w, n - 1);
    }
  }

  /** What the bisection histories look like: equally long, every midpoint
      inside the original interval, the first error the `inf` sentinel and
      error k the distance between midpoints k and k-1, which is the original
      width halved k+1 times. */
  predicate HistorialBiseccion(a0: real, b0: real, hx: seq<real>, he: seq<ExtReal>)
  {
    |hx| == |he|
    && (forall k :: 0 <= k < |hx| ==> EnIntervalo(hx[k], a0, b0))
    && (|he| > 0 ==> he[0] == Inf)
    && (forall k :: 1 <= k < |he| ==>
          he[k] == Finite(Abs(hx[k] - hx[k - 1])) && he[k] == Finite(Mitad(Abs(b0 - a0), k + 1)))
  }

  /** The bisection loop invariant: the bracket still has a sign change, its
      width is the original width halved once per iteration, both ends stay
      inside the original interval, and the previous midpoint is one end. */
  predicate Horquilla(f: real -> real, a0: real, b0: real, a: real, b: real,
                      iteracion: nat, error: ExtReal, xAnterior: real,
                      hx: seq<real>, he: seq<ExtReal>)
  {
    SignosOpuestos(f(a), f(b))
    && b - a == Mitad(b0 - a0, iteracion)
    && EnIntervalo(a, a0, b0) && EnIntervalo(b, a0, b0)
    && |hx| == iteracion && |he| == iteracion
    && (iteracion == 0 ==> error == Inf)
    && (iteracion > 0 ==> (xAnterior == a || xAnterior == b) && hx[iteracion - 1] == xAnterior
                          && he[iteracion - 1] == error)
  }

  /** Halving a bracket whose width is w halved i times. */
  lemma MitadDelAncho(a: real, b: real, w: real, i: nat)
    requires b - a == Mitad(w, i)
    ensures (a + b) / 2.0 - a == Mitad(w, i + 1)
    ensures b - (a + b) / 2.0 == Mitad(w, i + 1)
    ensures Abs((a + b) / 2.0 - a) == Mitad(Abs(w), i + 1)
    ensures Abs((a + b) / 2.0 - b) == Mitad(Abs(w), i + 1)
  {
    MitadAbs(w, i + 1);
  }

  /** Appending a midpoint inside the interval, with the error the loop
      records for it, keeps the bisection history well formed. */
  lemma HistorialBiseccionExtendido(a0: real, b0: real, hx: seq<real>, he: seq<ExtReal>, c: real, e: ExtReal)
    requires HistorialBiseccion(a0, b0, hx, he)
    requires EnIntervalo(c, a0, b0)
    requires |hx| == 0 ==> e == Inf
    requires |hx| > 0 ==> e == Finite(Abs(c - hx[|hx| - 1])) && e == Finite(Mitad(Abs(b0 - a0), |hx| + 1))
    ensures HistorialBiseccion(a0, b0, hx + [c], he + [e])
  {
    var hx', he' := hx + [c], he + [e];
    forall k | 0 <= k < |hx'| ensures EnIntervalo(hx'[k], a0, b0) {
      if k < |hx| {
        assert hx'[k] == hx[k];
      }
    }
    forall k | 1 <= k < |he'|
      ensures he'[k] == Finite(Abs(hx'[k] - hx'[k - 1])) && he'[k] == Finite(Mitad(Abs(b0 - a0), k + 1))
    {
      if k < |he| {
        assert hx'[k] == hx[k] && hx'[k - 1] == hx[k - 1] && he'[k] == he[k];
      } else {
        assert hx'[k] == c && hx'[k - 1] == hx[|hx| - 1] && he'[k] == e;
      }
    }
  }

  /** One bisection step keeps the loop invariant and the history shape
      (given tolerancia > 0, so a midpoint that does not stop the loop has
      f(c) != 0). */
  lemma PasoHorquilla(f: real -> real, tol: real, a0: real, b0: real, a: real, b: real,
                      iteracion: nat, error: ExtReal, xAnterior: real,
                      hx: seq<real>, he: seq<ExtReal>, izquierda: bool)
    requires tol > 0.0
    requires Horquilla(f, a0, b0, a, b, iteracion, error, xAnterior, hx, he)
    requires HistorialBiseccion(a0, b0, hx, he)
    requires Abs(f((a + b) / 2.0)) >= tol
    requires izquierda <==> SignosOpuestos(f(a), f((a + b) / 2.0))
    ensures var c := (a + b) / 2.0;
            var e := if iteracion > 0 then Finite(Abs(c - xAnterior)) else error;
            Horquilla(f, a0, b0, if izquierda then a else c, if izquierda then c else b,
                      iteracion + 1, e, c, hx + [c], he + [e])
            && HistorialBiseccion(a0, b0, hx + [c], he + [e])
  {
    var c := (a + b) / 2.0;
    var e := if iteracion > 0 then Finite(Abs(c - xAnterior)) else error;
    MitadDelAncho(a, b, b0 - a0, iteracion);
    MedioDeHorquilla(f, a0, b0, a, b, iteracion, error, xAnterior, hx, he);
    HistorialBiseccionExtendido(a0, b0, hx, he, c, e);
  }

  /** The midpoint of a bracket lies in the original interval and, after
      the first iteration, is the width halved i+1 times from the previous
      midpoint. */
  lemma MedioDeHorquilla(f: real -> real, a0: real, b0: real, a: real, b: real,
                         iteracion: nat, error: ExtReal, xAnterior: real,
                         hx: seq<real>, he: seq<ExtReal>)
    requires Horquilla(f, a0, b0, a, b, iteracion, error, xAnterior, hx, he)
    ensures EnIntervalo((a + b) / 2.0, a0, b0)
    ensures iteracion > 0 ==> Abs((a + b) / 2.0 - xAnterior) == Mitad(Abs(b0 - a0), iteracion + 1)
  {
    MitadDelAncho(a, b, b0 - a0, iteracion);
  }

  /** The loop stopped at its last midpoint because that midpoint was a
      root within the tolerance. */
  predicate ParadaTemprana(f: real -> real, tol: real, hx: seq<real>)
  {
    |hx| > 0 && Abs(f(hx[|hx| - 1])) < tol
  }

  /** How many times the bracket whose midpoint is the returned root was
      halved: the midpoint that stops the loop early comes from the bracket
      of its own iteration; the one the loop test leaves comes from the
      bracket after the last iteration. */
  function MitadesDeLaRaiz(f: real -> real, tol: real, hx: seq<real>): nat
  {
    if ParadaTemprana(f, tol, hx) then |hx| - 1 else |hx|
  }

  /** x is the midpoint of a bracket inside [a0, b0] with a sign change whose
      width is the original width halved n times. */
  ghost predicate CentroDeHorquilla(f: real -> real, a0: real, b0: real, x: real, n: nat)
  {
    exists a, b :: SignosOpuestos(f(a), f(b)) && b - a == Mitad(b0 - a0, n)
                   && EnIntervalo(a, a0, b0) && EnIntervalo(b, a0, b0) && x == (a + b) / 2.0
  }

  lemma {:induction false} BiseccionDesdeHistorial(f: real -> real, tol: real, maxIter: int, a0: real, b0: real,
                                                   a: real, b: real, iteracion: nat, error: ExtReal,
                                                   xAnterior: real, hx: seq<real>, he: seq<ExtReal>)
    requires tol > 0.0
    requires Horquilla(f, a0, b0, a, b, iteracion, error, xAnterior, hx, he)
    requires HistorialBiseccion(a0, b0, hx, he)
    requires forall k :: 0 <= k < |hx| ==> Abs(f(hx[k])) >= tol
    ensures var r := BiseccionDesde(f, tol, maxIter, a, b, iteracion, error, xAnterior, hx, he);
            HistorialBiseccion(a0, b0, r.historialX, r.historialError)
            && r.raiz.Some? && EnIntervalo(r.raiz.value, a0, b0)
            && CentroDeHorquilla(f, a0, b0, r.raiz.value, MitadesDeLaRaiz(f, tol, r.historialX))
    decreases maxIter - iteracion
  {
    var r := BiseccionDesde(f, tol, maxIter, a, b, iteracion, error, xAnterior, hx, he);
    var c := (a + b) / 2.0;
    MedioDeHorquilla(f, a0, b0, a, b, iteracion, error, xAnterior, hx, he);
    if iteracion < maxIter && Mayor(error, tol) {
      var e := if iteracion > 0 then Finite(Abs(c - xAnterior)) else error;
      if Abs(f(c)) < tol {
        assert r == Resultado(Some(c), iteracion + 1, true, Finite(Abs(f(c))), hx + [c], he + [e], ConvergenciaExitosa);
        HistorialBiseccionExtendido(a0, b0, hx, he, c, e);
        assert (hx + [c])[|hx|] == c;
        assert MitadesDeLaRaiz(f, tol, r.historialX) == iteracion;
        assert CentroDeHorquilla(f, a0, b0, c, iteracion);
      } else {
        var izquierda := SignosOpuestos(f(a), f(c));
        var a', b' := if izquierda then a else c, if izquierda then c else b;
        assert r == BiseccionDesde(f, tol, maxIter, a', b', iteracion + 1, e, c, hx + [c], he + [e]);
        PasoHorquilla(f, tol, a0, b0, a, b, iteracion, error, xAnterior, hx, he, izquierda);
        forall k | 0 <= k < |hx + [c]| ensures Abs(f((hx + [c])[k])) >= tol {
          if k < |hx| {
            assert (hx + [c])[k] == hx[k];
          }
        }
        BiseccionDesdeHistorial(f, tol, maxIter, a0, b0, a', b', iteracion + 1, e, c, hx + [c], he + [e]);
      }
    } else {
      assert r == FinDelBucle(c, iteracion, error, tol, hx, he);
      assert !ParadaTemprana(f, tol, hx);
      assert CentroDeHorquilla(f, a0, b0, c, iteracion);
    }
  }

  /** The bisection histories and root, given a sign change and tolerancia > 0:
      midpoints inside [a, b], the first error `inf` and error k equal to
      |c_k - c_{k-1}| = |b - a| / 2^(k+1); the root is the midpoint of a
      bracket inside [a, b] that still has a sign change and is |b - a|
      halved once per completed iteration. */
  lemma BiseccionHistorial(f: real -> real, a: real, b: real, tol: real, maxIter: int)
    requires tol > 0.0 && f(a) * f(b) < 0.0
    ensures var r := ResultadoBiseccion(f, a, b, tol, maxIter);
            HistorialBiseccion(a, b, r.historialX, r.historialError)
            && r.raiz.Some? && EnIntervalo(r.raiz.value, a, b)
            && (forall k :: 1 <= k < |r.historialError| ==>
                  r.historialError[k] == Finite(Abs(b - a) / Pow2(k + 1)))
            && CentroDeHorquilla(f, a, b, r.raiz.value, MitadesDeLaRaiz(f, tol, r.historialX))
  {
    ProductoNegativo(f(a), f(b));
    BiseccionDesdeHistorial(f, tol, maxIter, a, b, a, b, 0, Inf, 0.0, [], []);
    var he := ResultadoBiseccion(f, a, b, tol, maxIter).historialError;
    forall k | 1 <= k < |he| ensures he[k] == Finite(Abs(b - a) / Pow2(k + 1)) {
      MitadEsDivision(Abs(b - a), k + 1);
    }
  }

  /** The two ways a bisection loop ends, told apart by the last midpoint.
      No midpoint before the last one was within the tolerance. If the last
      one was, the loop stopped there: converged, the reported error is
      |f(raiz)| and the root is that midpoint. Otherwise the loop test
      failed: converged means error <= tol, and the error is the last
      history entry (`inf` when there is none). */
  predicate SalidaBiseccion(f: real -> real, tol: real, r: Resultado)
  {
    var hx, he := r.historialX, r.historialError;
    r.raiz.Some?
    && (forall k :: 0 <= k < |hx| - 1 ==> Abs(f(hx[k])) >= tol)
    && if ParadaTemprana(f, tol, hx) then
         r.convergencia && r.error == Finite(Abs(f(r.raiz.value))) && r.raiz.value == hx[|hx| - 1]
       else
         r.convergencia == MenorIgual(r.error, tol)
         && (|he| > 0 ==> r.error == he[|he| - 1])
         && (|he| == 0 ==> r.error == Inf)
  }

  lemma {:induction false} BiseccionDesdeSalida(f: real -> real, tol: real, maxIter: int, a: real, b: real,
                                                iteracion: nat, error: ExtReal, xAnterior: real,
                                                hx: seq<real>, he: seq<ExtReal>)
    requires |hx| == |he| == iteracion
    requires iteracion == 0 ==> error == Inf
    requires iteracion > 0 ==> he[iteracion - 1] == error
    requires forall k :: 0 <= k < |hx| ==> Abs(f(hx[k])) >= tol
    ensures var r := BiseccionDesde(f, tol, maxIter, a, b, iteracion, error, xAnterior, hx, he);
            SalidaBiseccion(f, tol, r)
    decreases maxIter - iteracion
  {
    var r := BiseccionDesde(f, tol, maxIter, a, b, iteracion, error, xAnterior, hx, he);
    if iteracion < maxIter && Mayor(error, tol) {
      var c := (a + b) / 2.0;
      var e := if iteracion > 0 then Finite(Abs(c - xAnterior)) else error;
      var hx' := hx + [c];
      assert hx'[|hx|] == c;
      if Abs(f(c)) < tol {
        assert r == Resultado(Some(c), iteracion + 1, true, Finite(Abs(f(c))), hx', he + [e], ConvergenciaExitosa);
        assert ParadaTemprana(f, tol, hx');
        forall k | 0 <= k < |hx'| - 1 ensures Abs(f(hx'[k])) >= tol {
          assert hx'[k] == hx[k];
        }
      } else {
        var izquierda := SignosOpuestos(f(a), f(c));
        var a', b' := if izquierda then a else c, if izquierda then c else b;
        assert r == BiseccionDesde(f, tol, maxIter, a', b', iteracion + 1, e, c, hx', he + [e]);
        forall k | 0 <= k < |hx'| ensures Abs(f(hx'[k])) >= tol {
          if k < |hx| {
            assert hx'[k] == hx[k];
          }
        }
        BiseccionDesdeSalida(f, tol, maxIter, a', b', iteracion + 1, e, c, hx', he + [e]);
      }
    } else {
      assert r == FinDelBucle((a + b) / 2.0, iteracion, error, tol, hx, he);
      assert !ParadaTemprana(f, tol, hx);
    }
  }

  /** With a sign change, bisection leaves its loop in one of the two ways
      `SalidaBiseccion` describes. */
  lemma BiseccionSalida(f: real -> real, a: real, b: real, tol: real, maxIter: int)
    requires f(a) * f(b) < 0.0
    ensures SalidaBiseccion(f, tol, ResultadoBiseccion(f, a, b, tol, maxIter))
  {
    BiseccionDesdeSalida(f, tol, maxIter, a, b, 0, Inf, 0.0, [], []);
  }

  /** Bisection converges whenever some iteration k < max_iteraciones (k >= 1)
      brings the midpoint step |b - a| / 2^(k+1) within the tolerance: the
      stopping test uses the distance between midpoints, which is fixed by
      the bracket width alone. */
  lemma BiseccionConverge(f: real -> real, a: real, b: real, tol: real, maxIter: int, k: nat)
    requires tol > 0.0 && f(a) * f(b) < 0.0
    requires 1 <= k < maxIter && Abs(b - a) / Pow2(k + 1) <= tol
    ensures ResultadoBiseccion(f, a, b, tol, maxIter).convergencia
  {
    ProductoNegativo(f(a), f(b));
    MitadEsDivision(Abs(b - a), k + 1);
    BiseccionDesdeConverge(f, tol, maxIter, a, b, a, b, 0, Inf, 0.0, [], [], k);
  }

  lemma {:induction false} BiseccionDesdeConverge(f: real -> real, tol: real, maxIter: int, a0: real, b0: real,
                                                  a: real, b: real, iteracion: nat, error: ExtReal,
                                                  xAnterior: real, hx: seq<real>, he: seq<ExtReal>, k: nat)
    requires tol > 0.0
    requires Horquilla(f, a0, b0, a, b, iteracion, error, xAnterior, hx, he)
    requires HistorialBiseccion(a0, b0, hx, he)
    requires 1 <= k < maxIter && Mitad(Abs(b0 - a0), k + 1) <= tol
    requires iteracion <= k
    ensures BiseccionDesde(f, tol, maxIter, a, b, iteracion, error, xAnterior, hx, he).convergencia
    decreases k - iteracion
  {
    var r := BiseccionDesde(f, tol, maxIter, a, b, iteracion, error, xAnterior, hx, he);
    var c := (a + b) / 2.0;
    if !Mayor(error, tol) {
      assert r == FinDelBucle(c, iteracion, error, tol, hx, he);
    } else if Abs(f(c)) < tol {
      assert r.convergencia;
    } else {
      if iteracion < k {
        var e := if iteracion > 0 then Finite(Abs(c - xAnterior)) else error;
        var izquierda := SignosOpuestos(f(a), f(c));
        var a', b' := if izquierda then a else c, if izquierda then c else b;
        PasoHorquilla(f, tol, a0, b0, a, b, iteracion, error, xAnterior, hx, he, izquierda);
        assert r == BiseccionDesde(f, tol, maxIter, a', b', iteracion + 1, e, c, hx + [c], he + [e]);
        BiseccionDesdeConverge(f, tol, maxIter, a0, b0, a', b', iteracion + 1, e, c, hx + [c], he + [e], k);
      } else {
        PasoFinal(f, tol, maxIter, a0, b0, a, b, iteracion, error, xAnterior, hx, he);
      }
    }
  }

  /** At iteration k >= 1 the step between midpoints is the width halved k+1
      times; once that is within the tolerance the loop stops converged. */
  lemma PasoFinal(f: real -> real, tol: real, maxIter: int, a0: real, b0: real,
                  a: real, b: real, iteracion: nat, error: ExtReal,
                  xAnterior: real, hx: seq<real>, he: seq<ExtReal>)
    requires Horquilla(f, a0, b0, a, b, iteracion, error, xAnterior, hx, he)
    requires 1 <= iteracion < maxIter && Mitad(Abs(b0 - a0), iteracion + 1) <= tol
    requires Mayor(error, tol) && Abs(f((a + b) / 2.0)) >= tol
    ensures BiseccionDesde(f, tol, maxIter, a, b, iteracion, error, xAnterior, hx, he).convergencia
  {
    var c := (a + b) / 2.0;
    MitadDelAncho(a, b, b0 - a0, iteracion);
    var e := Finite(Abs(c - xAnterior));
    assert !Mayor(e, tol);
    var a', b' := if SignosOpuestos(f(a), f(c)) then a else c, if SignosOpuestos(f(a), f(c)) then c else b;
    assert BiseccionDesde(f, tol, maxIter, a, b, iteracion, error, xAnterior, hx, he)
           == BiseccionDesde(f, tol, maxIter, a', b', iteracion + 1, e, c, hx + [c], he + [e]);
    assert BiseccionDesde(f, tol, maxIter, a', b', iteracion + 1, e, c, hx + [c], he + [e])
           == FinDelBucle((a' + b') / 2.0, iteracion + 1, e, tol, hx + [c], he + [e]);
  }

  // ---------------------------------------------------------------------
  // Newton-Raphson (`newton_raphson`, src/metodos_numericos.py:97-163)
  // ---------------------------------------------------------------------

  function NewtonDesde(f: real -> real, fp: real -> real, tol: real, maxIter: int, x: real,
                       iteracion: nat, error: ExtReal, hx: seq<real>, he: seq<ExtReal>): Resultado
    decreases maxIter - iteracion
  {
    if iteracion < maxIter && Mayor(error, tol) then
      var fx := f(x);
      var fpx := fp(x);
      if Abs(fpx) < DerivadaMinima then
        Resultado(Some(x), iteracion, false, Inf, hx, he, DerivadaPequena)
      else
        var xNuevo := x - fx / fpx;
        var e := Finite(Abs(xNuevo - x));
        if Abs(f(xNuevo)) < tol then
          Resultado(Some(xNuevo), iteracion + 1, true, e, hx + [xNuevo], he + [e], ConvergenciaExitosa)
        else
          NewtonDesde(f, fp, tol, maxIter, xNuevo, iteracion + 1, e, hx + [xNuevo], he + [e])
    else
      FinDelBucle(x, iteracion, error, tol, hx, he)
  }

  /** The result of `newton_raphson(f, f', x0)`. */
  function ResultadoNewton(f: real -> real, fp: real -> real, x0: real, tol: real, maxIter: int): Resultado
  {
    NewtonDesde(f, fp, tol, maxIter, x0, 0, Inf, [x0], [])
  }

  method NewtonRaphson(f: real -> real, fp: real -> real, x0: real, tol: real, maxIter: int) returns (r: Resultado)
    ensures r == ResultadoNewton(f, fp, x0, tol, maxIter)
  {
    var iteracion: nat := 0;
    var xActual := x0;
    var error := Inf;
    var historialX := [x0];
    var historialError: seq<ExtReal> := [];
    while iteracion < maxIter && Mayor(error, tol)
      invariant NewtonDesde(f, fp, tol, maxIter, xActual, iteracion, error, historialX, historialError)
                == ResultadoNewton(f, fp, x0, tol, maxIter)
      decreases maxIter - iteracion
    {
      var fx := f(xActual);
      var fpx := fp(xActual);
      if Abs(fpx) < DerivadaMinima {
        return Resultado(Some(xActual), iteracion, false, Inf, historialX, historialError, DerivadaPequena);
      }
      var xNuevo := xActual - fx / fpx;
      error := Finite(Abs(xNuevo - xActual));
      historialX := historialX + [xNuevo];
      historialError := historialError + [error];
      if Abs(f(xNuevo)) < tol {
        return Resultado(Some(xNuevo), iteracion + 1, true, error, historialX, historialError, ConvergenciaExitosa);
      }
      xActual := xNuevo;
      iteracion := iteracion + 1;
    }
    r := FinDelBucle(xActual, iteracion, error, tol, historialX, historialError);
  }

  /** The Newton history: it starts at x0, has one more entry than the error
      history, every step is x - f(x)/f'(x) from a point where the derivative
      passed the guard, and error k is the length of step k. */
  predicate HistorialNewton(f: real -> real, fp: real -> real, x0: real, hx: seq<real>, he: seq<ExtReal>)
  {
    |hx| == |he| + 1 && hx[0] == x0
    && forall k :: 0 <= k < |he| ==> PasoNewton(f, fp, hx[k], hx[k + 1], he[k])
  }

  /** x' is the Newton step from x, taken because f'(x) passed the guard, and
      e is its length. */
  predicate PasoNewton(f: real -> real, fp: real -> real, x: real, x': real, e: ExtReal)
  {
    Abs(fp(x)) >= DerivadaMinima && x' == x - f(x) / fp(x) && e == Finite(Abs(x' - x))
  }

  /** What a Newton run promises about its exits: the root is always the last
      iterate; no iterate after x0 and before the last had |f| < tol, and a
      last iterate that has it ended the run at once as a success; the
      derivative guard leaves error `inf`, no convergence and f'(raiz) below
      1e-15; success through the function-value test means |f(raiz)| < tol;
      otherwise converged means error <= tol. */
  predicate SalidaNewton(f: real -> real, fp: real -> real, tol: real, r: Resultado)
  {
    var hx := r.historialX;
    |hx| > 0 && r.raiz == Some(hx[|hx| - 1])
    && (forall k :: 1 <= k < |hx| - 1 ==> Abs(f(hx[k])) >= tol)
    && (|hx| > 1 && Abs(f(hx[|hx| - 1])) < tol ==> r.convergencia && r.mensaje == ConvergenciaExitosa)
    && (r.mensaje == DerivadaPequena ==>
          !r.convergencia && r.error == Inf && Abs(fp(r.raiz.value)) < DerivadaMinima)
    && (r.convergencia ==> Abs(f(r.raiz.value)) < tol || MenorIgual(r.error, tol))
    && (r.mensaje != DerivadaPequena && !(r.convergencia && Abs(f(r.raiz.value)) < tol) ==>
          r.convergencia == MenorIgual(r.error, tol))
    && (r.mensaje != DerivadaPequena ==> r.error == UltimoError(r.historialError))
  }

  /** One Newton step from the last iterate extends the history. */
  lemma HistorialNewtonExtendido(f: real -> real, fp: real -> real, x0: real, hx: seq<real>, he: seq<ExtReal>)
    requires HistorialNewton(f, fp, x0, hx, he)
    requires Abs(fp(hx[|hx| - 1])) >= DerivadaMinima
    ensures var x := hx[|hx| - 1];
            var xNuevo := x - f(x) / fp(x);
            HistorialNewton(f, fp, x0, hx + [xNuevo], he + [Finite(Abs(xNuevo - x))])
  {
    var x := hx[|hx| - 1];
    var xNuevo := x - f(x) / fp(x);
    var hx', he' := hx + [xNuevo], he + [Finite(Abs(xNuevo - x))];
    assert PasoNewton(f, fp, x, xNuevo, Finite(Abs(xNuevo - x)));
    forall k | 0 <= k < |he'| ensures PasoNewton(f, fp, hx'[k], hx'[k + 1], he'[k]) {
      if k < |he| {
        assert hx'[k] == hx[k] && hx'[k + 1] == hx[k + 1] && he'[k] == he[k];
      } else {
        assert hx'[k] == x && hx'[k + 1] == xNuevo;
      }
    }
  }

  lemma {:induction false} NewtonDesdeCoherente(f: real -> real, fp: real -> real, tol: real, maxIter: int,
                                                x: real, iteracion: nat, error: ExtReal,
                                                hx: seq<real>, he: seq<ExtReal>)
    requires EstadoCoherente(iteracion, error, he, tol, maxIter)
    ensures Coherente(NewtonDesde(f, fp, tol, maxIter, x, iteracion, error, hx, he), tol, maxIter)
    decreases maxIter - iteracion
  {
    if iteracion < maxIter && Mayor(error, tol) {
      if Abs(fp(x)) >= DerivadaMinima {
        var xNuevo := x - f(x) / fp(x);
        var e := Finite(Abs(xNuevo - x));
        PasoCoherente(iteracion, error, he, e, tol, maxIter);
        if Abs(f(xNuevo)) >= tol {
          NewtonDesdeCoherente(f, fp, tol, maxIter, xNuevo, iteracion + 1, e, hx + [xNuevo], he + [e]);
        }
      }
    } else {
      FinCoherente(x, iteracion, error, tol, maxIter, hx, he);
    }
  }

  lemma {:induction false} NewtonDesdeHistorial(f: real -> real, fp: real -> real, tol: real, maxIter: int,
                                                x0: real, x: real, iteracion: nat, error: ExtReal,
                                                hx: seq<real>, he: seq<ExtReal>)
    requires HistorialNewton(f, fp, x0, hx, he) && hx[|hx| - 1] == x
    ensures var r := NewtonDesde(f, fp, tol, maxIter, x, iteracion, error, hx, he);
            HistorialNewton(f, fp, x0, r.historialX, r.historialError)
    decreases maxIter - iteracion
  {
    if iteracion < maxIter && Mayor(error, tol) && Abs(fp(x)) >= DerivadaMinima {
      var xNuevo := x - f(x) / fp(x);
      HistorialNewtonExtendido(f, fp, x0, hx, he);
      if Abs(f(xNuevo)) >= tol {
        NewtonDesdeHistorial(f, fp, tol, maxIter, x0, xNuevo, iteracion + 1, Finite(Abs(xNuevo - x)),
                             hx + [xNuevo], he + [Finite(Abs(xNuevo - x))]);
      }
    }
  }

  lemma {:induction false} NewtonDesdeSalida(f: real -> real, fp: real -> real, tol: real, maxIter: int,
                                             x: real, iteracion: nat, error: ExtReal,
                                             hx: seq<real>, he: seq<ExtReal>)
    requires |hx| > 0 && hx[|hx| - 1] == x
    requires forall k :: 1 <= k < |hx| ==> Abs(f(hx[k])) >= tol
    requires error == UltimoError(he)
    ensures SalidaNewton(f, fp, tol, NewtonDesde(f, fp, tol, maxIter, x, iteracion, error, hx, he))
    decreases maxIter - iteracion
  {
    if iteracion < maxIter && Mayor(error, tol) && Abs(fp(x)) >= DerivadaMinima {
      var xNuevo := x - f(x) / fp(x);
      forall k | 0 <= k < |hx| ensures (hx + [xNuevo])[k] == hx[k] {
      }
      assert (hx + [xNuevo])[|hx|] == xNuevo;
      if Abs(f(xNuevo)) >= tol {
        NewtonDesdeSalida(f, fp, tol, maxIter, xNuevo, iteracion + 1, Finite(Abs(xNuevo - x)),
                          hx + [xNuevo], he + [Finite(Abs(xNuevo - x))]);
      }
    }
  }

  /** Every Newton result satisfies the shared invariants, its history starts
      at x0 and follows the Newton step, and its exits behave as `SalidaNewton`
      says. */
  lemma NewtonPropiedades(f: real -> real, fp: real -> real, x0: real, tol: real, maxIter: int)
    ensures var r := ResultadoNewton(f, fp, x0, tol, maxIter);
            Coherente(r, tol, maxIter) && HistorialNewton(f, fp, x0, r.historialX, r.historialError)
            && SalidaNewton(f, fp, tol, r)
  {
    NewtonDesdeCoherente(f, fp, tol, maxIter, x0, 0, Inf, [x0], []);
    NewtonDesdeHistorial(f, fp, tol, maxIter, x0, x0, 0, Inf, [x0], []);
    NewtonDesdeSalida(f, fp, tol, maxIter, x0, 0, Inf, [x0], []);
  }

  /** From a seed where the derivative is below 1e-15, Newton-Raphson returns
      through the guard at once, unless the cap is zero or negative. */
  lemma NewtonDerivadaNulaEnSemilla(f: real -> real, fp: real -> real, x0: real, tol: real, maxIter: int)
    requires Abs(fp(x0)) < DerivadaMinima && maxIter >= 1
    ensures ResultadoNewton(f, fp, x0, tol, maxIter)
            == Resultado(Some(x0), 0, false, Inf, [x0], [], DerivadaPequena)
  {
  }

  /** Newton-Raphson on f(x) = x - k (f' = 1) converges in exactly one
      iteration to k, from any seed. */
  lemma NewtonLineal(f: real -> real, fp: real -> real, k: real, x0: real, tol: real, maxIter: int)
    requires forall x :: f(x) == x - k && fp(x) == 1.0
    requires tol > 0.0 && maxIter >= 1
    ensures ResultadoNewton(f, fp, x0, tol, maxIter)
            == Resultado(Some(k), 1, true, Finite(Abs(k - x0)), [x0, k], [Finite(Abs(k - x0))], ConvergenciaExitosa)
  {
    assert f(x0) == x0 - k && fp(x0) == 1.0 && f(k) == 0.0;
    assert [x0] + [k] == [x0, k];
  }

  // ---------------------------------------------------------------------
  // Fixed point (`punto_fijo`, src/metodos_numericos.py:165-226)
  // ---------------------------------------------------------------------

  function PuntoFijoDesde(g: real -> real, tol: real, maxIter: int, x: real,
                          iteracion: nat, error: ExtReal, hx: seq<real>, he: seq<ExtReal>): Resultado
    decreases maxIter - iteracion
  {
    if iteracion < maxIter && Mayor(error, tol) then
      var xNuevo := g(x);
      var e := Finite(Abs(xNuevo - x));
      if Abs(xNuevo - x) < tol then
        Resultado(Some(xNuevo), iteracion + 1, true, e, hx + [xNuevo], he + [e], ConvergenciaExitosa)
      else if Abs(xNuevo) > CotaDivergencia then
        Resultado(Some(xNuevo), iteracion + 1, false, Inf, hx + [xNuevo], he + [e], MetodoDivergente)
      else
        PuntoFijoDesde(g, tol, maxIter, xNuevo, iteracion + 1, e, hx + [xNuevo], he + [e])
    else
      FinDelBucle(x, iteracion, error, tol, hx, he)
  }

  /** The result of `punto_fijo(g, x0)`. */
  function ResultadoPuntoFijo(g: real -> real, x0: real, tol: real, maxIter: int): Resultado
  {
    PuntoFijoDesde(g, tol, maxIter, x0, 0, Inf, [x0], [])
  }

  method PuntoFijo(g: real -> real, x0: real, tol: real, maxIter: int) returns (r: Resultado)
    ensures r == ResultadoPuntoFijo(g, x0, tol, maxIter)
  {
    var iteracion: nat := 0;
    var xActual := x0;
    var error := Inf;
    var historialX := [x0];
    var historialError: seq<ExtReal> := [];
    while iteracion < maxIter && Mayor(error, tol)
      invariant PuntoFijoDesde(g, tol, maxIter, xActual, iteracion, error, historialX, historialError)
                == ResultadoPuntoFijo(g, x0, tol, maxIter)
      decreases maxIter - iteracion
    {
      var xNuevo := g(xActual);
      error := Finite(Abs(xNuevo - xActual));
      historialX := historialX + [xNuevo];
      historialError := historialError + [error];
      if error.val < tol {
        return Resultado(Some(xNuevo), iteracion + 1, true, error, historialX, historialError, ConvergenciaExitosa);
      }
      if Abs(xNuevo) > CotaDivergencia {
        return Resultado(Some(xNuevo), iteracion + 1, false, Inf, historialX, historialError, MetodoDivergente);
      }
      xActual := xNuevo;
      iteracion := iteracion + 1;
    }
    r := FinDelBucle(xActual, iteracion, error, tol, historialX, historialError);
  }

  /** The fixed-point history: it starts at x0, has one more entry than the
      error history, each entry is g of the previous one and error k is the
      length of step k. */
  predicate HistorialPuntoFijo(g: real -> real, x0: real, hx: seq<real>, he: seq<ExtReal>)
  {
    |hx| == |he| + 1 && hx[0] == x0
    && forall k :: 0 <= k < |he| ==>
         hx[k + 1] == g(hx[k]) && he[k] == Finite(Abs(hx[k + 1] - hx[k]))
  }

  /** The fixed-point exits: the root is always the last iterate; every step
      before the last was at least tol long and every iterate after x0 and
      before the last was within the divergence bound, so a run stops at the
      first short step or the first iterate beyond 1e10; success means the
      last step was shorter than tol; divergence is declared exactly when the
      last step was at least tol long and led beyond 1e10, and leaves error
      `inf`; otherwise converged means error <= tol. */
  predicate SalidaPuntoFijo(tol: real, r: Resultado)
  {
    var hx, he := r.historialX, r.historialError;
    |hx| > 0 && r.raiz == Some(hx[|hx| - 1]) && |hx| == |he| + 1
    && (forall k :: 0 <= k < |he| ==> he[k].Finite?)
    && (forall k :: 0 <= k < |he| - 1 ==> he[k].val >= tol)
    && (forall k :: 1 <= k < |hx| - 1 ==> Abs(hx[k]) <= CotaDivergencia)
    && (r.mensaje == MetodoDivergente <==>
          |he| > 0 && he[|he| - 1].val >= tol && Abs(r.raiz.value) > CotaDivergencia)
    && (r.mensaje == MetodoDivergente ==> !r.convergencia && r.error == Inf)
    && (r.mensaje != MetodoDivergente ==> r.convergencia == MenorIgual(r.error, tol))
    && (r.mensaje != MetodoDivergente ==> r.error == UltimoError(he))
  }

  /** One application of g to the last iterate extends the history. */
  lemma HistorialPuntoFijoExtendido(g: real -> real, x0: real, hx: seq<real>, he: seq<ExtReal>)
    requires HistorialPuntoFijo(g, x0, hx, he)
    ensures var x := hx[|hx| - 1];
            HistorialPuntoFijo(g, x0, hx + [g(x)], he + [Finite(Abs(g(x) - x))])
  {
    var x := hx[|hx| - 1];
    var hx', he' := hx + [g(x)], he + [Finite(Abs(g(x) - x))];
    forall k | 0 <= k < |he'| ensures hx'[k + 1] == g(hx'[k]) && he'[k] == Finite(Abs(hx'[k + 1] - hx'[k])) {
      if k < |he| {
        assert hx'[k] == hx[k] && hx'[k + 1] == hx[k + 1] && he'[k] == he[k];
      } else {
        assert hx'[k] == x && hx'[k + 1] == g(x);
      }
    }
  }

  lemma {:induction false} PuntoFijoDesdeCoherente(g: real -> real, tol: real, maxIter: int, x: real,
                                                   iteracion: nat, error: ExtReal, hx: seq<real>, he: seq<ExtReal>)
    requires EstadoCoherente(iteracion, error, he, tol, maxIter)
    ensures Coherente(PuntoFijoDesde(g, tol, maxIter, x, iteracion, error, hx, he), tol, maxIter)
    decreases maxIter - iteracion
  {
    if iteracion < maxIter && Mayor(error, tol) {
      var xNuevo := g(x);
      var e := Finite(Abs(xNuevo - x));
      PasoCoherente(iteracion, error, he, e, tol, maxIter);
      if Abs(xNuevo - x) >= tol && Abs(xNuevo) <= CotaDivergencia {
        PuntoFijoDesdeCoherente(g, tol, maxIter, xNuevo, iteracion + 1, e, hx + [xNuevo], he + [e]);
      }
    } else {
      FinCoherente(x, iteracion, error, tol, maxIter, hx, he);
    }
  }

  lemma {:induction false} PuntoFijoDesdeHistorial(g: real -> real, tol: real, maxIter: int, x0: real, x: real,
                                                   iteracion: nat, error: ExtReal, hx: seq<real>, he: seq<ExtReal>)
    requires HistorialPuntoFijo(g, x0, hx, he) && hx[|hx| - 1] == x
    ensures var r := PuntoFijoDesde(g, tol, maxIter, x, iteracion, error, hx, he);
            HistorialPuntoFijo(g, x0, r.historialX, r.historialError)
    decreases maxIter - iteracion
  {
    var r := PuntoFijoDesde(g, tol, maxIter, x, iteracion, error, hx, he);
    if iteracion < maxIter && Mayor(error, tol) {
      var xNuevo := g(x);
      var e := Finite(Abs(xNuevo - x));
      HistorialPuntoFijoExtendido(g, x0, hx, he);
      if Abs(xNuevo - x) < tol || Abs(xNuevo) > CotaDivergencia {
        assert r.historialX == hx + [xNuevo] && r.historialError == he + [e];
      } else {
        assert r == PuntoFijoDesde(g, tol, maxIter, xNuevo, iteracion + 1, e, hx + [xNuevo], he + [e]);
        PuntoFijoDesdeHistorial(g, tol, maxIter, x0, xNuevo, iteracion + 1, e, hx + [xNuevo], he + [e]);
      }
    } else {
      assert r == FinDelBucle(x, iteracion, error, tol, hx, he);
    }
  }

  lemma {:induction false} PuntoFijoDesdeSalida(g: real -> real, tol: real, maxIter: int, x: real,
                                                iteracion: nat, error: ExtReal, hx: seq<real>, he: seq<ExtReal>)
    requires |hx| > 0 && hx[|hx| - 1] == x && |hx| == |he| + 1
    requires forall k :: 0 <= k < |he| ==> he[k].Finite? && he[k].val >= tol
    requires forall k :: 1 <= k < |hx| ==> Abs(hx[k]) <= CotaDivergencia
    requires error == UltimoError(he)
    ensures SalidaPuntoFijo(tol, PuntoFijoDesde(g, tol, maxIter, x, iteracion, error, hx, he))
    decreases maxIter - iteracion
  {
    if iteracion < maxIter && Mayor(error, tol) {
      var xNuevo := g(x);
      var e := Finite(Abs(xNuevo - x));
      forall k | 0 <= k < |hx| ensures (hx + [xNuevo])[k] == hx[k] {
      }
      forall k | 0 <= k < |he| ensures (he + [e])[k] == he[k] {
      }
      assert (hx + [xNuevo])[|hx|] == xNuevo && (he + [e])[|he|] == e;
      if Abs(xNuevo - x) >= tol && Abs(xNuevo) <= CotaDivergencia {
        PuntoFijoDesdeSalida(g, tol, maxIter, xNuevo, iteracion + 1, e, hx + [xNuevo], he + [e]);
      }
    }
  }

  /** Every fixed-point result satisfies the shared invariants, its history
      follows g from x0, and its exits behave as `SalidaPuntoFijo` says. */
  lemma PuntoFijoPropiedades(g: real -> real, x0: real, tol: real, maxIter: int)
    ensures var r := ResultadoPuntoFijo(g, x0, tol, maxIter);
            Coherente(r, tol, maxIter) && HistorialPuntoFijo(g, x0, r.historialX, r.historialError)
            && SalidaPuntoFijo(tol, r)
  {
    PuntoFijoDesdeCoherente(g, tol, maxIter, x0, 0, Inf, [x0], []);
    PuntoFijoDesdeHistorial(g, tol, maxIter, x0, x0, 0, Inf, [x0], []);
    PuntoFijoDesdeSalida(g, tol, maxIter, x0, 0, Inf, [x0], []);
  }

  /** A constant map g(x) = k with |k - x0| < tol converges in one iteration,
      even when |k| exceeds the divergence bound: the convergence test runs
      before the divergence test. */
  lemma PuntoFijoConstanteCercano(g: real -> real, k: real, x0: real, tol: real, maxIter: int)
    requires forall x :: g(x) == k
    requires maxIter >= 1 && Abs(k - x0) < tol
    ensures ResultadoPuntoFijo(g, x0, tol, maxIter)
            == Resultado(Some(k), 1, true, Finite(Abs(k - x0)), [x0, k], [Finite(Abs(k - x0))], ConvergenciaExitosa)
  {
    assert g(x0) == k;
  }

  /** A constant map g(x) = k with |k| <= 1e10 and |k - x0| > tol takes two
      iterations: the first step is too long, the second has length 0. */
  lemma PuntoFijoConstanteLejano(g: real -> real, k: real, x0: real, tol: real, maxIter: int)
    requires forall x :: g(x) == k
    requires maxIter >= 2 && tol > 0.0 && Abs(k - x0) > tol && Abs(k) <= CotaDivergencia
    ensures ResultadoPuntoFijo(g, x0, tol, maxIter)
            == Resultado(Some(k), 2, true, Finite(0.0), [x0, k, k],
                         [Finite(Abs(k - x0)), Finite(0.0)], ConvergenciaExitosa)
  {
    var e1 := Finite(Abs(k - x0));
    assert g(x0) == k && g(k) == k;
    assert [x0] + [k] == [x0, k];
    assert [] + [e1] == [e1];
    assert ResultadoPuntoFijo(g, x0, tol, maxIter) == PuntoFijoDesde(g, tol, maxIter, k, 1, e1, [x0, k], [e1]);
  }

  /** A constant map g(x) = k with |k| <= 1e10 and |k - x0| exactly tol stops
      after one iteration through the loop test, counted as converged
      (error <= tol), not through the strict early-success test. */
  lemma PuntoFijoConstanteEnElBorde(g: real -> real, k: real, x0: real, tol: real, maxIter: int)
    requires forall x :: g(x) == k
    requires maxIter >= 1 && Abs(k - x0) == tol && Abs(k) <= CotaDivergencia
    ensures ResultadoPuntoFijo(g, x0, tol, maxIter)
            == Resultado(Some(k), 1, true, Finite(tol), [x0, k], [Finite(tol)], ConvergenciaExitosa)
  {
    var e1 := Finite(Abs(k - x0));
    assert g(x0) == k;
    assert [x0] + [k] == [x0, k];
    assert [] + [e1] == [e1];
    assert ResultadoPuntoFijo(g, x0, tol, maxIter) == PuntoFijoDesde(g, tol, maxIter, k, 1, e1, [x0, k], [e1]);
  }

  // ---------------------------------------------------------------------
  // Comparison (`comparar_metodos`, src/metodos_numericos.py:228-275)
  // ---------------------------------------------------------------------

  datatype AnalisisComparativo = AnalisisComparativo(
    metodosConvergentes: seq<string>,
    mejorIteraciones: Option<Resultado>,
    mejorPrecision: Option<Resultado>,
    raizTeorica: Option<real>)

  /** The dictionary `comparar_metodos` returns: the three results under their
      keys, in insertion order, and the `analisis` entry. */
  datatype Comparacion = Comparacion(resultados: seq<(string, Resultado)>, analisis: AnalisisComparativo)

  /** The entries whose result converged, in order (the dict comprehension):
      a one-entry dictionary is kept or dropped by its own flag, and the
      filter of a concatenation is the concatenation of the filters
      (`ConvergentesConcatena`), so the order of the entries is kept. */
  function Convergentes(rs: seq<(string, Resultado)>): (c: seq<(string, Resultado)>)
    ensures forall p :: p in c <==> p in rs && p.1.convergencia
    ensures |c| <= |rs|
    ensures |rs| == 1 ==> c == (if rs[0].1.convergencia then rs else [])
  {
    if rs == [] then []
    else (if rs[0].1.convergencia then [rs[0]] else []) + Convergentes(rs[1..])
  }

  lemma {:induction false} ConvergentesConcatena(xs: seq<(string, Resultado)>, ys: seq<(string, Resultado)>)
    ensures Convergentes(xs + ys) == Convergentes(xs) + Convergentes(ys)
  {
    if xs != [] {
      assert (xs + ys)[0] == xs[0];
      assert (xs + ys)[1..] == xs[1..] + ys;
      ConvergentesConcatena(xs[1..], ys);
    } else {
      assert xs + ys == ys;
    }
  }

  function Claves(rs: seq<(string, Resultado)>): (ks: seq<string>)
    ensures |ks| == |rs| && forall i :: 0 <= i < |rs| ==> ks[i] == rs[i].0
  {
    seq(|rs|, i requires 0 <= i < |rs| => rs[i].0)
  }

  /** The keys `min` compares over the converged entries: their iteration
      counts ... */
  function PorIteraciones(c: seq<(string, Resultado)>): (ks: seq<ExtReal>)
    ensures |ks| == |c| && forall i :: 0 <= i < |c| ==> ks[i] == Finite(c[i].1.iteraciones as real)
  {
    seq(|c|, i requires 0 <= i < |c| => Finite(c[i].1.iteraciones as real))
  }

  /** ... and their errors. */
  function PorError(c: seq<(string, Resultado)>): (ks: seq<ExtReal>)
    ensures |ks| == |c| && forall i :: 0 <= i < |c| ==> ks[i] == c[i].1.error
  {
    seq(|c|, i requires 0 <= i < |c| => c[i].1.error)
  }

  /** The `analisis` entry for a dictionary of results. */
  function Comparativo(rs: seq<(string, Resultado)>): AnalisisComparativo
  {
    var c := Convergentes(rs);
    if c == [] then AnalisisComparativo([], None, None, None)
    else
      AnalisisComparativo(Claves(c), Some(c[IndiceMinimo(PorIteraciones(c))].1),
                          Some(c[IndiceMinimo(PorError(c))].1), None)
  }

  method CompararMetodos(f: real -> real, fp: real -> real, g: real -> real,
                         a: real, b: real, x0: real, tol: real, maxIter: int) returns (c: Comparacion)
    ensures c.resultados == [("biseccion", ResultadoBiseccion(f, a, b, tol, maxIter)),
                             ("newton_raphson", ResultadoNewton(f, fp, x0, tol, maxIter)),
                             ("punto_fijo", ResultadoPuntoFijo(g, x0, tol, maxIter))]
    ensures c.analisis == Comparativo(c.resultados)
  {
    var resultados: seq<(string, Resultado)> := [];
    var rb := Biseccion(f, a, b, tol, maxIter);
    resultados := resultados + [("biseccion", rb)];
    var rn := NewtonRaphson(f, fp, x0, tol, maxIter);
    resultados := resultados + [("newton_raphson", rn)];
    var rp := PuntoFijo(g, x0, tol, maxIter);
    resultados := resultados + [("punto_fijo", rp)];
    c := Comparacion(resultados, Comparativo(resultados));
  }

  /** `metodos_convergentes` is the list of keys of the converged entries, in
      the dictionary's order; the best-by-iterations and best-by-error entries
      exist exactly when something converged; each is the result of a
      converged entry, minimal among the converged ones, and the first such
      in the dictionary's order (Python's `min` keeps the first of equal
      keys). */
  lemma {:induction false} ComparativoCorrecto(rs: seq<(string, Resultado)>)
    ensures var an := Comparativo(rs);
            var c := Convergentes(rs);
            an.metodosConvergentes == Claves(c)
            && (forall k :: k in an.metodosConvergentes <==> exists p :: p in rs && p.0 == k && p.1.convergencia)
            && (an.mejorIteraciones.Some? <==> exists p :: p in rs && p.1.convergencia)
            && an.mejorPrecision.Some? == an.mejorIteraciones.Some?
            && (an.mejorIteraciones.Some? ==>
                  (exists p :: p in rs && p.1.convergencia && an.mejorIteraciones.value == p.1)
                  && (exists p :: p in rs && p.1.convergencia && an.mejorPrecision.value == p.1)
                  && (forall p :: p in rs && p.1.convergencia ==>
                        an.mejorIteraciones.value.iteraciones <= p.1.iteraciones
                        && MenorIgualExt(an.mejorPrecision.value.error, p.1.error))
                  && (exists i :: 0 <= i < |c| && c[i].1 == an.mejorIteraciones.value
                        && forall j :: 0 <= j < i ==> c[j].1.iteraciones > c[i].1.iteraciones)
                  && (exists i :: 0 <= i < |c| && c[i].1 == an.mejorPrecision.value
                        && forall j :: 0 <= j < i ==> MenorExt(c[i].1.error, c[j].1.error)))
            && an.raizTeorica == None
  {
    var c := Convergentes(rs);
    ClavesDeConvergentes(rs);
    if c != [] {
      MejoresDeConvergentes(rs);
    } else {
      forall p | p in rs ensures !p.1.convergencia {
        assert !(p in c);
      }
    }
  }

  /** The keys of the filtered entries are exactly the converged keys. */
  lemma ClavesDeConvergentes(rs: seq<(string, Resultado)>)
    ensures forall k :: k in Claves(Convergentes(rs)) <==> exists p :: p in rs && p.0 == k && p.1.convergencia
  {
    var c := Convergentes(rs);
    forall k | k in Claves(c) ensures exists p :: p in rs && p.0 == k && p.1.convergencia {
      var j :| 0 <= j < |c| && Claves(c)[j] == k;
      assert c[j] in c;
    }
    forall k | exists p :: p in rs && p.0 == k && p.1.convergencia ensures k in Claves(c) {
      var p :| p in rs && p.0 == k && p.1.convergencia;
      var j :| 0 <= j < |c| && c[j] == p;
      assert Claves(c)[j] == k;
    }
  }

  /** When something converged, both best entries are results of converged
      entries, minimal among them and the first minimal ones. */
  lemma MejoresDeConvergentes(rs: seq<(string, Resultado)>)
    requires Convergentes(rs) != []
    ensures var an := Comparativo(rs);
            var c := Convergentes(rs);
            an.mejorIteraciones.Some? && an.mejorPrecision.Some?
            && (exists p :: p in rs && p.1.convergencia && an.mejorIteraciones.value == p.1)
            && (exists p :: p in rs && p.1.convergencia && an.mejorPrecision.value == p.1)
            && (forall p :: p in rs && p.1.convergencia ==>
                  an.mejorIteraciones.value.iteraciones <= p.1.iteraciones
                  && MenorIgualExt(an.mejorPrecision.value.error, p.1.error))
            && (exists i :: 0 <= i < |c| && c[i].1 == an.mejorIteraciones.value
                  && forall j :: 0 <= j < i ==> c[j].1.iteraciones > c[i].1.iteraciones)
            && (exists i :: 0 <= i < |c| && c[i].1 == an.mejorPrecision.value
                  && forall j :: 0 <= j < i ==> MenorExt(c[i].1.error, c[j].1.error))
  {
    var c := Convergentes(rs);
    var an := Comparativo(rs);
    var mi, me := IndiceMinimo(PorIteraciones(c)), IndiceMinimo(PorError(c));
    assert an.mejorIteraciones == Some(c[mi].1) && an.mejorPrecision == Some(c[me].1);
    MejorPorIteraciones(c);
    MejorPorError(c);
    assert c[mi] in c && c[me] in c;
    assert c[mi] in rs && c[mi].1.convergencia && c[me] in rs && c[me].1.convergencia;
    forall p | p in rs && p.1.convergencia
      ensures c[mi].1.iteraciones <= p.1.iteraciones && MenorIgualExt(c[me].1.error, p.1.error)
    {
      var j :| 0 <= j < |c| && c[j] == p;
    }
  }

  /** The entry `min` picks by iteration count is minimal and the first
      minimal one. */
  lemma MejorPorIteraciones(c: seq<(string, Resultado)>)
    requires c != []
    ensures var i := IndiceMinimo(PorIteraciones(c));
            (forall j :: 0 <= j < |c| ==> c[i].1.iteraciones <= c[j].1.iteraciones)
            && (forall j :: 0 <= j < i ==> c[j].1.iteraciones > c[i].1.iteraciones)
  {
    var ks := PorIteraciones(c);
    var i := IndiceMinimo(ks);
    forall j | 0 <= j < |c|
      ensures c[i].1.iteraciones <= c[j].1.iteraciones
      ensures j < i ==> c[j].1.iteraciones > c[i].1.iteraciones
    {
      assert MenorIgualExt(ks[i], ks[j]);
      if j < i {
        assert MenorExt(ks[i], ks[j]);
      }
    }
  }

  /** The entry `min` picks by error is minimal and the first minimal one. */
  lemma MejorPorError(c: seq<(string, Resultado)>)
    requires c != []
    ensures var i := IndiceMinimo(PorError(c));
            (forall j :: 0 <= j < |c| ==> MenorIgualExt(c[i].1.error, c[j].1.error))
            && (forall j :: 0 <= j < i ==> MenorExt(c[i].1.error, c[j].1.error))
  {
    var ks := PorError(c);
    var i := IndiceMinimo(ks);
    forall j | 0 <= j < |c|
      ensures MenorIgualExt(c[i].1.error, c[j].1.error)
      ensures j < i ==> MenorExt(c[i].1.error, c[j].1.error)
    {
      assert MenorIgualExt(ks[i], ks[j]);
      if j < i {
        assert MenorExt(ks[i], ks[j]);
      }
    }
  }

  // ---------------------------------------------------------------------
  // Convergence classifier (`analizar_convergencia`,
  // src/metodos_numericos.py:277-338)
  // ---------------------------------------------------------------------

  datatype TipoConvergencia =
    | NoConvergente
    | Lineal
    | Cuadratica
    | Superlineal
    | Rapida
    | Moderada
    | Lenta

  datatype AnalisisConvergencia = AnalisisConvergencia(
    tipo: TipoConvergencia,
    orden: Option<real>,
    factor: Option<real>)

  /** The error history without its first entry, as real numbers. */
  function Errores(r: Resultado): (e: seq<real>)
    requires ErroresFinitos(r) && |r.historialError| >= 1
    ensures |e| == |r.historialError| - 1
    ensures forall k :: 0 <= k < |e| ==> Finite(e[k]) == r.historialError[k + 1]
  {
    seq(|r.historialError| - 1, k requires 0 <= k < |r.historialError| - 1 => r.historialError[k + 1].val)
  }

  /** Classification by averaged order. */
  function TipoPorOrden(orden: real): (t: TipoConvergencia)
    ensures t == Lineal <==> orden < 1.5
    ensures t == Cuadratica <==> 1.5 <= orden < 2.5
    ensures t == Superlineal <==> orden >= 2.5
  {
    if orden < 1.5 then Lineal else if orden < 2.5 then Cuadratica else Superlineal
  }

  /** Classification by the last error ratio, with Python's truthiness test:
      a factor that is absent or exactly 0 is falsy and falls through to Lenta. */
  function TipoPorFactor(factor: Option<real>): (t: TipoConvergencia)
    ensures t == Rapida <==> factor.Some? && factor.value != 0.0 && factor.value < 0.1
    ensures t == Moderada <==> factor.Some? && factor.value != 0.0 && 0.1 <= factor.value < 0.5
    ensures t == Lenta <==> factor.None? || factor.value == 0.0 || factor.value >= 0.5
  {
    if factor.Some? && factor.value != 0.0 && factor.value < 0.1 then Rapida
    else if factor.Some? && factor.value != 0.0 && factor.value < 0.5 then Moderada
    else Lenta
  }

  /** The result of `analizar_convergencia(resultado)`, with `ln` standing for
      `math.log`. `Err(DivisionPorCero)` is the ZeroDivisionError the source
      raises, outside its `try`, when the second-to-last kept error is 0. */
  function Analisis(r: Resultado, ln: real -> real): Result<AnalisisConvergencia>
    requires ErroresFinitos(r)
  {
    if !r.convergencia || |r.historialError| < 2 then
      Ok(AnalisisConvergencia(NoConvergente, None, None))
    else
      AnalisisDeErrores(Errores(r), ln)
  }

  /** The classification of a converged run from its kept errors e. */
  function AnalisisDeErrores(e: seq<real>, ln: real -> real): Result<AnalisisConvergencia>
  {
    if |e| >= 2 && e[|e| - 2] == 0.0 then Err(DivisionPorCero)
    else
      var factor := if |e| >= 2 then Some(e[|e| - 1] / e[|e| - 2]) else None;
      match OrdenEstimado(e, ln)
      case Some(o) => Ok(AnalisisConvergencia(TipoPorOrden(o), Some(o), factor))
      case None => Ok(AnalisisConvergencia(TipoPorFactor(factor), None, factor))
  }

  method AnalizarConvergencia(r: Resultado, ln: real -> real) returns (an: Result<AnalisisConvergencia>)
    requires ErroresFinitos(r)
    ensures an == Analisis(r, ln)
  {
    if !r.convergencia || |r.historialError| < 2 {
      return Ok(AnalisisConvergencia(NoConvergente, None, None));
    }
    var errores := Errores(r);
    assert Analisis(r, ln) == AnalisisDeErrores(errores, ln);
    var n := |errores|;
    if n >= 3 {
      var ratios := CalcularRazones(errores, ln);
      if ratios.Some? && ratios.value != [] {
        var orden := Media(ratios.value);
        if errores[n - 2] == 0.0 {
          // the factor's division raises inside the `try`; the fallback below
          // repeats it outside
          return Err(DivisionPorCero);
        }
        return Ok(AnalisisConvergencia(TipoPorOrden(orden), Some(orden), Some(errores[n - 1] / errores[n - 2])));
      }
    }
    if n >= 2 && errores[n - 2] == 0.0 {
      return Err(DivisionPorCero);
    }
    var factor := if n >= 2 then Some(errores[n - 1] / errores[n - 2]) else None;
    an := Ok(AnalisisConvergencia(TipoPorFactor(factor), None, factor));
  }

  /** The classifier's outcomes: 'No convergente' with no numbers exactly for
      a non-converged result or one with fewer than two errors; an order only
      from at least three kept errors (the first error dropped); otherwise
      the factor thresholds. */
  lemma AnalisisCasos(r: Resultado, ln: real -> real)
    requires ErroresFinitos(r)
    ensures var an := Analisis(r, ln);
            ((an == Ok(AnalisisConvergencia(NoConvergente, None, None)))
             <==> (!r.convergencia || |r.historialError| < 2))
            && (an.Ok? && an.value.orden.Some? ==>
                  |r.historialError| >= 4 && an.value.tipo == TipoPorOrden(an.value.orden.value))
            && (an.Ok? && an.value.tipo != NoConvergente && an.value.orden.None? ==>
                  an.value.tipo == TipoPorFactor(an.value.factor))
            && (an.Ok? && an.value.tipo != NoConvergente ==>
                  (an.value.factor.Some? <==> |r.historialError| >= 3))
  {
  }

  /** An order is reported only when some triple of consecutive kept errors is
      all positive. */
  lemma OrdenSoloConTernaPositiva(r: Resultado, ln: real -> real)
    requires ErroresFinitos(r)
    requires Analisis(r, ln).Ok? && Analisis(r, ln).value.orden.Some?
    ensures var e := Errores(r);
            exists j :: 1 <= j < |e| - 1 && TernaPositiva(e, j)
  {
    var e := Errores(r);
    RazonesSoloDeTernasPositivas(e, ln, |e| - 1);
  }

  /** On any converged solver result the classifier never raises: the
      second-to-last error was followed by another iteration, so it exceeded
      the tolerance, which a converged run has non-negative. */
  lemma AnalisisSinDivisionPorCero(r: Resultado, tol: real, maxIter: int, ln: real -> real)
    requires Coherente(r, tol, maxIter)
    ensures Analisis(r, ln).Ok?
  {
    var he := r.historialError;
    if r.convergencia && |he| >= 3 {
      assert Mayor(he[|he| - 2], tol);
      assert Errores(r)[|he| - 3] == he[|he| - 2].val;
    }
  }
}
