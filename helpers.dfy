/** The application helpers of `Helpers`: the convergence report, the input
    validation, the presentation record of a result, the automatic test
    cases, the performance metrics and the Blackjack reading of a root.

    A Python dictionary of results is a sequence of (key, result) pairs in
    insertion order; the source also stores timings under the key
    `'tiempos'`, which the helpers skip by key. */
module Helpers {
  import opened Comun
  import opened MetodosNumericos
  import BlackjackGame

  /** The key under which timings are stored next to the results. */
  const ClaveTiempos: string := "tiempos"

  /** No key occurs twice, as in a dictionary. */
  predicate ClavesDistintas<T>(s: seq<(string, T)>)
  {
    forall i, j :: 0 <= i < j < |s| ==> s[i].0 != s[j].0
  }

  // ---------------------------------------------------------------------
  // generar_reporte_convergencia (utils/helpers.py:31-82)
  // ---------------------------------------------------------------------

  datatype EntradaConvergente = EntradaConvergente(metodo: string, raiz: Option<real>, iteraciones: nat, error: ExtReal)

  datatype EntradaNoConvergente = EntradaNoConvergente(metodo: string, razon: Mensaje)

  datatype Estadisticas = Estadisticas(
    totalConvergentes: nat,
    promedioIteraciones: real,
    minIteraciones: real,
    maxIteraciones: real,
    mejorPrecision: ExtReal,
    peorPrecision: ExtReal)

  /** The report without its timestamp; `estadisticas` is `None` for the
      source's empty dictionary. */
  datatype Reporte = Reporte(
    metodosEjecutados: seq<string>,
    convergentes: seq<EntradaConvergente>,
    noConvergentes: seq<EntradaNoConvergente>,
    estadisticas: Option<Estadisticas>)

  function AEntradaConvergente(p: (string, Resultado)): EntradaConvergente
  {
    EntradaConvergente(p.0, p.1.raiz, p.1.iteraciones, p.1.error)
  }

  function AEntradaNoConvergente(p: (string, Resultado)): EntradaNoConvergente
  {
    EntradaNoConvergente(p.0, p.1.mensaje)
  }

  /** The three lists the report's loop fills from the entries `rs`. */
  function Listas(rs: seq<(string, Resultado)>): (r: Reporte)
    ensures r.estadisticas.None?
  {
    if rs == [] then Reporte([], [], [], None)
    else
      var r := Listas(rs[..|rs| - 1]);
      var p := rs[|rs| - 1];
      if p.0 == ClaveTiempos then r
      else if p.1.convergencia then
        r.(metodosEjecutados := r.metodosEjecutados + [p.0],
           convergentes := r.convergentes + [AEntradaConvergente(p)])
      else
        r.(metodosEjecutados := r.metodosEjecutados + [p.0],
           noConvergentes := r.noConvergentes + [AEntradaNoConvergente(p)])
  }

  function IteracionesDe(c: seq<EntradaConvergente>): (its: seq<real>)
    ensures |its| == |c| && forall i :: 0 <= i < |c| ==> its[i] == c[i].iteraciones as real
  {
    seq(|c|, i requires 0 <= i < |c| => c[i].iteraciones as real)
  }

  function ErroresDe(c: seq<EntradaConvergente>): (es: seq<ExtReal>)
    ensures |es| == |c| && forall i :: 0 <= i < |c| ==> es[i] == c[i].error
  {
    seq(|c|, i requires 0 <= i < |c| => c[i].error)
  }

  /** The comparative statistics, present only when something converged. */
  function EstadisticasDe(c: seq<EntradaConvergente>): Option<Estadisticas>
  {
    if c == [] then None
    else
      var its := IteracionesDe(c);
      var es := ErroresDe(c);
      Some(Estadisticas(|c|, Media(its), MinimoReal(its), MaximoReal(its), es[IndiceMinimo(es)], MaximoExt(es)))
  }

  /** The report the source builds from the entries `rs`. */
  function ReporteDe(rs: seq<(string, Resultado)>): Reporte
  {
    var l := Listas(rs);
    l.(estadisticas := EstadisticasDe(l.convergentes))
  }

  method GenerarReporteConvergencia(resultados: seq<(string, Resultado)>) returns (reporte: Reporte)
    ensures reporte == ReporteDe(resultados)
  {
    var ejecutados: seq<string> := [];
    var convergentes: seq<EntradaConvergente> := [];
    var noConvergentes: seq<EntradaNoConvergente> := [];
    var i := 0;
    while i < |resultados|
      invariant 0 <= i <= |resultados|
      invariant Listas(resultados[..i]) == Reporte(ejecutados, convergentes, noConvergentes, None)
    {
      var (metodo, resultado) := resultados[i];
      assert resultados[..i + 1][..i] == resultados[..i];
      if metodo != ClaveTiempos {
        ejecutados := ejecutados + [metodo];
        if resultado.convergencia {
          convergentes := convergentes + [EntradaConvergente(metodo, resultado.raiz, resultado.iteraciones, resultado.error)];
        } else {
          noConvergentes := noConvergentes + [EntradaNoConvergente(metodo, resultado.mensaje)];
        }
      }
      i := i + 1;
    }
    assert resultados[..i] == resultados;
    reporte := Reporte(ejecutados, convergentes, noConvergentes, EstadisticasDe(convergentes));
  }

  /** The entries other than `'tiempos'`, in order. */
  function SinTiempos(rs: seq<(string, Resultado)>): (s: seq<(string, Resultado)>)
    ensures forall p :: p in s <==> p in rs && p.0 != ClaveTiempos
  {
    if rs == [] then []
    else
      var s := SinTiempos(rs[..|rs| - 1]);
      assert forall p :: p in rs <==> p in rs[..|rs| - 1] || p == rs[|rs| - 1];
      if rs[|rs| - 1].0 == ClaveTiempos then s else s + [rs[|rs| - 1]]
  }

  /** Every method but `'tiempos'` is listed as executed, in input order, and
      goes to exactly one of the two lists, according to its `convergencia`. */
  lemma {:induction false} ReporteReparte(rs: seq<(string, Resultado)>)
    ensures var r := ReporteDe(rs);
            r.metodosEjecutados == Claves(SinTiempos(rs))
            && |r.metodosEjecutados| == |r.convergentes| + |r.noConvergentes|
            && (forall e :: e in r.convergentes <==>
                  exists p :: p in rs && p.0 != ClaveTiempos && p.1.convergencia && e == AEntradaConvergente(p))
            && (forall e :: e in r.noConvergentes <==>
                  exists p :: p in rs && p.0 != ClaveTiempos && !p.1.convergencia && e == AEntradaNoConvergente(p))
  {
    if rs != [] {
      var ini := rs[..|rs| - 1];
      var p := rs[|rs| - 1];
      ReporteReparte(ini);
      assert forall q :: q in rs <==> q in ini || q == p;
      var s := SinTiempos(ini);
      if p.0 != ClaveTiempos {
        assert Claves(s + [p]) == Claves(s) + [p.0];
      }
    }
  }

  /** Statistics exist exactly when some method converged; then they count
      the converged methods, the mean iteration count lies between the
      smallest and the largest, and the best and worst precision bound every
      converged error. */
  lemma EstadisticasCorrectas(rs: seq<(string, Resultado)>)
    ensures var r := ReporteDe(rs);
            (r.estadisticas.Some? <==> exists p :: p in rs && p.0 != ClaveTiempos && p.1.convergencia)
            && (r.estadisticas.Some? ==>
                  var e := r.estadisticas.value;
                  e.totalConvergentes == |r.convergentes|
                  && e.minIteraciones <= e.promedioIteraciones <= e.maxIteraciones
                  && (forall c :: c in r.convergentes ==>
                        e.minIteraciones <= c.iteraciones as real <= e.maxIteraciones
                        && MenorIgualExt(e.mejorPrecision, c.error) && MenorIgualExt(c.error, e.peorPrecision))
                  && (exists c :: c in r.convergentes && c.iteraciones as real == e.minIteraciones)
                  && (exists c :: c in r.convergentes && c.iteraciones as real == e.maxIteraciones)
                  && (exists c :: c in r.convergentes && c.error == e.mejorPrecision)
                  && (exists c :: c in r.convergentes && c.error == e.peorPrecision))
  {
    ReporteReparte(rs);
    var c := Listas(rs).convergentes;
    if exists p :: p in rs && p.0 != ClaveTiempos && p.1.convergencia {
      var p :| p in rs && p.0 != ClaveTiempos && p.1.convergencia;
      assert AEntradaConvergente(p) in c;
    }
    if c != [] {
      EstadisticasDeCorrectas(c);
    }
  }

  /** The statistics of a non-empty list of converged entries: the mean lies
      between the extremes, which bound every entry and are each attained by
      some entry, and so are the best and worst precision. */
  lemma EstadisticasDeCorrectas(c: seq<EntradaConvergente>)
    requires c != []
    ensures var e := EstadisticasDe(c).value;
            e.totalConvergentes == |c|
            && e.minIteraciones <= e.promedioIteraciones <= e.maxIteraciones
            && (forall x :: x in c ==>
                  e.minIteraciones <= x.iteraciones as real <= e.maxIteraciones
                  && MenorIgualExt(e.mejorPrecision, x.error) && MenorIgualExt(x.error, e.peorPrecision))
            && (exists x :: x in c && x.iteraciones as real == e.minIteraciones)
            && (exists x :: x in c && x.iteraciones as real == e.maxIteraciones)
            && (exists x :: x in c && x.error == e.mejorPrecision)
            && (exists x :: x in c && x.error == e.peorPrecision)
  {
    var its := IteracionesDe(c);
    MediaAcotada(its);
    var es := ErroresDe(c);
    forall x | x in c
      ensures MinimoReal(its) <= x.iteraciones as real <= MaximoReal(its)
      ensures MenorIgualExt(es[IndiceMinimo(es)], x.error) && MenorIgualExt(x.error, MaximoExt(es))
    {
      var j :| 0 <= j < |c| && c[j] == x;
      assert its[j] == x.iteraciones as real && es[j] == x.error;
    }
    var jMin :| 0 <= jMin < |its| && its[jMin] == MinimoReal(its);
    var jMax :| 0 <= jMax < |its| && its[jMax] == MaximoReal(its);
    var jPeor :| 0 <= jPeor < |es| && es[jPeor] == MaximoExt(es);
    assert c[jMin] in c && c[jMax] in c && c[IndiceMinimo(es)] in c && c[jPeor] in c;
  }

  // ---------------------------------------------------------------------
  // validar_parametros_entrada (utils/helpers.py:85-121)
  // ---------------------------------------------------------------------

  /** The six checks, in the order the source runs them. */
  datatype ErrorParametro =
    | CartasFueraDeRango
    | ObjetivoFueraDeRango
    | ToleranciaFueraDeRango
    | IteracionesFueraDeRango
    | IntervaloInvertido
    | X0FueraDeRango

  function TextoError(e: ErrorParametro): string
  {
    match e
    case CartasFueraDeRango => "Valor de cartas debe estar entre 2 y 20"
    case ObjetivoFueraDeRango => "Objetivo debe estar entre 15 y 25"
    case ToleranciaFueraDeRango => "Tolerancia debe estar entre 1e-15 y 1e-1"
    case IteracionesFueraDeRango => "Máximo de iteraciones debe estar entre 1 y 1000"
    case IntervaloInvertido => "Límite inferior debe ser menor que límite superior"
    case X0FueraDeRango => "Valor inicial x0 debe estar entre -100 y 100"
  }

  /** The position of each check in the source's order. */
  function Posicion(e: ErrorParametro): (n: nat)
    ensures n < 6
  {
    match e
    case CartasFueraDeRango => 0
    case ObjetivoFueraDeRango => 1
    case ToleranciaFueraDeRango => 2
    case IteracionesFueraDeRango => 3
    case IntervaloInvertido => 4
    case X0FueraDeRango => 5
  }

  /** The input parameters of the application. */
  datatype Parametros = Parametros(
    valorCartas: real, objetivo: real, tolerancia: real, maxIter: int, x0: real, a: real, b: real)

  /** The condition under which each check fails; every range is closed. */
  predicate Incumple(e: ErrorParametro, p: Parametros)
  {
    match e
    case CartasFueraDeRango => !(2.0 <= p.valorCartas <= 20.0)
    case ObjetivoFueraDeRango => !(15.0 <= p.objetivo <= 25.0)
    case ToleranciaFueraDeRango => !(1e-15 <= p.tolerancia <= 1e-1)
    case IteracionesFueraDeRango => !(1 <= p.maxIter <= 1000)
    case IntervaloInvertido => p.a >= p.b
    case X0FueraDeRango => !(-100.0 <= p.x0 <= 100.0)
  }

  datatype Validacion = Validacion(valido: bool, errores: seq<ErrorParametro>)

  /** The checks in the order the source runs them. */
  const Chequeos: seq<ErrorParametro> :=
    [CartasFueraDeRango, ObjetivoFueraDeRango, ToleranciaFueraDeRango,
     IteracionesFueraDeRango, IntervaloInvertido, X0FueraDeRango]

  /** The messages the first k checks append. */
  function FallosHasta(p: Parametros, k: nat): seq<ErrorParametro>
    requires k <= |Chequeos|
  {
    if k == 0 then []
    else
      var e := Chequeos[k - 1];
      FallosHasta(p, k - 1) + (if Incumple(e, p) then [e] else [])
  }

  /** The messages after the checks before position k: one for each of
      those checks that fails, in the order of the checks. */
  predicate ErroresHasta(es: seq<ErrorParametro>, p: Parametros, k: nat)
  {
    (forall e :: e in es <==> Incumple(e, p) && Posicion(e) < k)
    && (forall i, j :: 0 <= i < j < |es| ==> Posicion(es[i]) < Posicion(es[j]))
    && |es| <= k
  }

  /** The first k checks append one message per failing check among them,
      in order. */
  lemma {:induction false} FallosHastaCorrectos(p: Parametros, k: nat)
    requires k <= |Chequeos|
    ensures ErroresHasta(FallosHasta(p, k), p, k)
  {
    if k > 0 {
      FallosHastaCorrectos(p, k - 1);
      var e := Chequeos[k - 1];
      assert Posicion(e) == k - 1;
      forall x ensures Posicion(x) == Posicion(e) ==> x == e {
      }
    }
  }

  /** The straight-line checks of the source, each appending its message
      when it fails. */
  method ValidarParametrosEntrada(p: Parametros) returns (v: Validacion)
    ensures v.errores == FallosHasta(p, |Chequeos|)
    ensures v.valido <==> v.errores == []
  {
    var errores: seq<ErrorParametro> := [];
    if !(2.0 <= p.valorCartas <= 20.0) {
      errores := errores + [CartasFueraDeRango];
    }
    assert errores == FallosHasta(p, 1);
    if !(15.0 <= p.objetivo <= 25.0) {
      errores := errores + [ObjetivoFueraDeRango];
    }
    assert errores == FallosHasta(p, 2);
    if !(1e-15 <= p.tolerancia <= 1e-1) {
      errores := errores + [ToleranciaFueraDeRango];
    }
    assert errores == FallosHasta(p, 3);
    if !(1 <= p.maxIter <= 1000) {
      errores := errores + [IteracionesFueraDeRango];
    }
    assert errores == FallosHasta(p, 4);
    if p.a >= p.b {
      errores := errores + [IntervaloInvertido];
    }
    assert errores == FallosHasta(p, 5);
    if !(-100.0 <= p.x0 <= 100.0) {
      errores := errores + [X0FueraDeRango];
    }
    v := Validacion(|errores| == 0, errores);
  }

  /** One message per failing check and none for a passing one, in the
      order of the checks, so at most six; valid exactly when none failed,
      so an interval with a >= b is always rejected. */
  lemma ValidacionCorrecta(p: Parametros)
    ensures var es := FallosHasta(p, |Chequeos|);
            (forall e :: e in es <==> Incumple(e, p))
            && (forall i, j :: 0 <= i < j < |es| ==> Posicion(es[i]) < Posicion(es[j]))
            && |es| <= 6
            && (p.a >= p.b ==> IntervaloInvertido in es)
  {
    FallosHastaCorrectos(p, |Chequeos|);
  }

  // ---------------------------------------------------------------------
  // formatear_resultado_metodo (utils/helpers.py:124-152)
  // ---------------------------------------------------------------------

  datatype Estado = Convergio | NoConvergio

  function TextoEstado(e: Estado): string
  {
    match e
    case Convergio => "Convergió"
    case NoConvergio => "No Convergió"
  }

  /** The presentation record; a `None` root or error is the source's
      `'N/A'`, a present one is the number the source renders as text. */
  datatype ResultadoFormateado = ResultadoFormateado(
    metodo: string,
    estado: Estado,
    raiz: Option<real>,
    iteraciones: nat,
    error: Option<ExtReal>,
    mensaje: Mensaje)

  /** Which fields the presentation record shows: 'N/A' for the root and the
      error of a run that did not converge, and the iteration count and the
      message passed through either way. */
  function FormatearResultadoMetodo(r: Resultado, metodo: string): (f: ResultadoFormateado)
    ensures f.estado == NoConvergio <==> !r.convergencia
    ensures !r.convergencia ==> f.raiz.None? && f.error.None?
    ensures r.convergencia ==> f.raiz == r.raiz && f.error == Some(r.error)
    ensures f.iteraciones == r.iteraciones && f.mensaje == r.mensaje && f.metodo == metodo
  {
    if !r.convergencia then
      ResultadoFormateado(metodo, NoConvergio, None, r.iteraciones, None, r.mensaje)
    else
      ResultadoFormateado(metodo, Convergio, r.raiz, r.iteraciones, Some(r.error), r.mensaje)
  }

  /** A solver result shows a root and a finite error exactly when it
      converged. */
  lemma FormatoDeResultadoCoherente(r: Resultado, tol: real, maxIter: int, metodo: string)
    requires Coherente(r, tol, maxIter)
    ensures var f := FormatearResultadoMetodo(r, metodo);
            (f.raiz.Some? <==> r.convergencia) && (f.error.Some? ==> f.error.value.Finite?)
  {
  }

  // ---------------------------------------------------------------------
  // generar_casos_prueba_automaticos (utils/helpers.py:155-190)
  // ---------------------------------------------------------------------

  datatype CasoAutomatico = CasoAutomatico(
    nombre: string, valorCartas: real, objetivo: real, x0: real, a: real, b: real, raizEsperada: real)

  /** The three automatic cases. Each expected root is the card value that
      reaches the target, strictly inside the case's interval, and each seed
      is the expected root itself. */
  function GenerarCasosPruebaAutomaticos(): (cs: seq<CasoAutomatico>)
    ensures |cs| == 3
    ensures forall c :: c in cs ==>
              c.raizEsperada == c.objetivo - c.valorCartas && c.a < c.raizEsperada < c.b
              && c.x0 == c.raizEsperada
  {
    [ CasoAutomatico("Caso Básico", 10.0, 21.0, 11.0, 0.0, 20.0, 11.0),
      CasoAutomatico("Mano Baja", 6.0, 21.0, 15.0, 0.0, 20.0, 15.0),
      CasoAutomatico("Mano Alta", 19.0, 21.0, 2.0, 0.0, 5.0, 2.0) ]
  }

  // ---------------------------------------------------------------------
  // calcular_metricas_rendimiento (utils/helpers.py:193-244)
  // ---------------------------------------------------------------------

  /** The four dictionaries of metrics, keyed by method. */
  datatype Metricas = Metricas(
    eficienciaIteraciones: map<string, real>,
    eficienciaTiempo: map<string, real>,
    precision: map<string, real>,
    robustez: map<string, real>)

  /** The converged entries other than `'tiempos'`, in order. */
  function ConvergentesSinTiempos(rs: seq<(string, Resultado)>): (c: seq<(string, Resultado)>)
    ensures forall p :: p in c <==> p in rs && p.0 != ClaveTiempos && p.1.convergencia
  {
    if rs == [] then []
    else
      var c := ConvergentesSinTiempos(rs[..|rs| - 1]);
      var p := rs[|rs| - 1];
      assert forall q :: q in rs <==> q in rs[..|rs| - 1] || q == p;
      if p.0 != ClaveTiempos && p.1.convergencia then c + [p] else c
  }

  /** The timings of the converged methods, in the order of `tiempos`. */
  function TiemposConvergentes(ts: seq<(string, real)>, claves: set<string>): (tc: seq<(string, real)>)
    ensures forall p :: p in tc <==> p in ts && p.0 in claves
  {
    if ts == [] then []
    else
      var tc := TiemposConvergentes(ts[..|ts| - 1], claves);
      var p := ts[|ts| - 1];
      assert forall q :: q in ts <==> q in ts[..|ts| - 1] || q == p;
      if p.0 in claves then tc + [p] else tc
  }

  function ClavesDe<T(==)>(s: seq<(string, T)>): set<string>
  {
    set p | p in s :: p.0
  }

  function ValoresDe<T>(s: seq<(string, T)>, v: T -> real): (vs: seq<real>)
    ensures |vs| == |s| && forall i :: 0 <= i < |s| ==> vs[i] == v(s[i].1)
  {
    seq(|s|, i requires 0 <= i < |s| => v(s[i].1))
  }

  function IteracionesReales(r: Resultado): real
  {
    r.iteraciones as real
  }

  function ErrorReal(r: Resultado): real
  {
    if r.error.Finite? then r.error.val else 0.0
  }

  function Identidad(t: real): real
  {
    t
  }

  /** m / n at the places where the source divides. `MetricasDe` reports
      every zero divisor the source would raise on before any quotient is
      taken, so the 0 given for n = 0 is never part of a result. */
  function Cociente(m: real, n: real): real
  {
    if n == 0.0 then 0.0 else m / n
  }

  /** What each of the per-method dictionaries stores: the smallest
      iteration count over this method's, the smallest error over this
      method's (1 for a zero error), or a constant. */
  datatype Formula = EficienciaDe(minimo: real) | PrecisionDe(minimo: real) | Constante(valor: real)

  function Valor(f: Formula, r: Resultado): real
  {
    match f
    case EficienciaDe(m) => Cociente(m, IteracionesReales(r))
    case PrecisionDe(m) => if ErrorReal(r) > 0.0 then Cociente(m, ErrorReal(r)) else 1.0
    case Constante(v) => v
  }

  /** The dictionary a `for metodo, x in entries: d[metodo] = ...` loop
      builds. */
  function Mapa(c: seq<(string, Resultado)>, f: Formula): (m: map<string, real>)
    ensures m.Keys == ClavesDe(c)
  {
    if c == [] then map[]
    else
      var p := c[|c| - 1];
      assert c == c[..|c| - 1] + [p];
      Mapa(c[..|c| - 1], f)[p.0 := Valor(f, p.1)]
  }

  /** The time-efficiency dictionary: the smallest time over each one. */
  function MapaTiempos(tc: seq<(string, real)>, minimo: real): (m: map<string, real>)
    ensures m.Keys == ClavesDe(tc)
  {
    if tc == [] then map[]
    else
      var p := tc[|tc| - 1];
      assert tc == tc[..|tc| - 1] + [p];
      MapaTiempos(tc[..|tc| - 1], minimo)[p.0 := Cociente(minimo, p.1)]
  }

  /** With distinct keys every entry's value is in the dictionary. */
  lemma {:induction false} MapaValores(c: seq<(string, Resultado)>, f: Formula)
    requires ClavesDistintas(c)
    ensures forall p :: p in c ==> Mapa(c, f)[p.0] == Valor(f, p.1)
  {
    if c != [] {
      var ini := c[..|c| - 1];
      MapaValores(ini, f);
      forall p | p in c ensures Mapa(c, f)[p.0] == Valor(f, p.1) {
        var j :| 0 <= j < |c| && c[j] == p;
        if j < |c| - 1 {
          assert ini[j] == p;
          assert p.0 != c[|c| - 1].0;
        }
      }
    }
  }

  /** Divisions the source would make by zero. */
  predicate IteracionNula(c: seq<(string, Resultado)>)
  {
    exists p :: p in c && p.1.iteraciones == 0
  }

  predicate TiempoNulo(tc: seq<(string, real)>)
  {
    exists p :: p in tc && p.1 == 0.0
  }

  /** A converged result carries a real error. */
  predicate ErroresConvergentesFinitos(rs: seq<(string, Resultado)>)
  {
    forall p :: p in rs && p.0 != ClaveTiempos && p.1.convergencia ==> p.1.error.Finite?
  }

  /** The iteration-efficiency dictionary: the smallest iteration count
      over each method's. */
  function EficienciaIteracionesDe(c: seq<(string, Resultado)>): map<string, real>
  {
    if c == [] then map[] else Mapa(c, EficienciaDe(MinimoReal(ValoresDe(c, IteracionesReales))))
  }

  /** The precision dictionary: the smallest error over each method's, or 1
      for a zero error. */
  function PrecisionDeMetodos(c: seq<(string, Resultado)>): map<string, real>
  {
    if c == [] then map[] else Mapa(c, PrecisionDe(MinimoReal(ValoresDe(c, ErrorReal))))
  }

  /** The time-efficiency dictionary, when timings were given: the timings
      of the converged methods must not be empty (`min` of nothing raises)
      nor contain a zero. */
  function EficienciaTiempoDe(tc: seq<(string, real)>, hayTiempos: bool): Result<map<string, real>>
  {
    if !hayTiempos then Ok(map[])
    else if tc == [] then Err(MinimoDeVacio)
    else if TiempoNulo(tc) then Err(DivisionPorCero)
    else Ok(MapaTiempos(tc, MinimoReal(ValoresDe(tc, Identidad))))
  }

  /** The metrics of the entries `rs` with timings `ts`:
      `Err(DivisionPorCero)` when a converged method has zero iterations
      or a converged method's timing is zero, `Err(MinimoDeVacio)` when
      timings were given but none belongs to a converged method. */
  function MetricasDe(rs: seq<(string, Resultado)>, ts: seq<(string, real)>): Result<Metricas>
  {
    var c := ConvergentesSinTiempos(rs);
    if c == [] then Ok(Metricas(map[], map[], map[], map[]))
    else if IteracionNula(c) then Err(DivisionPorCero)
    else
      match EficienciaTiempoDe(TiemposConvergentes(ts, ClavesDe(c)), ts != [])
      case Err(falla) => Err(falla)
      case Ok(et) => Ok(Metricas(EficienciaIteracionesDe(c), et, PrecisionDeMetodos(c), Mapa(c, Constante(1.0))))
  }

  /** `eficiencia_iteraciones[metodo] = min_iter / iter_count` over the
      converged methods; `None` for the ZeroDivisionError of a zero count. */
  method LlenarEficienciaIteraciones(c: seq<(string, Resultado)>) returns (r: Option<map<string, real>>)
    requires c != []
    ensures r == if IteracionNula(c) then None else Some(EficienciaIteracionesDe(c))
  {
    var minIter := MinimoReal(ValoresDe(c, IteracionesReales));
    var eficiencia := map[];
    var i := 0;
    while i < |c|
      invariant 0 <= i <= |c|
      invariant eficiencia == Mapa(c[..i], EficienciaDe(minIter))
      invariant forall j :: 0 <= j < i ==> c[j].1.iteraciones != 0
    {
      assert c[..i + 1][..i] == c[..i];
      if c[i].1.iteraciones == 0 {
        assert c[i] in c;
        return None;
      }
      eficiencia := eficiencia[c[i].0 := minIter / c[i].1.iteraciones as real];
      i := i + 1;
    }
    assert c[..i] == c;
    assert !IteracionNula(c) by {
      forall p | p in c ensures p.1.iteraciones != 0 {
        var j :| 0 <= j < |c| && c[j] == p;
      }
    }
    r := Some(eficiencia);
  }

  /** `eficiencia_tiempo[metodo] = min_tiempo / tiempo` over the timings of
      converged methods. */
  method LlenarEficienciaTiempo(tc: seq<(string, real)>, hayTiempos: bool) returns (r: Result<map<string, real>>)
    ensures r == EficienciaTiempoDe(tc, hayTiempos)
  {
    if !hayTiempos {
      return Ok(map[]);
    }
    if tc == [] {
      return Err(MinimoDeVacio);
    }
    var minTiempo := MinimoReal(ValoresDe(tc, Identidad));
    var eficiencia := map[];
    var i := 0;
    while i < |tc|
      invariant 0 <= i <= |tc|
      invariant eficiencia == MapaTiempos(tc[..i], minTiempo)
      invariant forall j :: 0 <= j < i ==> tc[j].1 != 0.0
    {
      assert tc[..i + 1][..i] == tc[..i];
      if tc[i].1 == 0.0 {
        assert tc[i] in tc;
        return Err(DivisionPorCero);
      }
      eficiencia := eficiencia[tc[i].0 := minTiempo / tc[i].1];
      i := i + 1;
    }
    assert tc[..i] == tc;
    assert !TiempoNulo(tc) by {
      forall p | p in tc ensures p.1 != 0.0 {
        var j :| 0 <= j < |tc| && tc[j] == p;
      }
    }
    r := Ok(eficiencia);
  }

  /** `precision[metodo] = min_error / error if error > 0 else 1`. */
  method LlenarPrecision(c: seq<(string, Resultado)>) returns (precision: map<string, real>)
    requires c != []
    ensures precision == PrecisionDeMetodos(c)
  {
    var minError := MinimoReal(ValoresDe(c, ErrorReal));
    precision := map[];
    var i := 0;
    while i < |c|
      invariant 0 <= i <= |c|
      invariant precision == Mapa(c[..i], PrecisionDe(minError))
    {
      assert c[..i + 1][..i] == c[..i];
      var error := ErrorReal(c[i].1);
      precision := precision[c[i].0 := if error > 0.0 then minError / error else 1.0];
      i := i + 1;
    }
    assert c[..i] == c;
  }

  /** `robustez[metodo] = 1.0`. */
  method LlenarRobustez(c: seq<(string, Resultado)>) returns (robustez: map<string, real>)
    ensures robustez == Mapa(c, Constante(1.0))
  {
    robustez := map[];
    var i := 0;
    while i < |c|
      invariant 0 <= i <= |c|
      invariant robustez == Mapa(c[..i], Constante(1.0))
    {
      assert c[..i + 1][..i] == c[..i];
      robustez := robustez[c[i].0 := 1.0];
      i := i + 1;
    }
    assert c[..i] == c;
  }

  /** The converged methods' dictionaries, filled one loop after another. */
  method CalcularMetricasRendimiento(resultados: seq<(string, Resultado)>, tiempos: seq<(string, real)>)
    returns (m: Result<Metricas>)
    ensures m == MetricasDe(resultados, tiempos)
  {
    var c := ConvergentesSinTiempos(resultados);
    if c == [] {
      return Ok(Metricas(map[], map[], map[], map[]));
    }
    var eficienciaIteraciones := LlenarEficienciaIteraciones(c);
    if eficienciaIteraciones.None? {
      return Err(DivisionPorCero);
    }
    var eficienciaTiempo := LlenarEficienciaTiempo(TiemposConvergentes(tiempos, ClavesDe(c)), tiempos != []);
    if eficienciaTiempo.Err? {
      return Err(eficienciaTiempo.falla);
    }
    var precision := LlenarPrecision(c);
    var robustez := LlenarRobustez(c);
    m := Ok(Metricas(eficienciaIteraciones.value, eficienciaTiempo.value, precision, robustez));
  }

  /** Filtering keeps keys distinct. */
  lemma {:induction false} ConvergentesDistintas(rs: seq<(string, Resultado)>)
    requires ClavesDistintas(rs)
    ensures ClavesDistintas(ConvergentesSinTiempos(rs))
  {
    if rs != [] {
      var ini := rs[..|rs| - 1];
      assert ClavesDistintas(ini) by {
        forall i, j | 0 <= i < j < |ini| ensures ini[i].0 != ini[j].0 {
          assert ini[i] == rs[i] && ini[j] == rs[j];
        }
      }
      ConvergentesDistintas(ini);
      var c := ConvergentesSinTiempos(ini);
      var p := rs[|rs| - 1];
      forall q | q in c ensures q.0 != p.0 {
        var j :| 0 <= j < |ini| && ini[j] == q;
      }
    }
  }

  /** Without a converged method other than `'tiempos'` there is nothing to
      filter in. */
  lemma {:induction false} SinConvergentes(rs: seq<(string, Resultado)>)
    requires forall p :: p in rs && p.0 != ClaveTiempos ==> !p.1.convergencia
    ensures ConvergentesSinTiempos(rs) == []
  {
    if rs != [] {
      var ini := rs[..|rs| - 1];
      assert forall q :: q in ini ==> q in rs;
      SinConvergentes(ini);
    }
  }

  /** No converged method: the four dictionaries are empty. */
  lemma MetricasSinConvergentes(rs: seq<(string, Resultado)>, ts: seq<(string, real)>)
    requires forall p :: p in rs && p.0 != ClaveTiempos ==> !p.1.convergencia
    ensures MetricasDe(rs, ts) == Ok(Metricas(map[], map[], map[], map[]))
  {
    SinConvergentes(rs);
  }

  lemma CocienteEnUnidad(m: real, n: real)
    requires 0.0 < m <= n
    ensures 0.0 < m / n <= 1.0
    ensures m / n == 1.0 <==> m == n
  {
  }

  lemma CocienteNoPositivo(m: real, n: real)
    requires m <= 0.0 && n > 0.0
    ensures m / n <= 0.0
  {
  }

  lemma CocienteNoNegativo(m: real, n: real)
    requires m >= 0.0 && n > 0.0
    ensures m / n >= 0.0
  {
  }

  /** The efficiency of one converged method with iteration count n > 0,
      when the smallest count is `minimo`. */
  lemma EficienciaDeUno(c: seq<(string, Resultado)>, p: (string, Resultado))
    requires p in c && !IteracionNula(c)
    ensures var minimo := MinimoReal(ValoresDe(c, IteracionesReales));
            0.0 < Valor(EficienciaDe(minimo), p.1) <= 1.0
            && (Valor(EficienciaDe(minimo), p.1) == 1.0 <==>
                  forall q :: q in c ==> p.1.iteraciones <= q.1.iteraciones)
  {
    var its := ValoresDe(c, IteracionesReales);
    var minimo := MinimoReal(its);
    var j :| 0 <= j < |c| && c[j] == p;
    assert its[j] == p.1.iteraciones as real;
    var k :| 0 <= k < |c| && its[k] == minimo;
    assert c[k] in c;
    assert minimo > 0.0;
    CocienteEnUnidad(minimo, p.1.iteraciones as real);
    if minimo == p.1.iteraciones as real {
      forall q | q in c ensures p.1.iteraciones <= q.1.iteraciones {
        var i :| 0 <= i < |c| && c[i] == q;
        assert its[i] == q.1.iteraciones as real;
      }
    } else {
      assert c[k].1.iteraciones as real == minimo;
    }
  }

  /** What a successful metrics computation holds, dictionary by
      dictionary. */
  lemma MetricasOk(rs: seq<(string, Resultado)>, ts: seq<(string, real)>)
    requires MetricasDe(rs, ts).Ok?
    ensures var c := ConvergentesSinTiempos(rs);
            var m := MetricasDe(rs, ts).value;
            !IteracionNula(c) && m.eficienciaIteraciones == EficienciaIteracionesDe(c)
            && m.precision == PrecisionDeMetodos(c) && m.robustez == Mapa(c, Constante(1.0))
  {
    var c := ConvergentesSinTiempos(rs);
    if c != [] {
      assert !IteracionNula(c);
      var et := EficienciaTiempoDe(TiemposConvergentes(ts, ClavesDe(c)), ts != []);
      assert et.Ok?;
      assert MetricasDe(rs, ts).value
        == Metricas(EficienciaIteracionesDe(c), et.value, PrecisionDeMetodos(c), Mapa(c, Constante(1.0)));
    }
  }

  /** With distinct keys and no error, every converged method has an
      iteration efficiency in (0, 1], equal to 1 exactly for those with the
      fewest iterations. */
  lemma EficienciaIteracionesAcotada(rs: seq<(string, Resultado)>, ts: seq<(string, real)>)
    requires ClavesDistintas(rs)
    requires MetricasDe(rs, ts).Ok?
    ensures var m := MetricasDe(rs, ts).value;
            m.eficienciaIteraciones.Keys == ClavesDe(ConvergentesSinTiempos(rs))
            && forall p :: p in rs && p.0 != ClaveTiempos && p.1.convergencia ==>
                 0.0 < m.eficienciaIteraciones[p.0] <= 1.0
                 && (m.eficienciaIteraciones[p.0] == 1.0 <==>
                       forall q :: q in rs && q.0 != ClaveTiempos && q.1.convergencia ==>
                         p.1.iteraciones <= q.1.iteraciones)
  {
    MetricasOk(rs, ts);
    var c := ConvergentesSinTiempos(rs);
    if c != [] {
      ConvergentesDistintas(rs);
      var f := EficienciaDe(MinimoReal(ValoresDe(c, IteracionesReales)));
      MapaValores(c, f);
      forall p | p in c
        ensures EficienciaIteracionesDe(c)[p.0] == Valor(f, p.1)
        ensures 0.0 < Valor(f, p.1) <= 1.0
        ensures Valor(f, p.1) == 1.0 <==> forall q :: q in c ==> p.1.iteraciones <= q.1.iteraciones
      {
        EficienciaDeUno(c, p);
      }
    }
  }

  /** Every converged method has robustness 1. */
  lemma RobustezUnitaria(rs: seq<(string, Resultado)>, ts: seq<(string, real)>)
    requires ClavesDistintas(rs)
    requires MetricasDe(rs, ts).Ok?
    ensures var m := MetricasDe(rs, ts).value;
            m.robustez.Keys == ClavesDe(ConvergentesSinTiempos(rs))
            && forall p :: p in rs && p.0 != ClaveTiempos && p.1.convergencia ==> m.robustez[p.0] == 1.0
  {
    MetricasOk(rs, ts);
    ConvergentesDistintas(rs);
    MapaValores(ConvergentesSinTiempos(rs), Constante(1.0));
  }

  /** The precision of one converged method, when the smallest error is
      `minimo`. */
  lemma PrecisionDeUno(c: seq<(string, Resultado)>, p: (string, Resultado))
    requires p in c
    ensures var minimo := MinimoReal(ValoresDe(c, ErrorReal));
            Valor(PrecisionDe(minimo), p.1) <= 1.0
            && ((forall q :: q in c ==> ErrorReal(q.1) >= 0.0) ==> Valor(PrecisionDe(minimo), p.1) >= 0.0)
  {
    var es := ValoresDe(c, ErrorReal);
    var minimo := MinimoReal(es);
    var j :| 0 <= j < |c| && c[j] == p;
    assert es[j] == ErrorReal(p.1);
    var e := ErrorReal(p.1);
    if e > 0.0 {
      if minimo > 0.0 {
        CocienteEnUnidad(minimo, e);
      } else {
        CocienteNoPositivo(minimo, e);
      }
      if forall q :: q in c ==> ErrorReal(q.1) >= 0.0 {
        var k :| 0 <= k < |c| && es[k] == minimo;
        assert c[k] in c;
        CocienteNoNegativo(minimo, e);
      }
    }
  }

  /** Every converged method's precision is at most 1, and exactly 1 when
      its error is 0; with non-negative errors it is also non-negative. */
  lemma PrecisionAcotada(rs: seq<(string, Resultado)>, ts: seq<(string, real)>)
    requires ClavesDistintas(rs) && ErroresConvergentesFinitos(rs)
    requires MetricasDe(rs, ts).Ok?
    ensures var m := MetricasDe(rs, ts).value;
            m.precision.Keys == ClavesDe(ConvergentesSinTiempos(rs))
            && forall p :: p in rs && p.0 != ClaveTiempos && p.1.convergencia ==>
                 m.precision[p.0] <= 1.0
                 && (p.1.error == Finite(0.0) ==> m.precision[p.0] == 1.0)
                 && ((forall q :: q in rs && q.0 != ClaveTiempos && q.1.convergencia ==> q.1.error.val >= 0.0)
                       ==> m.precision[p.0] >= 0.0)
  {
    MetricasOk(rs, ts);
    var c := ConvergentesSinTiempos(rs);
    if c != [] {
      ConvergentesDistintas(rs);
      var f := PrecisionDe(MinimoReal(ValoresDe(c, ErrorReal)));
      MapaValores(c, f);
      forall p | p in c
        ensures PrecisionDeMetodos(c)[p.0] == Valor(f, p.1)
        ensures Valor(f, p.1) <= 1.0
        ensures (forall q :: q in c ==> ErrorReal(q.1) >= 0.0) ==> Valor(f, p.1) >= 0.0
      {
        PrecisionDeUno(c, p);
      }
    }
  }

  // ---------------------------------------------------------------------
  // interpretar_blackjack (utils/helpers.py:281-318)
  // ---------------------------------------------------------------------

  datatype Riesgo = Bajo | MuyBajo | Ninguno | Maximo

  /** The `recomendacion` and `riesgo` texts of each reading. */
  function TextosRiesgo(r: Riesgo): (string, string)
  {
    match r
    case Bajo => ("Considerar tomar una carta más", "Bajo")
    case MuyBajo => ("Definitivamente tomar cartas", "Muy bajo")
    case Ninguno => ("Perfecto - Mantenerse (Stand)", "Ninguno")
    case Maximo => ("Se pasó del objetivo (Bust)", "Máximo")
  }

  datatype InterpretacionBlackjack = InterpretacionBlackjack(
    valorActual: real,
    valorAObtener: real,
    sumaTotal: real,
    diferenciaObjetivo: real,
    riesgo: Riesgo)

  /** The hand total a root gives and its risk: below the target by at most
      10 is low, by more is very low, on the target is none, above it is
      a bust. */
  function InterpretarBlackjack(valorCartas: real, raizEncontrada: real, objetivo: real := 21.0)
    : (i: InterpretacionBlackjack)
    ensures i.valorActual == valorCartas && i.valorAObtener == raizEncontrada
    ensures i.sumaTotal == valorCartas + raizEncontrada
    ensures i.diferenciaObjetivo == Abs(objetivo - i.sumaTotal)
    ensures i.riesgo == Bajo <==> i.sumaTotal < objetivo && i.diferenciaObjetivo <= 10.0
    ensures i.riesgo == MuyBajo <==> i.sumaTotal < objetivo && i.diferenciaObjetivo > 10.0
    ensures i.riesgo == Ninguno <==> i.sumaTotal == objetivo
    ensures i.riesgo == Maximo <==> i.sumaTotal > objetivo
  {
    var sumaTotal := valorCartas + raizEncontrada;
    var riesgo :=
      if sumaTotal < objetivo then (if objetivo - sumaTotal <= 10.0 then Bajo else MuyBajo)
      else if sumaTotal == objetivo then Ninguno
      else Maximo;
    InterpretacionBlackjack(valorCartas, raizEncontrada, sumaTotal, Abs(objetivo - sumaTotal), riesgo)
  }

  /** The Blackjack reading agrees with the problem's own arithmetic: the
      risk is none exactly at the analytic root, and the distance to the
      target is the one `interpretar_resultado` reports. */
  lemma InterpretarBlackjackConcuerda(valorCartas: real, raiz: real, objetivo: real)
    ensures var m := BlackjackGame.Crear(valorCartas, objetivo);
            (InterpretarBlackjack(valorCartas, raiz, objetivo).riesgo == Ninguno <==> raiz == BlackjackGame.RaizAnalitica(m))
            && InterpretarBlackjack(valorCartas, raiz, objetivo).diferenciaObjetivo
               == BlackjackGame.InterpretarResultado(m, raiz).diferenciaObjetivo
  {
  }
}
