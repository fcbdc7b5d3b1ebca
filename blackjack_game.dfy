/** The arithmetic of the Blackjack problem (`BlackjackMath`): the quadratic
    objective f(x) = (v + x - o)^2 whose minimum is the card value still
    needed, its derivative, the constant fixed-point map, the linear function
    bisection is meant to run on, and the small reports built on them.
    The object's two fields are set once in its constructor and never
    changed, so it is a value here. */
module BlackjackGame {
  import opened Comun

  /** A Blackjack problem: current hand value v, target o (21 by default) and
      the difference o - v the constructor stores. */
  datatype BlackjackMath = BlackjackMath(valorCartas: real, objetivo: real, diferenciaObjetivo: real)

  /** `BlackjackMath(valor_cartas_actuales, objetivo=21)`. */
  function Crear(valorCartas: real, objetivo: real := 21.0): (m: BlackjackMath)
    ensures m.valorCartas == valorCartas && m.objetivo == objetivo
    ensures m.diferenciaObjetivo == RaizAnalitica(m)
  {
    BlackjackMath(valorCartas, objetivo, objetivo - valorCartas)
  }

  /** The card value that brings the hand exactly to the target. */
  function RaizAnalitica(m: BlackjackMath): (r: real)
    ensures m.valorCartas + r == m.objetivo
  {
    m.objetivo - m.valorCartas
  }

  /** x^2, the `** 2` of the source. */
  function Cuadrado(t: real): (r: real)
    ensures r >= 0.0
  {
    if t < 0.0 then (-t) * (-t) else t * t
  }

  lemma ProductoPositivo(x: real, y: real)
    requires x > 0.0 && y > 0.0
    ensures x * y > 0.0
  {
  }

  lemma CuadradoEsProducto(t: real)
    ensures Cuadrado(t) == t * t
  {
  }

  /** A non-zero number has a strictly positive square. */
  lemma CuadradoPositivo(t: real)
    requires t != 0.0
    ensures Cuadrado(t) > 0.0
  {
    if t > 0.0 {
      calc { Cuadrado(t); t * t; > { ProductoPositivo(t, t); } 0.0; }
    } else {
      calc { Cuadrado(t); (-t) * (-t); > { ProductoPositivo(-t, -t); } 0.0; }
    }
  }

  lemma CuadradoDelAbs(t: real)
    ensures Cuadrado(Abs(t)) == Cuadrado(t)
  {
    CuadradoEsProducto(t);
    CuadradoEsProducto(Abs(t));
    if t < 0.0 {
      assert Abs(t) * Abs(t) == (-t) * (-t) == t * t;
    }
  }

  lemma CuadradoOpuesto(t: real)
    ensures Cuadrado(-t) == Cuadrado(t)
  {
    CuadradoEsProducto(t);
    CuadradoEsProducto(-t);
    assert (-t) * (-t) == t * t;
  }

  /** For non-negative d and c, d^2 < c^2 exactly when d < c. */
  lemma CuadradoMenor(d: real, c: real)
    requires d >= 0.0 && c > 0.0
    ensures Cuadrado(d) < Cuadrado(c) <==> d < c
  {
    if d < c {
      calc {
        Cuadrado(d);
        d * d;
      <= d * c;
      < { ProductoPositivo(c - d, c); assert (c - d) * c == c * c - d * c; }
        c * c;
        Cuadrado(c);
      }
    } else {
      calc {
        Cuadrado(d);
        d * d;
      >= c * d;
      >= c * c;
        Cuadrado(c);
      }
    }
  }

  /** f(x) = (v + x - o)^2: never negative, and zero exactly at the analytic
      root. */
  function FuncionObjetivo(m: BlackjackMath, x: real): (r: real)
    ensures r >= 0.0
    ensures r == 0.0 <==> x == RaizAnalitica(m)
  {
    var t := m.valorCartas + x - m.objetivo;
    if t != 0.0 then CuadradoPositivo(t); Cuadrado(t) else Cuadrado(t)
  }

  /** f'(x) = 2(v + x - o): zero exactly at the analytic root, negative
      before it and positive after it. */
  function DerivadaFuncion(m: BlackjackMath, x: real): (r: real)
    ensures r == 0.0 <==> x == RaizAnalitica(m)
    ensures r < 0.0 <==> x < RaizAnalitica(m)
  {
    2.0 * (m.valorCartas + x - m.objetivo)
  }

  /** `derivada_funcion` is the derivative of `funcion_objetivo`: the
      quadratic's Taylor expansion is exact with remainder h^2. */
  lemma DerivadaExacta(m: BlackjackMath, x: real, h: real)
    ensures FuncionObjetivo(m, x + h) == FuncionObjetivo(m, x) + DerivadaFuncion(m, x) * h + h * h
  {
    var t := m.valorCartas + x - m.objetivo;
    CuadradoEsProducto(t + h);
    CuadradoEsProducto(t);
    assert (t + h) * (t + h) == t * t + 2.0 * t * h + h * h;
  }

  /** g(x) = o - v: it ignores x and always returns the analytic root, so
      the root is its only fixed point. */
  function FuncionPuntoFijo(m: BlackjackMath, x: real): (r: real)
    ensures r == RaizAnalitica(m)
    ensures r == x <==> x == RaizAnalitica(m)
  {
    m.objetivo - m.valorCartas
  }

  /** The linear function x - r meant for bisection: zero exactly at the
      analytic root, negative before it and positive after it. */
  function FuncionObjetivoBiseccion(m: BlackjackMath, x: real): (r: real)
    ensures r == 0.0 <==> x == RaizAnalitica(m)
    ensures r < 0.0 <==> x < RaizAnalitica(m)
    ensures r + RaizAnalitica(m) == x
  {
    var raizExacta := RaizAnalitica(m);
    x - raizExacta
  }

  datatype MensajeIntervalo = IntervaloValido | AjustarIntervalo

  function TextoIntervalo(k: MensajeIntervalo): string
  {
    match k
    case IntervaloValido => "Intervalo válido para bisección"
    case AjustarIntervalo => "Ajustar intervalo"
  }

  /** The dictionary `verificar_existencia_raiz` returns. */
  datatype VerificacionRaiz = VerificacionRaiz(
    existeRaiz: bool,
    fA: real,
    fB: real,
    minimoTeorico: real,
    minimoEnIntervalo: bool,
    mensaje: MensajeIntervalo)

  /** Whether [a, b] holds the minimum and the linear bisection function has
      a sign change on it. The sign change needs the root strictly inside,
      so `existe_raiz` holds exactly when a < r < b, while
      `minimo_en_intervalo` is the closed test a <= r <= b and alone decides
      the message. `f_a` and `f_b` are the quadratic objective's values. */
  function VerificarExistenciaRaiz(m: BlackjackMath, a: real, b: real): (v: VerificacionRaiz)
    ensures v.existeRaiz <==> a < RaizAnalitica(m) < b
    ensures v.minimoEnIntervalo <==> a <= RaizAnalitica(m) <= b
    ensures v.mensaje == IntervaloValido <==> v.minimoEnIntervalo
    ensures v.minimoTeorico == RaizAnalitica(m)
    ensures v.fA == FuncionObjetivo(m, a) && v.fB == FuncionObjetivo(m, b)
  {
    var minimoTeorico := RaizAnalitica(m);
    var minimoEnIntervalo := a <= minimoTeorico <= b;
    var faBisec := FuncionObjetivoBiseccion(m, a);
    var fbBisec := FuncionObjetivoBiseccion(m, b);
    ProductoNegativo(faBisec, fbBisec);
    VerificacionRaiz(minimoEnIntervalo && faBisec * fbBisec < 0.0,
                     FuncionObjetivo(m, a), FuncionObjetivo(m, b), minimoTeorico, minimoEnIntervalo,
                     if minimoEnIntervalo then IntervaloValido else AjustarIntervalo)
  }

  /** The dictionary `error_numerico` returns; the relative and percentage
      errors are `inf` when the exact root is 0. */
  datatype ErrorNumericoInfo = ErrorNumericoInfo(
    raizExacta: real,
    raizNumerica: real,
    errorAbsoluto: real,
    errorRelativo: ExtReal,
    errorPorcentual: ExtReal,
    valorFuncionNumerica: real)

  /** How far a numerical root is from the analytic one. The absolute error
      is the distance, the relative error is that distance over |r| (or
      `inf` when r = 0), the percentage is 100 times the relative error, and
      the objective at the numerical root is the squared absolute error. */
  function ErrorNumerico(m: BlackjackMath, raizNumerica: real): (e: ErrorNumericoInfo)
    ensures e.raizExacta == RaizAnalitica(m) && e.raizNumerica == raizNumerica
    ensures e.errorAbsoluto == Abs(raizNumerica - RaizAnalitica(m))
    ensures e.errorAbsoluto == 0.0 <==> raizNumerica == RaizAnalitica(m)
    ensures e.errorRelativo.Inf? <==> RaizAnalitica(m) == 0.0
    ensures e.errorRelativo.Finite? ==>
              e.errorRelativo.val >= 0.0 && e.errorRelativo.val * Abs(RaizAnalitica(m)) == e.errorAbsoluto
    ensures e.errorPorcentual == Escalar(100.0, e.errorRelativo)
    ensures e.valorFuncionNumerica == Cuadrado(e.errorAbsoluto)
  {
    var raizExacta := RaizAnalitica(m);
    var errorAbsoluto := Abs(raizNumerica - raizExacta);
    var errorRelativo := if raizExacta != 0.0 then Finite(errorAbsoluto / Abs(raizExacta)) else Inf;
    CocienteNoNegativo(errorAbsoluto, Abs(raizExacta));
    CuadradoDelAbs(raizNumerica - raizExacta);
    ErrorNumericoInfo(raizExacta, raizNumerica, errorAbsoluto, errorRelativo,
                      Escalar(100.0, errorRelativo), FuncionObjetivo(m, raizNumerica))
  }

  lemma CocienteNoNegativo(x: real, y: real)
    requires x >= 0.0 && y >= 0.0
    ensures y != 0.0 ==> x / y >= 0.0 && x / y * y == x
  {
  }

  /** The three bands `interpretar_resultado` sorts the squared error into. */
  datatype Banda = Optimo | CercaDelOptimo | LejosDelOptimo

  /** The `interpretacion` and `recomendacion` texts of each band. */
  function TextosBanda(b: Banda): (string, string)
  {
    match b
    case Optimo => ("Óptimo alcanzado - Minimización exitosa", "Estrategia óptima encontrada")
    case CercaDelOptimo => ("Cerca del óptimo", "Estrategia casi óptima")
    case LejosDelOptimo => ("Lejos del óptimo", "Revisar parámetros de optimización")
  }

  /** The dictionary `interpretar_resultado` returns. */
  datatype Interpretacion = Interpretacion(
    valorActual: real,
    valorAObtener: real,
    sumaTotal: real,
    errorCuadratico: real,
    diferenciaObjetivo: real,
    banda: Banda)

  /** The reading of a numerical root in Blackjack terms: the hand total it
      gives, its distance to the target, and a band on the squared error
      (< 1e-6 optimal, < 1 near, else far). Since the squared error is the
      squared distance, the bands are distance < 0.001, < 1 and >= 1. */
  function InterpretarResultado(m: BlackjackMath, raizEncontrada: real): (i: Interpretacion)
    ensures i.valorActual == m.valorCartas && i.valorAObtener == raizEncontrada
    ensures i.sumaTotal == m.valorCartas + raizEncontrada
    ensures i.diferenciaObjetivo == Abs(m.objetivo - i.sumaTotal)
    ensures i.errorCuadratico == FuncionObjetivo(m, raizEncontrada)
    ensures i.errorCuadratico == Cuadrado(i.diferenciaObjetivo)
    ensures i.banda == Optimo <==> i.errorCuadratico < 1e-6
    ensures i.banda == CercaDelOptimo <==> 1e-6 <= i.errorCuadratico < 1.0
    ensures i.banda == LejosDelOptimo <==> i.errorCuadratico >= 1.0
    ensures i.banda == Optimo <==> i.diferenciaObjetivo < 0.001
    ensures i.banda == LejosDelOptimo <==> i.diferenciaObjetivo >= 1.0
  {
    var sumaTotal := m.valorCartas + raizEncontrada;
    var errorCuadratico := FuncionObjetivo(m, raizEncontrada);
    var d := Abs(m.objetivo - sumaTotal);
    CuadradoDelAbs(m.objetivo - sumaTotal);
    CuadradoOpuesto(sumaTotal - m.objetivo);
    CuadradoMenor(d, 0.001);
    CuadradoMenor(d, 1.0);
    CuadradoEsProducto(0.001);
    CuadradoEsProducto(1.0);
    var banda := if errorCuadratico < 1e-6 then Optimo
                 else if errorCuadratico < 1.0 then CercaDelOptimo
                 else LejosDelOptimo;
    Interpretacion(m.valorCartas, raizEncontrada, sumaTotal, errorCuadratico, d, banda)
  }
}
