# Blackjack root finding — a Dafny model

The application finds how many points a Blackjack hand with card value `v`
still needs to reach a target `o` (21 by default). It does so by solving
`f(x) = (v + x − o)² = 0` with three iterative root finders:

- bisection;
- Newton–Raphson;
- fixed-point iteration on `g(x) = o − v`.

It then compares and classifies their results, and it validates the user's
parameters. It also interprets the root in Blackjack terms and keeps a
constant table of predefined test cases.

This project models that core in Dafny and proves what the code promises
about it. Python floats become `real`. `float('inf')` becomes
`ExtReal.Inf`, and `None` becomes `Option.None`. An exception the code
raises becomes `Result.Err`. The functions handed to the solvers are
parameters of type `real -> real`; the helpers evaluate them inside
`try/except`, and there they have type `real -> Option<real>`, where `None`
stands for "raised".

| file | module | models |
|---|---|---|
| `comun.dfy` | `Comun` | shared datatypes and the ratio loop used by both order estimators |
| `metodos_numericos.dfy` | `MetodosNumericos` | `src/metodos_numericos.py` |
| `blackjack_game.dfy` | `BlackjackGame` | `src/blackjack_game.py` |
| `funciones.dfy` | `Funciones` | `utils/funciones.py` |
| `helpers.dfy` | `Helpers` | `utils/helpers.py` |
| `resultados.dfy` | `Resultados` | the test-case table of `data/resultados.py` |
| `escenarios.dfy` | `Escenarios` | end-to-end facts: the solvers on the Blackjack functions and the predefined cases |

Each solver is a `method` with the source's `while` loop. Its postcondition
ties the result to a recursive function (`ResultadoBiseccion`,
`ResultadoNewton`, `ResultadoPuntoFijo`) that takes the same branches. The
lemmas about those functions state the promised properties:

- the fields set on each exit path;
- the history lengths and contents;
- the iteration cap;
- when `convergencia` holds.

The other loops of the source are methods proved against a specification
function in the same way. Those loops are the ones in:

- `comparar_metodos`;
- `analizar_convergencia`;
- `estimar_orden_convergencia`;
- `generar_intervalo_biseccion`;
- `crear_tabla_iteraciones`;
- `validar_parametros_entrada`;
- `generar_reporte_convergencia`;
- `calcular_metricas_rendimiento`.

A Python dictionary of results becomes a sequence of (key, value) pairs in
insertion order. The timings stored under the key `'tiempos'` are skipped
by key.

## Model

| member | source | states |
|---|---|---|
| MetodosNumericos.Biseccion | src/metodos_numericos.py:21-95 | the loop returns exactly the result of the recursive bisection specification `ResultadoBiseccion` |
| MetodosNumericos.BiseccionSinCambioDeSigno | src/metodos_numericos.py:34-43 | when f(a)·f(b) ≥ 0 the result has no root, 0 iterations, no convergence, error inf, both histories empty and the "no root guaranteed" message |
| MetodosNumericos.BiseccionCoherente | src/metodos_numericos.py:44-95 | every bisection result has one error per iteration, at most max_iteraciones iterations, histories of equal length, convergencia exactly with the success message, a root and a finite error when converged, and every error but the last above the tolerance |
| MetodosNumericos.BiseccionHistorial | src/metodos_numericos.py:45-95 | with a sign change and tol > 0: every midpoint lies in the original interval (so does the root), the first error is the inf sentinel, and error k is \|c_k − c_{k−1}\| = \|b − a\|/2^(k+1). The root is the midpoint of a bracket inside [a, b] that still has a sign change and whose width is b − a halved once per completed halving: iteraciones − 1 times when the last midpoint stopped the loop, iteraciones times when the loop test ended it |
| MetodosNumericos.BiseccionSalida | src/metodos_numericos.py:65-95 | no midpoint before the last had \|f\| < tol. If the last one had, the loop stopped there: converged, error = \|f(raiz)\|, root = that midpoint. Otherwise the loop test ended it, with convergencia ⇔ error ≤ tol and error = the last history entry (inf when there is none) |
| MetodosNumericos.BiseccionConverge | src/metodos_numericos.py:51-95 | with a sign change, bisection converges whenever some iteration 1 ≤ k < max_iteraciones has midpoint step \|b − a\|/2^(k+1) ≤ tol |
| MetodosNumericos.NewtonRaphson | src/metodos_numericos.py:97-163 | the loop returns exactly the result of the recursive Newton specification `ResultadoNewton` |
| MetodosNumericos.NewtonPropiedades | src/metodos_numericos.py:109-163 | the shared result invariants hold. historial_x starts at x0 and has one more entry than historial_error. Each step is x − f(x)/f'(x), taken only after the derivative guard passed, and its error is the step length. No iterate after x0 and before the last had \|f\| < tol, and a last iterate (after x0) with \|f\| < tol means the run stopped there converged. The guard exit leaves error inf, no convergence and \|f'(raiz)\| < 1e-15. Success means \|f(raiz)\| < tol or error ≤ tol. On every exit except the guard, error is the last step \|x_nuevo − x_actual\| (inf before the first step). The root is always the last iterate |
| MetodosNumericos.NewtonDerivadaNulaEnSemilla | src/metodos_numericos.py:115-130 | if \|f'(x0)\| < 1e-15 and the cap is at least 1, the result is (x0, 0 iterations, not converged, inf, [x0], [], "derivative too small") |
| MetodosNumericos.NewtonLineal | src/metodos_numericos.py:133-150 | for f(x) = x − k and f' = 1, Newton converges in exactly one iteration to k from any seed |
| MetodosNumericos.PuntoFijo | src/metodos_numericos.py:165-226 | the loop returns exactly the result of the recursive fixed-point specification `ResultadoPuntoFijo` |
| MetodosNumericos.PuntoFijoPropiedades | src/metodos_numericos.py:176-226 | the shared result invariants hold, and historial_x follows g from x0 with one more entry than historial_error. Every step before the last was at least tol long and every iterate after x0 and before the last was within 1e10, so the run stops at the first short step or the first iterate beyond 1e10. Divergence is declared ⇔ the last step was at least tol long and \|raiz\| > 1e10, and then with error inf and no convergence. Otherwise error is the last step \|x_nuevo − x_actual\| (inf before the first step) and convergencia ⇔ error ≤ tol |
| MetodosNumericos.PuntoFijoConstanteCercano | src/metodos_numericos.py:182-201 | a constant map g = k with \|k − x0\| < tol converges in one iteration, even when \|k\| > 1e10, because the convergence test comes first |
| MetodosNumericos.PuntoFijoConstanteLejano | src/metodos_numericos.py:182-216 | a constant map g = k with \|k\| ≤ 1e10 and \|k − x0\| > tol converges in two iterations with final error 0 |
| MetodosNumericos.PuntoFijoConstanteEnElBorde | src/metodos_numericos.py:182-226 | with \|k − x0\| = tol, the run stops after one iteration through the loop test and counts as converged |
| MetodosNumericos.Convergentes | src/metodos_numericos.py:254 | the kept entries are exactly the converged ones, and a one-entry dictionary is kept or dropped by its own flag |
| MetodosNumericos.ConvergentesConcatena | src/metodos_numericos.py:254 | the filter of a concatenation is the concatenation of the filters, so the converged entries keep the order of the dictionary |
| MetodosNumericos.CompararMetodos | src/metodos_numericos.py:228-275 | the results are bisection, Newton and fixed point under their keys, in that order, followed by the comparative analysis of them |
| MetodosNumericos.ComparativoCorrecto | src/metodos_numericos.py:254-273 | metodos_convergentes is the keys of the converged entries, in dictionary order. The best-by-iterations and best-by-error entries exist exactly when something converged. Each is the result of some converged entry, is minimal among the converged ones, and is the first minimal one in dictionary order. raiz_teorica is None |
| MetodosNumericos.Errores | src/metodos_numericos.py:294 | the kept errors are the error history without its first entry |
| MetodosNumericos.TipoPorOrden | src/metodos_numericos.py:309-314 | Lineal ⇔ order < 1.5, Cuadrática ⇔ 1.5 ≤ order < 2.5, Superlineal ⇔ order ≥ 2.5 |
| MetodosNumericos.TipoPorFactor | src/metodos_numericos.py:325-332 | Rápida ⇔ factor truthy and < 0.1, Moderada ⇔ truthy and in [0.1, 0.5), Lenta otherwise, including a factor of 0 or None |
| MetodosNumericos.AnalizarConvergencia | src/metodos_numericos.py:277-338 | the method returns exactly the classification function `Analisis` |
| MetodosNumericos.AnalisisCasos | src/metodos_numericos.py:287-338 | 'No convergente' with no numbers ⇔ not converged or fewer than 2 errors. An order needs at least 3 kept errors and is classified by the order thresholds; otherwise the factor thresholds apply. The factor exists ⇔ at least 2 kept errors |
| MetodosNumericos.OrdenSoloConTernaPositiva | src/metodos_numericos.py:297-307 | an order is reported only if some triple of consecutive kept errors is all positive |
| MetodosNumericos.AnalisisSinDivisionPorCero | src/metodos_numericos.py:319-325 | on any coherent solver result the classifier never divides by a zero error |
| Comun.CalcularRazones | src/metodos_numericos.py:300-304 | the ratio loop returns exactly `RazonesHasta`: one ratio per all-positive triple, in index order, or None once a denominator log is 0 |
| Comun.RazonesSoloDeTernasPositivas | src/metodos_numericos.py:301-304 | when no division raised, some ratio was collected ⇔ some triple of consecutive errors is all positive |
| BlackjackGame.Crear | src/blackjack_game.py:10-20 | the game stores the hand and the target, and diferencia_objetivo equals the analytic root |
| BlackjackGame.RaizAnalitica | src/blackjack_game.py:128-139 | v + root = o |
| BlackjackGame.FuncionObjetivo | src/blackjack_game.py:22-36 | f(x) ≥ 0, and f(x) = 0 ⇔ x is the analytic root |
| BlackjackGame.DerivadaFuncion | src/blackjack_game.py:38-50 | f'(x) = 0 ⇔ x is the root, and f'(x) < 0 ⇔ x is below it |
| BlackjackGame.DerivadaExacta | src/blackjack_game.py:36-50 | f(x + h) = f(x) + f'(x)·h + h², so f' is the derivative of f |
| BlackjackGame.FuncionPuntoFijo | src/blackjack_game.py:52-66 | g ignores x and returns the analytic root, its only fixed point |
| BlackjackGame.FuncionObjetivoBiseccion | src/blackjack_game.py:68-74 | x − root: zero exactly at the root and negative exactly below it |
| BlackjackGame.VerificarExistenciaRaiz | src/blackjack_game.py:108-126 | existe_raiz ⇔ a < r < b, minimo_en_intervalo ⇔ a ≤ r ≤ b, and the message depends only on the latter |
| BlackjackGame.ErrorNumerico | src/blackjack_game.py:141-162 | absolute error = \|n − r\|, relative error inf ⇔ r = 0 and otherwise absolute/\|r\|, percentage = 100 × relative, function value = squared absolute error |
| BlackjackGame.InterpretarResultado | src/blackjack_game.py:164-196 | suma_total = v + x and diferencia_objetivo = \|o − suma_total\|. error_cuadratico is its square, with bands < 1e-6 optimal, < 1 near and ≥ 1 far; those bands are distance < 0.001 and distance ≥ 1 |
| Funciones.ValidarIntervalo | utils/funciones.py:10-38 | valido ⇔ both evaluations succeed with opposite signs (f(a)·f(b) < 0). f_a, f_b and producto = f(a)·f(b) are reported only when both evaluations succeed. Each message corresponds to its case |
| Funciones.CalcularErrorAbsoluto | utils/funciones.py:41-43 | the error is ≥ 0, symmetric, and 0 ⇔ the arguments are equal |
| Funciones.CalcularErrorRelativo | utils/funciones.py:46-50 | inf ⇔ \|x_anterior\| < 1e-15; otherwise it is ≥ 0 and error·\|x_anterior\| = \|Δ\| |
| Funciones.EstimarOrdenConvergencia | utils/funciones.py:53-75 | the loop returns exactly the averaged-order function `OrdenDeErrores`: `OrdenEstimado` of the errors, except that an inf head in an all-positive first triple gives None (the logarithm of 0.0 raises) |
| Funciones.OrdenDeErroresCasos | utils/funciones.py:63-75 | an estimate exists only for at least 3 errors with some triple of consecutive errors that are all numbers and positive |
| Funciones.OrdenDeHistorialBiseccion | utils/funciones.py:66-75 | on a bisection error history (inf head, then positive half-widths) the estimate is always None |
| Funciones.OrdenEstimadoCasos | utils/funciones.py:63-75 | None for fewer than 3 errors or when no triple qualifies; a value only when some triple is all positive |
| Funciones.OrdenEstimadoAcotado | utils/funciones.py:72-73 | the averaged order lies between the smallest and the largest ratio |
| Funciones.RadiosCrecientes | utils/funciones.py:90 | the 100 radii run from 0.1 to radio in strictly increasing order |
| Funciones.GenerarIntervaloBiseccion | utils/funciones.py:78-100 | None ⇔ no radius gives a sign change. Otherwise the result is (c − r, c + r) for the first such radius, symmetric about c |
| Funciones.VerificarDerivadaNoCero | utils/funciones.py:103-119 | true ⇔ the derivative evaluates and \|f'(x)\| > tol strictly; false on an evaluation failure |
| Funciones.DerivadaFrenteAGuardaNewton | utils/funciones.py:115-119 | with the default tolerance, passing this check implies passing Newton's guard; the two differ only at \|f'\| = 1e-15 |
| Funciones.AnalizarConvergenciaPuntoFijo | utils/funciones.py:122-148 | convergencia_local ⇔ \|g'(x)\| < 1, tipo agrees with it, and an evaluation failure gives the error type |
| Funciones.CrearTablaIteraciones | utils/funciones.py:161-181 | the table has min(\|x\|, \|err\|) rows, and row i is (i, x_i, err_i, metodo). With one more x than errors, the last x is dropped |
| Helpers.GenerarReporteConvergencia | utils/helpers.py:31-82 | the loop returns exactly the report function `ReporteDe` |
| Helpers.ReporteReparte | utils/helpers.py:49-66 | 'tiempos' is skipped, and every other key appears in metodos_ejecutados in input order. Each goes to exactly one of convergentes / no_convergentes, according to convergencia |
| Helpers.EstadisticasCorrectas | utils/helpers.py:69-80 | statistics exist ⇔ something converged. total = count and min ≤ mean ≤ max iterations. Best/worst precision bound every converged error. The min and max iterations and the best and worst precision are each those of some converged entry |
| Helpers.ValidarParametrosEntrada | utils/helpers.py:85-121 | the messages are the failing checks in the fixed order, and valido ⇔ there are none |
| Helpers.FallosHastaCorrectos | utils/helpers.py:95-117 | after the first k checks, the messages are exactly the failing ones among them, in check order |
| Helpers.ValidacionCorrecta | utils/helpers.py:92-121 | a message is present ⇔ its inclusive range check fails, messages are in order, there are at most 6, and a ≥ b is always rejected |
| Helpers.FormatearResultadoMetodo | utils/helpers.py:124-152 | a non-converged result gets 'No Convergió' with root and error N/A; iteraciones and mensaje pass through unchanged |
| Helpers.FormatoDeResultadoCoherente | utils/helpers.py:135-152 | for solver results a root is shown ⇔ the run converged, and a shown error is finite |
| Helpers.GenerarCasosPruebaAutomaticos | utils/helpers.py:155-190 | three cases, each with expected root = objetivo − valor_cartas, strictly inside (a, b), and equal to x0 |
| Helpers.CalcularMetricasRendimiento | utils/helpers.py:193-244 | the four loops return exactly the metrics function `MetricasDe`, including its division-by-zero and empty-min errors |
| Helpers.MetricasSinConvergentes | utils/helpers.py:211-216 | with no converged method, all four dictionaries are empty |
| Helpers.EficienciaIteracionesAcotada | utils/helpers.py:218-223 | the keys are the converged methods, each value is in (0, 1], and a value is 1 ⇔ it has the fewest iterations |
| Helpers.RobustezUnitaria | utils/helpers.py:240-242 | the keys are the converged methods, each with the value 1 |
| Helpers.PrecisionAcotada | utils/helpers.py:233-238 | the keys are the converged methods. Each value is ≤ 1, exactly 1 for a zero error, and ≥ 0 when the errors are non-negative |
| Helpers.InterpretarBlackjack | utils/helpers.py:281-318 | suma_total = v + r and diferencia = \|o − suma\|. Below the target by ≤ 10 gives Bajo, below by > 10 gives Muy bajo, equal gives Ninguno, above gives Máximo |
| Helpers.InterpretarBlackjackConcuerda | utils/helpers.py:293-316 | Ninguno ⇔ r is the analytic root, and the distance equals the one interpretar_resultado reports |
| Resultados.Buscar | data/resultados.py:267-270 | None ⇔ no case has the name; otherwise the result is the first case with that name |
| Resultados.ObtenerCasoPrueba | data/resultados.py:257-270 | None ⇔ no predefined case has the name; otherwise a predefined case with that name |
| Resultados.ListarCasosPrueba | data/resultados.py:272-279 | the names in table order, as many as there are cases |
| Resultados.BuscarConNombresDistintos | data/resultados.py:267-270 | with distinct names, searching for the i-th name yields the i-th case |
| Resultados.ListarYObtener | data/resultados.py:257-279 | every listed name leads back to its own case |
| Resultados.NombresPredefinidosDistintos | data/resultados.py:212-255 | the three predefined cases have pairwise distinct names |
| Resultados.CasosAutomaticosConcuerdan | data/resultados.py:212-255 | the automatic cases of the helpers have the same hand, target, seed, bracket and expected root as the predefined cases, in the same order |
| Resultados.CasosCoherentes | data/resultados.py:212-255 | every case has expected root = o − v (the analytic root), strictly inside (a, b), equal to x0, and parameters that pass validation |
| Escenarios.BiseccionSobreObjetivoFalla | src/blackjack_game.py:36 | bisection on the squared objective always takes the no-sign-change exit, because both end values are ≥ 0 |
| Escenarios.NewtonDesdeLaRaiz | src/metodos_numericos.py:121-130 | Newton on the Blackjack derivative, seeded at the analytic root, returns through the derivative guard without converging |
| Escenarios.NewtonEnCasosPredefinidos | data/resultados.py:212-255 | on every predefined case (seed = root), Newton on the squared objective stops at the guard without converging |
| Escenarios.PuntoFijoSobreBlackjack | src/blackjack_game.py:52-66 | fixed point on g = o − v converges to the root in 1 iteration from a seed within tol, and in 2 iterations from a seed further away |
| Escenarios.PuntoFijoEnCasosPredefinidos | data/resultados.py:212-255 | on every predefined case, fixed point converges in one iteration to the expected root with error 0 |
| Escenarios.BiseccionLinealConverge | src/blackjack_game.py:68-74 | bisection on x − root over a bracket that strictly contains the root has a sign change, and converges once \|b − a\|/2^(k+1) ≤ tol for some k below the cap |
| Escenarios.BiseccionEnCasosPredefinidos | data/resultados.py:212-255 | bisection on x − root converges on every predefined case |
| Escenarios.TablaDeNewton | utils/funciones.py:173-181 | the iteration table of a Newton run has one row per error, one fewer than historial_x, and row i is (i, x_i, error_i, "Newton-Raphson") |

## Left out

- The Streamlit user interface (`app.py`), its session caching and wall-clock timing are not part of this model. `app.py:193` calls `biseccion` with a fourth argument that the method does not accept; the model follows the three-argument signature of `src/metodos_numericos.py:21`.
- The presentation modules are not part of this model: `src/visualizaciones.py` (Plotly figures, pandas tables), `formatear_numero_cientifico` and the f-string number rendering in `formatear_resultado_metodo`. A shown root or error is kept as the number.
- Helpers.FormatearResultadoMetodo: `metodo.title()` is not modelled (there is no case mapping on `seq<char>`); the name passes through unchanged.
- `AlmacenamientoResultados` in `data/resultados.py` is not part of this model; it does JSON/pickle file I/O, directory handling and timestamps. The module-level instance is left out with it.
- The helpers `cronometrar_ejecucion` (clock), `exportar_resultados_csv` (file write) and `generar_resumen_ejecutivo` (text rendering) are not part of this model, nor is the timestamp of `generar_reporte_convergencia`.
- `segunda_derivada`, `evaluar_en_intervalo`, `__str__` and `__repr__` of `BlackjackMath` are not part of this model; they are plotting support and text.
- Floating point: rounding, overflow, NaN and underflow are not modelled. Everything is over exact reals, so, for instance, `f(a)·f(c) < 0` is exactly "opposite signs".
- `math.log` has no Dafny counterpart. It is the parameter `ln: real -> real`. The proofs are about the filtering, the fallback and the thresholds, not about the logarithm. `np.mean` is the arithmetic mean `Comun.Media`.
- Funciones.ValidarIntervalo: the `'error': str(e)` field of the failure dictionary is not modelled, because exception texts have no counterpart in the model; the failure is the `None` evaluation with the `ErrorAlEvaluar` message.
- Exceptions raised by the functions handed to the solvers are not modelled; the solvers do not catch them either. In `utils/funciones.py` a function that may raise is `real -> Option<real>`.
- MetodosNumericos.AnalizarConvergencia: it requires every error after the first to be finite, as on every solver result (`BiseccionCoherente`, `NewtonPropiedades`, `PuntoFijoPropiedades`). A dictionary with `inf` further down the history is outside the model.
- Helpers.CalcularMetricasRendimiento: a converged entry whose error is `inf` has its error read as 0. Solver results never have one, and `PrecisionAcotada` assumes finite errors.
- Helpers.PrecisionAcotada: the non-negative case is stated under the hypothesis that all converged errors are non-negative; that is the case for every solver result, not for an arbitrary dictionary.
- Resultados.CasoPrueba: the third case's description key is spelled `'descripción'`, unlike the other two. The model records each case's key in the `claveDescripcion` field, and nothing in the core reads the description.
- Funciones.EstimarOrdenConvergencia: the errors may hold `inf` only at the head, where every solver history has it. An `inf` further down makes a ratio infinite or a logarithm of 0.0 raise, depending on the neighbouring triples; infinite ratios and their mean are outside the model.
- Bisection with max_iteraciones ≤ 0, or with the tolerance ≤ 0, is modelled as written (the loop never runs, or runs to the cap). The history-content lemma `BiseccionHistorial` assumes tol > 0.

## Notes

- A constant fixed-point map `g(x) = k` with |k − x0| > tol converges in
  two iterations: the first step is too long and the second has
  length 0 (`PuntoFijoConstanteLejano`).
- Newton on the squared objective gets stuck in the derivative guard from
  a seed equal to the root (`NewtonDesdeLaRaiz`). Newton on the linear
  objective x − k converges in one iteration from any seed (`NewtonLineal`).
