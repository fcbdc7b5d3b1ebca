/**
  The constant table of predefined test cases and its two lookups: search by
  name and the list of names.
*/
module Resultados {
  import opened Comun
  import Helpers
  import BlackjackGame

  /** A predefined case. `parametros` has the seven keys of the application's
      input form. The source spells the description key `'descripcion'` in the
      first two cases and `'descripción'` in the third; `claveDescripcion`
      records which spelling each case uses. */
  datatype CasoPrueba = CasoPrueba(
    nombre: string,
    parametros: Helpers.Parametros,
    raizEsperada: real,
    claveDescripcion: string,
    descripcion: string)

  const CasosPruebaPredefinidos: seq<CasoPrueba> := [
    CasoPrueba("Caso Básico - Mano 10",
      Helpers.Parametros(10.0, 21.0, 1e-6, 100, 11.0, 0.0, 20.0), 11.0,
      "descripcion", "Caso estándar con mano de valor 10"),
    CasoPrueba("Mano Baja - Valor 6",
      Helpers.Parametros(6.0, 21.0, 1e-6, 100, 15.0, 0.0, 20.0), 15.0,
      "descripcion", "Mano baja, necesita mucho valor adicional"),
    CasoPrueba("Mano Alta - Valor 19",
      Helpers.Parametros(19.0, 21.0, 1e-6, 100, 2.0, 0.0, 5.0), 2.0,
      "descripción", "Mano alta, solo necesita poco valor")
  ]

  /** The linear search with early return: the first case of `casos` named
      `nombre`, or `None`. */
  function Buscar(casos: seq<CasoPrueba>, nombre: string): (r: Option<CasoPrueba>)
    ensures r.None? <==> forall i :: 0 <= i < |casos| ==> casos[i].nombre != nombre
    ensures r.Some? ==>
      exists i :: 0 <= i < |casos| && casos[i] == r.value && r.value.nombre == nombre
        && forall j :: 0 <= j < i ==> casos[j].nombre != nombre
  {
    if casos == [] then None
    else if casos[0].nombre == nombre then Some(casos[0])
    else
      var r := Buscar(casos[1..], nombre);
      assert forall i :: 1 <= i < |casos| ==> casos[i] == casos[1..][i - 1];
      if r.Some? then
        var k :| 0 <= k < |casos[1..]| && casos[1..][k] == r.value && r.value.nombre == nombre
          && forall j :: 0 <= j < k ==> casos[1..][j].nombre != nombre;
        assert casos[k + 1] == r.value;
        r
      else
        r
  }

  /** The predefined case named `nombre`, if any. */
  function ObtenerCasoPrueba(nombre: string): (r: Option<CasoPrueba>)
    ensures r.None? <==> forall i :: 0 <= i < |CasosPruebaPredefinidos| ==> CasosPruebaPredefinidos[i].nombre != nombre
    ensures r.Some? ==> r.value.nombre == nombre && r.value in CasosPruebaPredefinidos
  {
    Buscar(CasosPruebaPredefinidos, nombre)
  }

  /** The names of the predefined cases, in table order. */
  function ListarCasosPrueba(): (ns: seq<string>)
    ensures |ns| == |CasosPruebaPredefinidos|
    ensures forall i :: 0 <= i < |ns| ==> ns[i] == CasosPruebaPredefinidos[i].nombre
  {
    seq(|CasosPruebaPredefinidos|, i requires 0 <= i < |CasosPruebaPredefinidos| => CasosPruebaPredefinidos[i].nombre)
  }

  predicate NombresDistintos(casos: seq<CasoPrueba>)
  {
    forall i, j :: 0 <= i < j < |casos| ==> casos[i].nombre != casos[j].nombre
  }

  /** With distinct names, searching for the i-th name finds the i-th case. */
  lemma {:induction false} BuscarConNombresDistintos(casos: seq<CasoPrueba>, i: nat)
    requires NombresDistintos(casos) && i < |casos|
    ensures Buscar(casos, casos[i].nombre) == Some(casos[i])
  {
    if i > 0 {
      assert casos[0].nombre != casos[i].nombre;
      var resto := casos[1..];
      assert NombresDistintos(resto) by {
        forall k, l | 0 <= k < l < |resto| ensures resto[k].nombre != resto[l].nombre {
          assert resto[k] == casos[k + 1] && resto[l] == casos[l + 1];
        }
      }
      assert resto[i - 1] == casos[i];
      BuscarConNombresDistintos(resto, i - 1);
    }
  }

  /** The three names differ (already in length). */
  lemma NombresPredefinidosDistintos()
    ensures NombresDistintos(CasosPruebaPredefinidos)
  {
    var cs := CasosPruebaPredefinidos;
    assert |cs[0].nombre| == 21 && |cs[1].nombre| == 19 && |cs[2].nombre| == 20;
  }

  /** Every listed name leads back to its own case. */
  lemma ListarYObtener()
    ensures forall i :: 0 <= i < |ListarCasosPrueba()| ==>
      ObtenerCasoPrueba(ListarCasosPrueba()[i]) == Some(CasosPruebaPredefinidos[i])
  {
    NombresPredefinidosDistintos();
    forall i | 0 <= i < |ListarCasosPrueba()|
      ensures ObtenerCasoPrueba(ListarCasosPrueba()[i]) == Some(CasosPruebaPredefinidos[i])
    {
      BuscarConNombresDistintos(CasosPruebaPredefinidos, i);
    }
  }

  /** Every predefined case is consistent with the Blackjack problem it
      describes: the expected root is the analytic root `objetivo −
      valor_cartas`, it lies strictly inside the bracket `(a, b)`, it is
      also the Newton seed, and the parameters pass input validation. */
  lemma CasosCoherentes()
    ensures forall c :: c in CasosPruebaPredefinidos ==> CasoCoherente(c)
  {
    forall c | c in CasosPruebaPredefinidos ensures CasoCoherente(c) {
      var i :| 0 <= i < |CasosPruebaPredefinidos| && CasosPruebaPredefinidos[i] == c;
      CasoPredefinidoCoherente(i);
    }
  }

  /** A case agrees with the Blackjack problem it describes and its
      parameters pass input validation. */
  predicate CasoCoherente(c: CasoPrueba)
  {
    var p := c.parametros;
    c.raizEsperada == BlackjackGame.RaizAnalitica(BlackjackGame.Crear(p.valorCartas, p.objetivo))
    && p.a < c.raizEsperada < p.b && p.x0 == c.raizEsperada
    && Helpers.FallosHasta(p, |Helpers.Chequeos|) == []
  }

  lemma CasoPredefinidoCoherente(i: nat)
    requires i < |CasosPruebaPredefinidos|
    ensures CasoCoherente(CasosPruebaPredefinidos[i])
  {
    RaizPredefinida(i);
    ValidacionPredefinida(i);
  }

  lemma RaizPredefinida(i: nat)
    requires i < |CasosPruebaPredefinidos|
    ensures var c := CasosPruebaPredefinidos[i];
            var p := c.parametros;
            c.raizEsperada == BlackjackGame.RaizAnalitica(BlackjackGame.Crear(p.valorCartas, p.objetivo))
            && p.a < c.raizEsperada < p.b && p.x0 == c.raizEsperada
  {
  }

  lemma ValidacionPredefinida(i: nat)
    requires i < |CasosPruebaPredefinidos|
    ensures Helpers.FallosHasta(CasosPruebaPredefinidos[i].parametros, |Helpers.Chequeos|) == []
  {
    Helpers.ValidacionCorrecta(CasosPruebaPredefinidos[i].parametros);
  }

  /** The automatic cases of the helpers are the predefined cases with
      shorter names: same hand, target, seed, bracket and expected root. */
  lemma CasosAutomaticosConcuerdan()
    ensures |Helpers.GenerarCasosPruebaAutomaticos()| == |CasosPruebaPredefinidos|
    ensures forall i :: 0 <= i < |CasosPruebaPredefinidos| ==>
      var a := Helpers.GenerarCasosPruebaAutomaticos()[i];
      var c := CasosPruebaPredefinidos[i];
      a.valorCartas == c.parametros.valorCartas && a.objetivo == c.parametros.objetivo
      && a.x0 == c.parametros.x0 && a.a == c.parametros.a && a.b == c.parametros.b
      && a.raizEsperada == c.raizEsperada
  {
  }
}
