/**
 * The receptionist's decision step (RecepcionistaBT.cs): pick the most impatient
 * waiting patient and choose which branch of the behaviour runs this frame.
 *
 * The receptionist's collections are never written by the code modelled here,
 * so the receptionist is a value and its entry points are methods that change
 * nothing and return the action they would take.
 */
module Recepcionista {
  import opened Escena

  /** `float.MaxValue`, the sentinel the scan starts from. */
  const FloatMaxValue: real := 340282346638528859811704183484516925440.0

  /** A patient as the receptionist sees it: identity and current patience. */
  datatype Ficha = Ficha(id: nat, medidorPaciencia: real)

  /** `listaSalaDeEspera.Contains(p)`: reference equality, here equality of identity. */
  predicate Contiene(lista: seq<Ficha>, p: Ficha)
  {
    exists k | 0 <= k < |lista| :: lista[k].id == p.id
  }

  /**
   * g is the first minimum of s below the sentinel: no patience in s is
   * smaller, and every earlier one is strictly larger.
   */
  predicate PrimerMinimo(s: seq<Ficha>, g: nat)
  {
    g < |s| && s[g].medidorPaciencia < FloatMaxValue &&
    (forall k | 0 <= k < |s| :: s[g].medidorPaciencia <= s[k].medidorPaciencia) &&
    (forall k | 0 <= k < g :: s[g].medidorPaciencia < s[k].medidorPaciencia)
  }

  /** The position a left-to-right scan keeping strictly smaller patience ends on. */
  function IndiceMasImpaciente(s: seq<Ficha>): (g: Option<nat>)
    ensures g.Some? ==> PrimerMinimo(s, g.value)
    ensures g.None? <==> forall k | 0 <= k < |s| :: s[k].medidorPaciencia >= FloatMaxValue
    decreases |s|
  {
    if |s| == 0 then None
    else
      var previo := IndiceMasImpaciente(s[..|s| - 1]);
      var minimo := if previo.Some? then s[previo.value].medidorPaciencia else FloatMaxValue;
      if s[|s| - 1].medidorPaciencia < minimo then Some(|s| - 1) else previo
  }

  /**
   * Having scanned `visto`, the scan holds r, and pacienciaMin is its
   * patience (the sentinel while r is null).
   */
  predicate Escaneo(visto: seq<Ficha>, r: Option<Ficha>, pacienciaMin: real)
  {
    var g := IndiceMasImpaciente(visto);
    (g.Some? ==> r == Some(visto[g.value]) && pacienciaMin == visto[g.value].medidorPaciencia) &&
    (g.None? ==> r.None? && pacienciaMin == FloatMaxValue)
  }

  /** One more patient scanned: the scan moves to it exactly when it is strictly less patient. */
  lemma PasoDelEscaneo(visto: seq<Ficha>, p: Ficha, r: Option<Ficha>, pacienciaMin: real)
    requires Escaneo(visto, r, pacienciaMin)
    ensures if p.medidorPaciencia < pacienciaMin
            then Escaneo(visto + [p], Some(p), p.medidorPaciencia)
            else Escaneo(visto + [p], r, pacienciaMin)
  {
    assert (visto + [p])[..|visto|] == visto;
  }

  /** One `foreach` of the scan: continues over `lista` from what was held after `visto`. */
  method RevisarLista(lista: seq<Ficha>, ghost visto: seq<Ficha>, r0: Option<Ficha>, min0: real)
    returns (r: Option<Ficha>, pacienciaMin: real)
    requires Escaneo(visto, r0, min0)
    ensures Escaneo(visto + lista, r, pacienciaMin)
  {
    r, pacienciaMin := r0, min0;
    var k := 0;
    assert visto + lista[..k] == visto;
    while k < |lista|
      invariant 0 <= k <= |lista|
      invariant Escaneo(visto + lista[..k], r, pacienciaMin)
    {
      var paciente := lista[k];
      PasoDelEscaneo(visto + lista[..k], paciente, r, pacienciaMin);
      assert visto + lista[..k + 1] == visto + lista[..k] + [paciente];
      if paciente.medidorPaciencia < pacienciaMin {
        pacienciaMin := paciente.medidorPaciencia;
        r := Some(paciente);
      }
      k := k + 1;
    }
    assert lista[..k] == lista;
  }

  /** The first minimum is unique, so it determines the scan's answer. */
  lemma PrimerMinimoUnico(s: seq<Ficha>, g1: nat, g2: nat)
    requires PrimerMinimo(s, g1) && PrimerMinimo(s, g2)
    ensures g1 == g2
  {
  }

  /** What `GestionarPrioridades` and `Update` lead to; the actions themselves are not part of this model. */
  datatype Decision =
    | MoverASalaYAsignar(paciente: Ficha)
    | AsignarConsulta(elegido: Option<Ficha>)
    | RamaMostrador            // the empty "patients at the counter" branch
    | Inactivo                 // the empty idle branch
    | ComprobarSiHemosLlegado

  datatype RecepcionistaBT = RecepcionistaBT(
    colaDeRecepcion: seq<Ficha>,
    listaSalaDeEspera: seq<Ficha>,
    listaConsultasDisponibles: seq<Objeto>,
    estaEnSuPuesto: bool)
  {
    predicate HaySalaDisponible()
    {
      |listaConsultasDisponibles| > 0
    }

    /** Someone waits: the scan has somebody to visit. */
    predicate HayPacientesEsperando()
      ensures HayPacientesEsperando() <==> |Todos()| > 0
    {
      |colaDeRecepcion| > 0 || |listaSalaDeEspera| > 0
    }

    /** Someone is at the counter; such a patient is also waiting. */
    predicate HayPacienteEnMostrador()
      ensures HayPacienteEnMostrador() ==> HayPacientesEsperando()
    {
      |colaDeRecepcion| > 0
    }

    /** Everyone the scan visits, in scan order: the queue, then the waiting room. */
    function Todos(): seq<Ficha>
    {
      colaDeRecepcion + listaSalaDeEspera
    }

    /** The patient the scan ends on, if any. */
    function Elegido(): Option<Ficha>
    {
      var g := IndiceMasImpaciente(Todos());
      if g.Some? then Some(Todos()[g.value]) else None
    }

    /**
     * The decision of one `GestionarPrioridades`: assign a room when one is
     * free and someone waits, fetching the chosen patient from the waiting room
     * if it is there; otherwise the counter branch if the queue is not empty,
     * else idle.
     */
    predicate DecisionDeGestion(d: Decision)
    {
      if HaySalaDisponible() && HayPacientesEsperando() then
        var e := Elegido();
        if e.Some? && Contiene(listaSalaDeEspera, e.value) then d == MoverASalaYAsignar(e.value)
        else d == AsignarConsulta(e)
      else if HayPacienteEnMostrador() then d == RamaMostrador
      else d == Inactivo
    }

    /** The two `foreach` scans of `PriorizarPacienteMasImpaciente`. */
    method PriorizarPacienteMasImpaciente() returns (r: Option<Ficha>)
      ensures r == Elegido()
    {
      var pacienciaMin;
      r, pacienciaMin := RevisarLista(colaDeRecepcion, [], None, FloatMaxValue);
      assert [] + colaDeRecepcion == colaDeRecepcion;
      r, pacienciaMin := RevisarLista(listaSalaDeEspera, colaDeRecepcion, r, pacienciaMin);
    }

    /**
     * The scan returns null exactly when nobody waits below the sentinel, and
     * otherwise a waiting patient no other waiting patient is less patient than.
     */
    lemma ElegidoEsMinimo()
      ensures Elegido().None? <==> forall k | 0 <= k < |Todos()| :: Todos()[k].medidorPaciencia >= FloatMaxValue
      ensures Elegido().Some? ==>
                Elegido().value in Todos() &&
                forall k | 0 <= k < |Todos()| :: Elegido().value.medidorPaciencia <= Todos()[k].medidorPaciencia
    {
    }

    /** `listaSalaDeEspera.Contains(p)`, by a scan. */
    method EnSalaDeEspera(p: Ficha) returns (b: bool)
      ensures b <==> Contiene(listaSalaDeEspera, p)
    {
      var k := 0;
      while k < |listaSalaDeEspera|
        invariant 0 <= k <= |listaSalaDeEspera|
        invariant forall m | 0 <= m < k :: listaSalaDeEspera[m].id != p.id
      {
        if listaSalaDeEspera[k].id == p.id {
          return true;
        }
        k := k + 1;
      }
      return false;
    }

    method GestionarPrioridades() returns (d: Decision)
      ensures DecisionDeGestion(d)
      ensures d.MoverASalaYAsignar? || d.AsignarConsulta? <==> HaySalaDisponible() && HayPacientesEsperando()
    {
      if HaySalaDisponible() && HayPacientesEsperando() {
        var pacientePrioritario := PriorizarPacienteMasImpaciente();
        var enSala := false;
        if pacientePrioritario.Some? {
          enSala := EnSalaDeEspera(pacientePrioritario.value);
        }
        if enSala {
          d := MoverASalaYAsignar(pacientePrioritario.value);
        } else {
          d := AsignarConsulta(pacientePrioritario);
        }
      } else if HayPacienteEnMostrador() {
        d := RamaMostrador;
      } else {
        d := Inactivo;
      }
    }

    /** One frame: decide at the post, otherwise check whether the walk is over. */
    method Update() returns (d: Decision)
      ensures estaEnSuPuesto <==> d != ComprobarSiHemosLlegado
      ensures estaEnSuPuesto ==> DecisionDeGestion(d)
    {
      if estaEnSuPuesto {
        d := GestionarPrioridades();
      } else {
        d := ComprobarSiHemosLlegado;
      }
    }
  }

  /**
   * The branch order of `GestionarPrioridades`: a room is assigned exactly when
   * one is free and someone waits; the counter branch is taken only when no room
   * is free, since a patient at the counter is also waiting; idle otherwise.
   */
  lemma RamasDeGestion(rec: RecepcionistaBT, d: Decision)
    requires rec.DecisionDeGestion(d)
    ensures (d.MoverASalaYAsignar? || d.AsignarConsulta?) <==>
              rec.HaySalaDisponible() && rec.HayPacientesEsperando()
    ensures d == RamaMostrador <==> !rec.HaySalaDisponible() && rec.HayPacienteEnMostrador()
    ensures d == Inactivo <==>
              !rec.HayPacienteEnMostrador() && !(rec.HaySalaDisponible() && rec.HayPacientesEsperando())
    ensures !d.ComprobarSiHemosLlegado?
  {
  }

  /**
   * An assignment goes to the most impatient waiting patient: one present in
   * the queue or the waiting room, with no waiting patient less patient, and,
   * when fetched from the waiting room, one that is there.
   */
  lemma AsignacionAlMasImpaciente(rec: RecepcionistaBT, d: Decision)
    requires rec.DecisionDeGestion(d)
    ensures d.MoverASalaYAsignar? ==>
              Contiene(rec.listaSalaDeEspera, d.paciente) && d.paciente in rec.Todos() &&
              forall k | 0 <= k < |rec.Todos()| :: d.paciente.medidorPaciencia <= rec.Todos()[k].medidorPaciencia
    ensures d.AsignarConsulta? && d.elegido.Some? ==>
              !Contiene(rec.listaSalaDeEspera, d.elegido.value) && d.elegido.value in rec.colaDeRecepcion &&
              forall k | 0 <= k < |rec.Todos()| :: d.elegido.value.medidorPaciencia <= rec.Todos()[k].medidorPaciencia
  {
    var g := IndiceMasImpaciente(rec.Todos());
    if g.Some? && g.value >= |rec.colaDeRecepcion| {
      assert rec.Todos()[g.value] == rec.listaSalaDeEspera[g.value - |rec.colaDeRecepcion|];
    }
  }

  /**
   * Ties go to the queue: if some queue patient is as impatient as anyone
   * waiting, the scan ends in the queue, at or before that patient.
   */
  lemma {:induction false} EmpateGanaLaCola(cola: seq<Ficha>, sala: seq<Ficha>, i: nat)
    requires i < |cola| && cola[i].medidorPaciencia < FloatMaxValue
    requires forall k | 0 <= k < |cola + sala| :: cola[i].medidorPaciencia <= (cola + sala)[k].medidorPaciencia
    ensures var g := IndiceMasImpaciente(cola + sala); g.Some? && g.value <= i
  {
    var s := cola + sala;
    assert s[i] == cola[i];
  }

  /** Nobody waiting: the scan returns null. */
  lemma SinPacientesNadieElegido(rec: RecepcionistaBT)
    requires !rec.HayPacientesEsperando()
    ensures rec.Elegido() == None
  {
    assert rec.Todos() == [];
  }

  /**
   * One room, patience 40 and 10 in the queue: the second patient is sent to
   * the consultation.
   */
  lemma EscenarioCuarentaYDiez()
    ensures RecepcionistaBT([Ficha(1, 40.0), Ficha(2, 10.0)], [], [Objeto(7)], true)
              .DecisionDeGestion(AsignarConsulta(Some(Ficha(2, 10.0))))
  {
    var rec := RecepcionistaBT([Ficha(1, 40.0), Ficha(2, 10.0)], [], [Objeto(7)], true);
    assert rec.Todos()[..1] == [Ficha(1, 40.0)];
    assert !Contiene(rec.listaSalaDeEspera, Ficha(2, 10.0));
  }

  /**
   * A tie between the queue and the waiting room goes to the queue; a waiting-room
   * patient strictly less patient is fetched from the waiting room.
   */
  lemma EscenarioEmpateYSala()
    ensures RecepcionistaBT([Ficha(1, 40.0)], [Ficha(3, 40.0)], [Objeto(7)], true)
              .DecisionDeGestion(AsignarConsulta(Some(Ficha(1, 40.0))))
    ensures RecepcionistaBT([Ficha(1, 40.0)], [Ficha(3, 5.0)], [Objeto(7)], true)
              .DecisionDeGestion(MoverASalaYAsignar(Ficha(3, 5.0)))
  {
    var empate := RecepcionistaBT([Ficha(1, 40.0)], [Ficha(3, 40.0)], [Objeto(7)], true);
    assert empate.Todos()[..1] == [Ficha(1, 40.0)];
    assert !Contiene(empate.listaSalaDeEspera, Ficha(1, 40.0));
    var sala := RecepcionistaBT([Ficha(1, 40.0)], [Ficha(3, 5.0)], [Objeto(7)], true);
    assert sala.Todos()[..1] == [Ficha(1, 40.0)];
    assert sala.listaSalaDeEspera[0].id == 3;
  }

  /** Without a free room the receptionist never assigns, whatever the queue holds. */
  lemma SinSalaNoSeAsigna(rec: RecepcionistaBT, d: Decision)
    requires !rec.HaySalaDisponible() && rec.DecisionDeGestion(d)
    ensures d == (if rec.HayPacienteEnMostrador() then RamaMostrador else Inactivo)
  {
  }
}
