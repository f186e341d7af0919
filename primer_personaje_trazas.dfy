/**
 * Runs of the PrimerPersonaje/Assets/Scripts/PacienteFSM.cs state machine:
 * frames and calls in sequence, and what every run keeps true. In this version
 * no call changes the state, so the invariants hold over every run.
 */
module PrimerPersonajeTrazas {
  import opened Escena
  import opened PrimerPersonaje

  /** What can happen to a patient: a frame, or one of the calls other agents make. */
  datatype Evento =
    | Tick(dt: real, llegado: bool)
    | AsientoAsignado(asiento: Ref)
    | ConsultaAsignada(consulta: Ref)
    | Diagnostico(requiereOperacion: bool, quirofano: Ref)
    | LlegaCelador
    | OperacionTerminada

  /** The fields after one event (the diagnosis as written, see `DiagnosticoInvertido`). */
  function Aplicar(d: Datos, e: Evento): Datos
  {
    match e
    case Tick(dt, llegado) => d.Update(dt, llegado).datos
    case AsientoAsignado(asiento) => d.RecibirAsientoAsignado(asiento)
    case ConsultaAsignada(consulta) => d.RecibirConsultaAsignada(consulta)
    case Diagnostico(requiereOperacion, quirofano) => d.RecibirDiagnostico(requiereOperacion, quirofano)
    case LlegaCelador => d.(encargos := d.encargos.(celadorLlego := true))
    case OperacionTerminada => d.(encargos := d.encargos.(operacionRealizada := true))
  }

  function Ejecutar(d: Datos, es: seq<Evento>): Datos
    decreases |es|
  {
    if es == [] then d else Ejecutar(Aplicar(d, es[0]), es[1..])
  }

  /** Only a frame moves the patient from one state to another. */
  lemma SoloElTickCambiaEstado(d: Datos, e: Evento)
    requires !e.Tick?
    ensures Aplicar(d, e).estadoActual == d.estadoActual
    ensures Aplicar(d, e).dineroDejado == d.dineroDejado
    ensures Aplicar(d, e).encargos.estaHerido == d.encargos.estaHerido
  {
  }

  /**
   * Money and state agree: none dropped while the visit is under way or being
   * abandoned, exactly one once the patient is leaving after care.
   */
  predicate PagoCoherente(d: Datos)
  {
    d.encargos.salida.Some? && d.dineroDejado <= 1 &&
    (Activo(d.estadoActual) || d.estadoActual == Abandonando ==> d.dineroDejado == 0) &&
    (d.estadoActual == Saliendo ==> d.dineroDejado == 1)
  }

  lemma AplicarPreservaPago(d: Datos, e: Evento)
    requires PagoCoherente(d)
    ensures PagoCoherente(Aplicar(d, e))
  {
  }

  /** Every run keeps money and state in agreement. */
  lemma {:induction false} PagoCoherenteEnRun(d: Datos, es: seq<Evento>)
    requires PagoCoherente(d)
    ensures PagoCoherente(Ejecutar(d, es))
    decreases |es|
  {
    if es != [] {
      AplicarPreservaPago(d, es[0]);
      PagoCoherenteEnRun(Aplicar(d, es[0]), es[1..]);
    }
  }

  lemma NuevoConPagoCoherente(estaHerido: bool, salida: Ref)
    requires salida.Some?
    ensures PagoCoherente(Nuevo(estaHerido, salida))
  {
  }

  /** Abandonando and Fin: the patient has left for good. */
  predicate HaAbandonado(d: Datos)
  {
    d.estadoActual == Abandonando || d.estadoActual == Fin
  }

  /** One event leaves an abandoning patient abandoning or at Fin, with its money. */
  lemma AplicarEnAbandono(d: Datos, e: Evento)
    requires d.estadoActual == Abandonando
    ensures HaAbandonado(Aplicar(d, e)) && Aplicar(d, e).dineroDejado == d.dineroDejado
  {
    if e.Tick? {
      HaciaLaSalida(d, e.dt, e.llegado);
    }
  }

  /** One event leaves a finished patient at Fin, with its money. */
  lemma AplicarEnFin(d: Datos, e: Evento)
    requires d.estadoActual == Fin
    ensures Aplicar(d, e).estadoActual == Fin && Aplicar(d, e).dineroDejado == d.dineroDejado
  {
  }

  /** Once abandoning, every run ends in Abandonando or Fin, dropping no money. */
  lemma {:induction false} AbandonoSinPago(d: Datos, es: seq<Evento>)
    requires d.estadoActual == Abandonando
    ensures HaAbandonado(Ejecutar(d, es))
    ensures Ejecutar(d, es).dineroDejado == d.dineroDejado
    decreases |es|
  {
    if es != [] {
      AplicarEnAbandono(d, es[0]);
      var siguiente := Aplicar(d, es[0]);
      if siguiente.estadoActual == Abandonando {
        AbandonoSinPago(siguiente, es[1..]);
      } else {
        SinCambiosEnFin(siguiente, es[1..]);
      }
    }
  }

  /** No run moves a patient out of Fin or drops more money there. */
  lemma {:induction false} SinCambiosEnFin(d: Datos, es: seq<Evento>)
    requires d.estadoActual == Fin
    ensures Ejecutar(d, es).estadoActual == Fin && Ejecutar(d, es).dineroDejado == d.dineroDejado
    decreases |es|
  {
    if es != [] {
      AplicarEnFin(d, es[0]);
      SinCambiosEnFin(Aplicar(d, es[0]), es[1..]);
    }
  }

  /** A patient who is not injured is never in EsperandoTraslado. */
  predicate TrasladoSoloHeridos(d: Datos)
  {
    d.estadoActual == EsperandoTraslado ==> d.encargos.estaHerido
  }

  lemma AplicarPreservaTraslado(d: Datos, e: Evento)
    requires TrasladoSoloHeridos(d)
    ensures TrasladoSoloHeridos(Aplicar(d, e))
    ensures Aplicar(d, e).encargos.estaHerido == d.encargos.estaHerido
  {
  }

  /** Every run keeps patients who are not injured out of EsperandoTraslado. */
  lemma {:induction false} TrasladoSoloHeridosEnRun(d: Datos, es: seq<Evento>)
    requires TrasladoSoloHeridos(d)
    ensures TrasladoSoloHeridos(Ejecutar(d, es))
    ensures Ejecutar(d, es).encargos.estaHerido == d.encargos.estaHerido
    decreases |es|
  {
    if es != [] {
      AplicarPreservaTraslado(d, es[0]);
      TrasladoSoloHeridosEnRun(Aplicar(d, es[0]), es[1..]);
    }
  }

  /** Waiting for the orderly: in EsperandoTraslado without the orderly, or gone. */
  predicate EsperaAlCelador(d: Datos)
  {
    (d.estadoActual == EsperandoTraslado && !d.encargos.celadorLlego) || HaAbandonado(d)
  }

  lemma AplicarSinCelador(d: Datos, e: Evento)
    requires EsperaAlCelador(d) && !e.LlegaCelador?
    ensures EsperaAlCelador(Aplicar(d, e))
  {
    if d.estadoActual == Abandonando {
      AplicarEnAbandono(d, e);
    }
  }

  /**
   * An injured patient waiting for transfer reaches the operating room only
   * through the orderly: a run without `CeladorHaLlegado` leaves it waiting or
   * gone.
   */
  lemma {:induction false} SinCeladorNoHayQuirofano(d: Datos, es: seq<Evento>)
    requires EsperaAlCelador(d)
    requires forall k | 0 <= k < |es| :: !es[k].LlegaCelador?
    ensures EsperaAlCelador(Ejecutar(d, es))
    decreases |es|
  {
    if es != [] {
      assert !es[0].LlegaCelador?;
      AplicarSinCelador(d, es[0]);
      assert forall k | 0 <= k < |es[1..]| :: es[1..][k] == es[k + 1];
      SinCeladorNoHayQuirofano(Aplicar(d, es[0]), es[1..]);
    }
  }

  /**
   * Waits a frame does not end: the waiting room with no room assigned, a
   * diagnosis not yet received, the orderly not yet arrived, the operation not
   * yet done.
   */
  predicate EsperaPasiva(d: Datos)
  {
    var k := d.encargos;
    (d.estadoActual == EsperandoEnSalaDeEspera && k.consultaAsignada.None?) ||
    (d.estadoActual == EsperandoDiagnostico && !k.diagnosticoAltaRecibido && !k.diagnosticoOperacionRecibido) ||
    (d.estadoActual == EsperandoTraslado && !k.celadorLlego) ||
    (d.estadoActual == SiendoOperado && !k.operacionRealizada)
  }

  /**
   * `PagoCoherente` needs an exit: with a null one, a discharged patient runs
   * `DejarDinero` on every frame before the move to the exit throws, and stays.
   */
  lemma PagoRepetidoSinSalida(d: Datos)
    requires d.estadoActual == EsperandoDiagnostico && d.encargos.diagnosticoAltaRecibido
    requires d.encargos.salida.None? && d.medidorPaciencia > 1.0
    ensures var e := Ejecutar(d, [Tick(1.0, false), Tick(1.0, false)]);
      e.estadoActual == EsperandoDiagnostico && e.dineroDejado == d.dineroDejado + 2
  {
    var d1 := Aplicar(d, Tick(1.0, false));
    assert d1.estadoActual == EsperandoDiagnostico && d1.dineroDejado == d.dineroDejado + 1;
    assert d1.encargos == d.encargos && d1.medidorPaciencia == d.medidorPaciencia - 0.5;
    assert Ejecutar(d1, [Tick(1.0, false)]) == Aplicar(d1, Tick(1.0, false));
  }

  /** n frames of dt seconds each, the mover never reporting arrival. */
  function Esperar(d: Datos, dt: real, n: nat): Datos
    decreases n
  {
    if n == 0 then d else Esperar(d, dt, n - 1).Update(dt, false).datos
  }

  /** One frame in a passive wait: decay only, or abandonment. */
  lemma TickEnEspera(d: Datos, dt: real)
    requires EsperaPasiva(d) && d.encargos.salida.Some?
    ensures var p := d.medidorPaciencia - dt * Decaimiento;
      if p > 0.0 then d.Update(dt, false).datos == d.(medidorPaciencia := p)
      else d.Update(dt, false).datos.estadoActual == Abandonando &&
           d.Update(dt, false).datos.destino == d.encargos.salida &&
           d.Update(dt, false).datos.encargos == d.encargos
  {
  }

  /** A frame in which the exit is not reached leaves a patient abandoning towards the exit as it is. */
  lemma TickAbandonandoSinLlegar(d: Datos, dt: real)
    requires d.estadoActual == Abandonando && d.destino == d.encargos.salida
    ensures d.Update(dt, false).datos == d
  {
    HaciaLaSalida(d, dt, false);
  }

  /** PacienciaLineal, with the meter given by Restante. */
  lemma {:induction false} EsperaPorRestante(d: Datos, dt: real, n: nat)
    requires EsperaPasiva(d) && d.encargos.salida.Some?
    requires dt >= 0.0 && d.medidorPaciencia > 0.0
    ensures var p := Restante(d.medidorPaciencia, dt, n);
      if p > 0.0 then Esperar(d, dt, n) == d.(medidorPaciencia := p)
      else Esperar(d, dt, n).estadoActual == Abandonando && Esperar(d, dt, n).destino == d.encargos.salida &&
           Esperar(d, dt, n).encargos == d.encargos
    decreases n
  {
    if n > 0 {
      EsperaPorRestante(d, dt, n - 1);
      var e := Esperar(d, dt, n - 1);
      if Restante(d.medidorPaciencia, dt, n - 1) > 0.0 {
        TickEnEspera(e, dt);
      } else {
        TickAbandonandoSinLlegar(e, dt);
      }
    }
  }

  /**
   * A patient in a passive wait loses dt * 0.5 per frame and nothing else
   * changes, until the meter reaches 0: from then on it is abandoning.
   */
  lemma PacienciaLineal(d: Datos, dt: real, n: nat)
    requires EsperaPasiva(d) && d.encargos.salida.Some?
    requires dt >= 0.0 && d.medidorPaciencia > 0.0
    ensures var p := d.medidorPaciencia - (n as real) * dt * Decaimiento;
      if p > 0.0 then Esperar(d, dt, n) == d.(medidorPaciencia := p)
      else Esperar(d, dt, n).estadoActual == Abandonando
  {
    RestanteLineal(d.medidorPaciencia, dt, n);
    EsperaPorRestante(d, dt, n);
  }

  /**
   * With a null exit the patient never leaves the wait: each frame only lowers
   * the meter, and once patience is exhausted the move to the exit throws.
   */
  lemma TickEnEsperaSinSalida(d: Datos, dt: real)
    requires EsperaPasiva(d) && d.encargos.salida.None?
    ensures d.Update(dt, false) ==
              Resultado(d.(medidorPaciencia := d.medidorPaciencia - dt * Decaimiento), d.Agota(dt))
  {
  }

  /** With a null exit, n frames of waiting change the meter only, however low it falls. */
  lemma {:induction false} EsperaSinSalida(d: Datos, dt: real, n: nat)
    requires EsperaPasiva(d) && d.encargos.salida.None?
    ensures Esperar(d, dt, n) == d.(medidorPaciencia := Restante(d.medidorPaciencia, dt, n))
    decreases n
  {
    if n > 0 {
      EsperaSinSalida(d, dt, n - 1);
      TickEnEsperaSinSalida(Esperar(d, dt, n - 1), dt);
    }
  }

  /** With full patience, a patient left in the waiting room abandons at the 200th one-second frame. */
  lemma AbandonaALos200Segundos(d: Datos)
    requires d.estadoActual == EsperandoEnSalaDeEspera && d.encargos.consultaAsignada.None?
    requires d.medidorPaciencia == PacienciaInicial && d.encargos.salida.Some?
    ensures Esperar(d, 1.0, 199).estadoActual == EsperandoEnSalaDeEspera
    ensures Esperar(d, 1.0, 200).estadoActual == Abandonando
  {
    PacienciaLineal(d, 1.0, 199);
    PacienciaLineal(d, 1.0, 200);
  }

  /** The first frames of a visit: queue, room assigned, walk, arrival on the stretcher. */
  function HastaElDiagnostico(): Datos
  {
    Ejecutar(Nuevo(false, Some(Objeto(9))),
             [Tick(1.0, false), ConsultaAsignada(Some(Objeto(2))), Tick(1.0, false), Tick(1.0, true)])
  }

  /** Where those frames leave the patient, 1.5 patience points down. */
  lemma HastaElDiagnosticoEs()
    ensures HastaElDiagnostico() ==
            Datos(98.5, EsperandoDiagnostico, true, false, Some(Objeto(2)), 0, false,
                  Encargos(false, None, Some(Objeto(2)), None, Some(Objeto(9)), false, false, false, false))
  {
    var d0 := Nuevo(false, Some(Objeto(9)));
    var d1 := Aplicar(d0, Tick(1.0, false));
    assert d1.estadoActual == EsperandoEnCola && d1.medidorPaciencia == 99.5;
    var d2 := Aplicar(d1, ConsultaAsignada(Some(Objeto(2))));
    var d3 := Aplicar(d2, Tick(1.0, false));
    assert d3.estadoActual == MoviendoseAConsulta && d3.medidorPaciencia == 99.0;
    var d4 := Aplicar(d3, Tick(1.0, true));
    assert Ejecutar(d3, [Tick(1.0, true)]) == d4;
  }

  /**
   * A whole visit as written: a patient who is not injured, told it may go
   * home, is sent to the operating room, and no money is dropped.
   */
  lemma AltaTerminaEnQuirofano()
    ensures HastaElDiagnostico().estadoActual == EsperandoDiagnostico
    ensures var d := HastaElDiagnostico().RecibirDiagnostico(false, Some(Objeto(3))).Update(1.0, false).datos;
      d.estadoActual == SiendoOperado && d.destino == Some(Objeto(3)) && d.dineroDejado == 0
  {
    HastaElDiagnosticoEs();
  }

  /** The same visit with the corrected diagnosis: the patient leaves, dropping money once. */
  lemma AltaTerminaEnSalida()
    ensures var d := HastaElDiagnostico().RecibirDiagnosticoCorregido(false, Some(Objeto(3))).Update(1.0, false).datos;
      d.estadoActual == Saliendo && d.destino == Some(Objeto(9)) && d.dineroDejado == 1
  {
    HastaElDiagnosticoEs();
  }
}
