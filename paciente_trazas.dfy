/**
 * Runs of the PacienteFSM.cs state machine: frames and calls in sequence, and
 * what every run keeps true.
 */
module PacienteTrazas {
  import opened Escena
  import opened Paciente

  /** What can happen to a patient: a frame, or one of the calls other agents make. */
  datatype Evento =
    | Tick(dt: real, llegado: bool)
    | AsientoAsignado(asiento: Ref)
    | ConsultaAsignada(consulta: Ref)
    | Diagnostico(requiereOperacion: bool, quirofano: Ref)
    | LlegaCelador
    | OperacionTerminada

  /** The fields after one event (a call cut short by a null reference keeps what it had written). */
  function Aplicar(d: Datos, e: Evento): Datos
  {
    match e
    case Tick(dt, llegado) => d.Update(dt, llegado).datos
    case AsientoAsignado(asiento) => d.RecibirAsientoAsignado(asiento).datos
    case ConsultaAsignada(consulta) => d.RecibirConsultaAsignada(consulta).datos
    case Diagnostico(requiereOperacion, quirofano) => d.RecibirDiagnostico(requiereOperacion, quirofano)
    case LlegaCelador => d.(encargos := d.encargos.(celadorLlego := true))
    case OperacionTerminada => d.(encargos := d.encargos.(operacionRealizada := true))
  }

  function Ejecutar(d: Datos, es: seq<Evento>): Datos
    decreases |es|
  {
    if es == [] then d else Ejecutar(Aplicar(d, es[0]), es[1..])
  }

  /** States a patient is in before reaching a consultation. */
  predicate AntesDeConsulta(e: EstadoPaciente)
  {
    e == Inicio || e == MoviendoseACola || e == EsperandoEnCola ||
    e == MoviendoseASalaDeEspera || e == EsperandoEnSalaDeEspera
  }

  /**
   * Posture follows the state: seated only in the waiting room (or leaving it
   * by abandonment), on a stretcher only once a consultation was reached.
   */
  predicate PosturaValida(d: Datos)
  {
    (d.sentado ==> !d.enCamilla &&
                   (d.estadoActual == EsperandoEnSalaDeEspera || d.estadoActual == Abandonando || d.estadoActual == Fin)) &&
    (d.enCamilla ==> !AntesDeConsulta(d.estadoActual))
  }

  lemma AplicarPreservaPostura(d: Datos, e: Evento)
    requires PosturaValida(d)
    ensures PosturaValida(Aplicar(d, e))
  {
  }

  /** On every run from a valid posture a patient is never seated and on a stretcher at once. */
  lemma {:induction false} PosturaExclusiva(d: Datos, es: seq<Evento>)
    requires PosturaValida(d)
    ensures PosturaValida(Ejecutar(d, es))
    ensures !(Ejecutar(d, es).sentado && Ejecutar(d, es).enCamilla)
    decreases |es|
  {
    if es != [] {
      AplicarPreservaPostura(d, es[0]);
      PosturaExclusiva(Aplicar(d, es[0]), es[1..]);
    }
  }

  lemma NuevoConPosturaValida(estaHerido: bool, puntoColaRecepcion: Ref, salida: Ref)
    ensures PosturaValida(Nuevo(estaHerido, puntoColaRecepcion, salida))
  {
  }

  /** A new patient with an exit starts with coherent money: none dropped. */
  lemma NuevoConPagoCoherente(estaHerido: bool, puntoColaRecepcion: Ref, salida: Ref)
    requires salida.Some?
    ensures PagoCoherente(Nuevo(estaHerido, puntoColaRecepcion, salida))
  {
  }

  /**
   * The calls the receptionist is meant to make: a consultation is handed only
   * to a patient waiting in the queue or in the waiting room.
   */
  predicate Admisible(d: Datos, e: Evento)
  {
    e.ConsultaAsignada? ==> EsperandoAsignacion(d.estadoActual)
  }

  predicate RunAdmisible(d: Datos, es: seq<Evento>)
    decreases |es|
  {
    es == [] || (Admisible(d, es[0]) && RunAdmisible(Aplicar(d, es[0]), es[1..]))
  }

  /**
   * Money and state agree: none dropped while the visit is under way or being
   * abandoned, exactly one once the patient is leaving after care.
   */
  predicate PagoCoherente(d: Datos)
  {
    d.encargos.salida.Some? && d.dineroDejado <= 1 &&
    (Activo(d.estadoActual) || d.estadoActual == Abandonando ==> d.dineroDejado == 0) &&
    (d.estadoActual == Saliendo ==> d.dineroDejado == 1)
  }

  lemma AplicarPreservaPago(d: Datos, e: Evento)
    requires PagoCoherente(d) && Admisible(d, e)
    ensures PagoCoherente(Aplicar(d, e))
  {
  }

  /** Every admissible run keeps money and state in agreement. */
  lemma {:induction false} PagoCoherenteEnRun(d: Datos, es: seq<Evento>)
    requires PagoCoherente(d) && RunAdmisible(d, es)
    ensures PagoCoherente(Ejecutar(d, es))
    decreases |es|
  {
    if es != [] {
      AplicarPreservaPago(d, es[0]);
      PagoCoherenteEnRun(Aplicar(d, es[0]), es[1..]);
    }
  }

  /** A patient who abandons only ever reaches Fin from there, and drops no money on the way. */
  lemma {:induction false} AbandonoSinPago(d: Datos, es: seq<Evento>)
    requires d.estadoActual == Abandonando && RunAdmisible(d, es)
    ensures Ejecutar(d, es).estadoActual == Abandonando || Ejecutar(d, es).estadoActual == Fin
    ensures Ejecutar(d, es).dineroDejado == d.dineroDejado
    decreases |es|
  {
    if es != [] {
      var siguiente := Aplicar(d, es[0]);
      if siguiente.estadoActual == Abandonando {
        AbandonoSinPago(siguiente, es[1..]);
      } else {
        SinCambiosEnFin(siguiente, es[1..]);
      }
    }
  }

  /** A patient leaving after care only ever reaches Fin from there, and drops no further money. */
  lemma {:induction false} SalidaSinMasPagos(d: Datos, es: seq<Evento>)
    requires d.estadoActual == Saliendo && RunAdmisible(d, es)
    ensures Ejecutar(d, es).estadoActual == Saliendo || Ejecutar(d, es).estadoActual == Fin
    ensures Ejecutar(d, es).dineroDejado == d.dineroDejado
    decreases |es|
  {
    if es != [] {
      var siguiente := Aplicar(d, es[0]);
      if siguiente.estadoActual == Saliendo {
        SalidaSinMasPagos(siguiente, es[1..]);
      } else {
        SinCambiosEnFin(siguiente, es[1..]);
      }
    }
  }

  /** In Fin no admissible event moves the patient or drops money. */
  lemma {:induction false} SinCambiosEnFin(d: Datos, es: seq<Evento>)
    requires d.estadoActual == Fin && RunAdmisible(d, es)
    ensures Ejecutar(d, es).estadoActual == Fin && Ejecutar(d, es).dineroDejado == d.dineroDejado
    decreases |es|
  {
    if es != [] {
      SinCambiosEnFin(Aplicar(d, es[0]), es[1..]);
    }
  }

  /** Only an injured patient waits for the orderly. */
  predicate TrasladoSoloHeridos(d: Datos)
  {
    d.estadoActual == EsperandoTraslado ==> d.encargos.estaHerido
  }

  lemma AplicarPreservaTraslado(d: Datos, e: Evento)
    requires TrasladoSoloHeridos(d)
    ensures TrasladoSoloHeridos(Aplicar(d, e))
    ensures Aplicar(d, e).encargos.estaHerido == d.encargos.estaHerido
  {
  }

  /** Every run, admissible or not, keeps patients who are not injured out of EsperandoTraslado. */
  lemma {:induction false} TrasladoSoloHeridosEnRun(d: Datos, es: seq<Evento>)
    requires TrasladoSoloHeridos(d)
    ensures TrasladoSoloHeridos(Ejecutar(d, es))
    ensures Ejecutar(d, es).encargos.estaHerido == d.encargos.estaHerido
    decreases |es|
  {
    if es != [] {
      AplicarPreservaTraslado(d, es[0]);
      TrasladoSoloHeridosEnRun(Aplicar(d, es[0]), es[1..]);
    }
  }

  /**
   * Outside the admissible runs Abandonando is not final: a consultation handed
   * to an abandoning (or finished) patient puts it back in an active state.
   */
  lemma ConsultaReactivaAbandono(d: Datos, consulta: Ref)
    requires d.estadoActual == Abandonando || d.estadoActual == Fin
    ensures Aplicar(d, ConsultaAsignada(consulta)).estadoActual == MoviendoseAConsulta
    ensures Activo(Aplicar(d, ConsultaAsignada(consulta)).estadoActual)
    ensures Aplicar(d, ConsultaAsignada(consulta)).encargos.consultaAsignada == d.encargos.consultaAsignada
  {
  }

  /**
   * `PagoCoherente` needs an exit: with a null one, a discharged patient runs
   * `DejarDinero` on every frame before the move to the exit throws, and stays.
   */
  lemma PagoRepetidoSinSalida(d: Datos)
    requires d.estadoActual == EsperandoDiagnostico && d.encargos.diagnosticoAltaRecibido
    requires d.encargos.salida.None? && d.medidorPaciencia > 1.0
    ensures RunAdmisible(d, [Tick(1.0, false), Tick(1.0, false)])
    ensures var e := Ejecutar(d, [Tick(1.0, false), Tick(1.0, false)]);
      e.estadoActual == EsperandoDiagnostico && e.dineroDejado == d.dineroDejado + 2
  {
    var d1 := Aplicar(d, Tick(1.0, false));
    assert d1.estadoActual == EsperandoDiagnostico && d1.dineroDejado == d.dineroDejado + 1;
    assert d1.encargos == d.encargos && d1.medidorPaciencia == d.medidorPaciencia - 0.5;
    assert Ejecutar(d1, [Tick(1.0, false)]) == Aplicar(d1, Tick(1.0, false));
  }

  /** n frames of dt seconds each, the mover never reporting arrival. */
  function Esperar(d: Datos, dt: real, n: nat): Datos
    decreases n
  {
    if n == 0 then d else Esperar(d, dt, n - 1).Update(dt, false).datos
  }

  /**
   * A patient left waiting in the queue or the waiting room loses dt * 0.5 per
   * frame and nothing else changes, until the meter reaches 0: from then on it
   * is abandoning.
   */
  lemma PacienciaLineal(d: Datos, dt: real, n: nat)
    requires EsperandoAsignacion(d.estadoActual) && d.encargos.salida.Some?
    requires dt >= 0.0 && d.medidorPaciencia > 0.0
    ensures var p := d.medidorPaciencia - (n as real) * dt * Decaimiento;
      if p > 0.0 then Esperar(d, dt, n) == d.(medidorPaciencia := p)
      else Esperar(d, dt, n).estadoActual == Abandonando
  {
    RestanteLineal(d.medidorPaciencia, dt, n);
    EsperaPorRestante(d, dt, n);
  }

  /** PacienciaLineal, with the meter given by Restante. */
  lemma {:induction false} EsperaPorRestante(d: Datos, dt: real, n: nat)
    requires EsperandoAsignacion(d.estadoActual) && d.encargos.salida.Some?
    requires dt >= 0.0 && d.medidorPaciencia > 0.0
    ensures var p := Restante(d.medidorPaciencia, dt, n);
      if p > 0.0 then Esperar(d, dt, n) == d.(medidorPaciencia := p)
      else Esperar(d, dt, n).estadoActual == Abandonando
    decreases n
  {
    if n > 0 {
      EsperaPorRestante(d, dt, n - 1);
      var e := Esperar(d, dt, n - 1);
      if Restante(d.medidorPaciencia, dt, n - 1) > 0.0 {
        TickEnEspera(e, dt);
      } else {
        TickAbandonandoSinLlegar(e, dt);
      }
    }
  }

  /** One frame in a waiting state with no arrival: decay only, or abandonment. */
  lemma TickEnEspera(d: Datos, dt: real)
    requires EsperandoAsignacion(d.estadoActual) && d.encargos.salida.Some?
    ensures var p := d.medidorPaciencia - dt * Decaimiento;
      if p > 0.0 then d.Update(dt, false).datos == d.(medidorPaciencia := p)
      else d.Update(dt, false).datos.estadoActual == Abandonando
  {
    if !d.Agota(dt) {
      EsperasPasivas(d, dt, false);
    }
  }

  /** A frame in which the exit is not reached leaves an abandoning patient as it is. */
  lemma TickAbandonandoSinLlegar(d: Datos, dt: real)
    requires d.estadoActual == Abandonando
    ensures d.Update(dt, false).datos == d
  {
    SalidaSoloHaciaFin(d, dt, false);
  }

  /**
   * With a null exit the patient never leaves the wait: each frame only lowers
   * the meter, and once patience is exhausted the move to the exit throws.
   */
  lemma TickEnEsperaSinSalida(d: Datos, dt: real)
    requires EsperandoAsignacion(d.estadoActual) && d.encargos.salida.None?
    ensures d.Update(dt, false) ==
              Resultado(d.(medidorPaciencia := d.medidorPaciencia - dt * Decaimiento), d.Agota(dt))
  {
  }

  /** With a null exit, n frames of waiting change the meter only, however low it falls. */
  lemma {:induction false} EsperaSinSalida(d: Datos, dt: real, n: nat)
    requires EsperandoAsignacion(d.estadoActual) && d.encargos.salida.None?
    ensures Esperar(d, dt, n) == d.(medidorPaciencia := Restante(d.medidorPaciencia, dt, n))
    decreases n
  {
    if n > 0 {
      EsperaSinSalida(d, dt, n - 1);
      TickEnEsperaSinSalida(Esperar(d, dt, n - 1), dt);
    }
  }

  /**
   * Patience 100 and decay 0.5 per second: still in the queue after 199 one-second
   * frames, abandoning from the 200th on, and so after 210 seconds.
   */
  lemma AbandonaALos200Segundos(d: Datos)
    requires d.estadoActual == EsperandoEnCola && d.medidorPaciencia == PacienciaInicial
    requires d.encargos.salida.Some?
    ensures Esperar(d, 1.0, 199).estadoActual == EsperandoEnCola
    ensures Esperar(d, 1.0, 200).estadoActual == Abandonando
    ensures Esperar(d, 1.0, 210).estadoActual == Abandonando
  {
    PacienciaLineal(d, 1.0, 199);
    PacienciaLineal(d, 1.0, 200);
    PacienciaLineal(d, 1.0, 210);
  }
}
