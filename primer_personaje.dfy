/**
 * The patient state machine of PrimerPersonaje/Assets/Scripts/PacienteFSM.cs:
 * the 10-state version, in which a tick (not the receptionist's call) moves a
 * patient out of the queue, and the event methods only store what they are given.
 *
 * As in module Paciente, `Datos` holds the fields as a value with the
 * specification of each entry point, and class `PacienteFSM` updates them in place.
 */
module PrimerPersonaje {
  import opened Escena

  datatype EstadoPaciente =
    | Inicio
    | EsperandoEnCola
    | EsperandoEnSalaDeEspera
    | MoviendoseAConsulta
    | EsperandoDiagnostico
    | EsperandoTraslado
    | SiendoOperado
    | Saliendo
    | Abandonando
    | Fin

  /** States in which the patience meter decays and can force abandonment. */
  predicate Activo(e: EstadoPaciente)
  {
    e != Saliendo && e != Abandonando && e != Fin
  }

  /** States of the switch up to reaching the consultation. */
  predicate EnLlegada(e: EstadoPaciente)
  {
    e == Inicio || e == EsperandoEnCola || e == EsperandoEnSalaDeEspera || e == MoviendoseAConsulta
  }

  /** States of the switch from the consultation to the end of the operation. */
  predicate EnAtencion(e: EstadoPaciente)
  {
    e == EsperandoDiagnostico || e == EsperandoTraslado || e == SiendoOperado
  }

  /** The fields after a call, and whether the call stopped at a null reference. */
  datatype Resultado = Resultado(datos: Datos, excepcion: bool)

  /** The fields that only the scene and the events write: references and notices. */
  datatype Encargos = Encargos(
    estaHerido: bool,
    asientoAsignado: Ref,
    consultaAsignada: Ref,
    quirofanoAsignado: Ref,
    salida: Ref,
    diagnosticoOperacionRecibido: bool,
    diagnosticoAltaRecibido: bool,
    operacionRealizada: bool,
    celadorLlego: bool)

  datatype Datos = Datos(
    medidorPaciencia: real,
    estadoActual: EstadoPaciente,
    enCamilla: bool,
    sentado: bool,
    destino: Ref,        // last target handed to the mover
    dineroDejado: nat,   // how many times DejarDinero ran
    destruido: bool,     // AbandonarHospital (Destroy) has run
    encargos: Encargos)
  {
    predicate PacienciaAgotada()
    {
      medidorPaciencia <= 0.0
    }

    /** `MoverAPosicion(objetivo.transform.position)`: a null objetivo throws before anything moves. */
    function MoverAPosicion(objetivo: Ref): (r: Resultado)
      ensures r.excepcion <==> objetivo.None?
      ensures r.datos.destino == (if objetivo.Some? then objetivo else destino)
      ensures r.datos.(destino := destino) == this
    {
      if objetivo.None? then Resultado(this, true) else Resultado(this.(destino := objetivo), false)
    }

    /** `MoverAPosicion(objetivo…)`, then `Transicionar(e)`. */
    function MoverYTransicionar(objetivo: Ref, e: EstadoPaciente): Resultado
    {
      if objetivo.None? then Resultado(this, true)
      else Resultado(this.(destino := objetivo, estadoActual := e), false)
    }

    /** The fields once the meter has decayed for dt seconds. */
    function TrasDecaer(dt: real): Datos
    {
      if Activo(estadoActual) then this.(medidorPaciencia := medidorPaciencia - dt * Decaimiento) else this
    }

    /** This tick runs the patience out. */
    predicate Agota(dt: real)
    {
      Activo(estadoActual) && TrasDecaer(dt).PacienciaAgotada()
    }

    /** One frame of `Update`, the mover reporting `llegado` for the destination it is asked about. */
    function Update(dt: real, llegado: bool): (r: Resultado)
      // the meter decays by dt * 0.5 exactly in the active states
      ensures r.datos.medidorPaciencia ==
                if Activo(estadoActual) then medidorPaciencia - dt * Decaimiento else medidorPaciencia
      // running out of patience sends the patient to the exit and returns before the switch
      ensures Agota(dt) ==>
                r.excepcion == encargos.salida.None? &&
                r.datos.estadoActual == (if encargos.salida.Some? then Abandonando else estadoActual) &&
                r.datos.destino == (if encargos.salida.Some? then encargos.salida else destino) &&
                r.datos.(medidorPaciencia := medidorPaciencia, destino := destino, estadoActual := estadoActual) == this
      // references and event flags are never written by a tick
      ensures r.datos.encargos == encargos
      // Fin has no case: nothing changes
      ensures estadoActual == Fin ==> r == Resultado(this, false)
    {
      if Agota(dt) then TrasDecaer(dt).MoverYTransicionar(encargos.salida, Abandonando)
      else TrasDecaer(dt).Despachar(llegado)
    }

    /** The `switch (estadoActual)` of `Update`. */
    function Despachar(llegado: bool): (r: Resultado)
      // the switch never touches the meter, the references or the notices
      ensures r.datos.medidorPaciencia == medidorPaciencia && r.datos.encargos == encargos
      // at most one coin, and only on the way out after care
      ensures r.datos.dineroDejado == dineroDejado ||
              (r.datos.dineroDejado == dineroDejado + 1 &&
               (estadoActual == EsperandoDiagnostico || estadoActual == SiendoOperado))
      // the patient is destroyed only on reaching Fin from the two exit states
      ensures r.datos.destruido != destruido ==>
                r.datos.estadoActual == Fin && (estadoActual == Saliendo || estadoActual == Abandonando)
      // Fin has no case: nothing changes
      ensures estadoActual == Fin ==> r == Resultado(this, false)
    {
      var sin := Resultado(this, false);
      match estadoActual
      case Inicio => Resultado(this.(estadoActual := EsperandoEnCola), false)
      case EsperandoEnCola =>
        if encargos.consultaAsignada.Some?
        then MoverYTransicionar(encargos.consultaAsignada, MoviendoseAConsulta)
        else MoverYTransicionar(encargos.asientoAsignado, EsperandoEnSalaDeEspera)
      case EsperandoEnSalaDeEspera =>
        if encargos.consultaAsignada.Some?
        then MoverYTransicionar(encargos.consultaAsignada, MoviendoseAConsulta)
        else sin
      case MoviendoseAConsulta =>
        var movido := MoverAPosicion(encargos.consultaAsignada);
        if movido.excepcion then movido
        else if HaLlegadoADestino(encargos.consultaAsignada, llegado)
        then Resultado(movido.datos.(enCamilla := true, estadoActual := EsperandoDiagnostico), false)
        else movido
      case EsperandoDiagnostico =>
        if encargos.diagnosticoAltaRecibido then
          this.(dineroDejado := dineroDejado + 1).MoverYTransicionar(encargos.salida, Saliendo)
        else if encargos.diagnosticoOperacionRecibido then
          if encargos.estaHerido then Resultado(this.(estadoActual := EsperandoTraslado), false)
          else MoverYTransicionar(encargos.quirofanoAsignado, SiendoOperado)
        else sin
      case EsperandoTraslado =>
        if encargos.celadorLlego then MoverYTransicionar(encargos.quirofanoAsignado, SiendoOperado)
        else sin
      case SiendoOperado =>
        if encargos.operacionRealizada then
          this.(dineroDejado := dineroDejado + 1).MoverYTransicionar(encargos.salida, Saliendo)
        else sin
      case Saliendo =>
        if HaLlegadoADestino(encargos.salida, llegado)
        then Resultado(this.(destruido := true, estadoActual := Fin), false)
        else MoverAPosicion(encargos.salida)
      case Abandonando =>
        if HaLlegadoADestino(encargos.salida, llegado)
        then Resultado(this.(destruido := true, estadoActual := Fin), false)
        else MoverAPosicion(encargos.salida)
      case Fin => sin
    }

    /** `RecibirConsultaAsignada(consulta)`: stores the room and clears the diagnosis, in any state. */
    function RecibirConsultaAsignada(consulta: Ref): (r: Datos)
      ensures r.encargos.consultaAsignada == consulta
      ensures !r.encargos.diagnosticoOperacionRecibido && !r.encargos.diagnosticoAltaRecibido
      ensures r.encargos.(consultaAsignada := encargos.consultaAsignada,
                          diagnosticoOperacionRecibido := encargos.diagnosticoOperacionRecibido,
                          diagnosticoAltaRecibido := encargos.diagnosticoAltaRecibido) == encargos
      ensures r.(encargos := encargos) == this
    {
      this.(encargos := encargos.(consultaAsignada := consulta, diagnosticoOperacionRecibido := false,
                                  diagnosticoAltaRecibido := false))
    }

    /** `RecibirAsientoAsignado(asiento)`: stores the seat, in any state. */
    function RecibirAsientoAsignado(asiento: Ref): (r: Datos)
      ensures r.encargos.asientoAsignado == asiento
      ensures r.encargos.(asientoAsignado := encargos.asientoAsignado) == encargos
      ensures r.(encargos := encargos) == this
    {
      this.(encargos := encargos.(asientoAsignado := asiento))
    }

    /**
     * `RecibirDiagnostico(requiereOperacion, quirofano)` as written: the
     * operation flag is assigned twice, so it ends up as the negation of
     * `requiereOperacion`, and the discharge flag is never written.
     */
    function RecibirDiagnostico(requiereOperacion: bool, quirofano: Ref): (r: Datos)
      ensures r.encargos.diagnosticoOperacionRecibido == !requiereOperacion
      ensures r.encargos.diagnosticoAltaRecibido == encargos.diagnosticoAltaRecibido
      ensures r.encargos.quirofanoAsignado == quirofano
      ensures r.encargos.(diagnosticoOperacionRecibido := encargos.diagnosticoOperacionRecibido,
                          quirofanoAsignado := encargos.quirofanoAsignado) == encargos
      ensures r.(encargos := encargos) == this
    {
      var primero := encargos.(diagnosticoOperacionRecibido := requiereOperacion);
      var segundo := primero.(diagnosticoOperacionRecibido := !requiereOperacion);
      this.(encargos := segundo.(quirofanoAsignado := quirofano))
    }

    /**
     * `RecibirDiagnostico` as the other version of the class writes it: the
     * second assignment goes to the discharge flag.
     */
    function RecibirDiagnosticoCorregido(requiereOperacion: bool, quirofano: Ref): (r: Datos)
      ensures r.encargos.diagnosticoOperacionRecibido != r.encargos.diagnosticoAltaRecibido
      ensures r.encargos.diagnosticoOperacionRecibido == requiereOperacion
      ensures r.encargos.quirofanoAsignado == quirofano
      ensures r.encargos.(diagnosticoOperacionRecibido := encargos.diagnosticoOperacionRecibido,
                          diagnosticoAltaRecibido := encargos.diagnosticoAltaRecibido,
                          quirofanoAsignado := encargos.quirofanoAsignado) == encargos
      ensures r.(encargos := encargos) == this
    {
      this.(encargos := encargos.(diagnosticoOperacionRecibido := requiereOperacion,
                                  diagnosticoAltaRecibido := !requiereOperacion, quirofanoAsignado := quirofano))
    }
  }

  /** Running out of patience is the only way a frame enters Abandonando. */
  lemma AbandonoSoloPorPaciencia(d: Datos, dt: real, llegado: bool)
    ensures d.Update(dt, llegado).datos.estadoActual == Abandonando ==> d.estadoActual == Abandonando || d.Agota(dt)
  {
  }

  /**
   * A frame drops money at most once, and only leaving EsperandoDiagnostico or
   * SiendoOperado for Saliendo (or stopping at a null exit on the way).
   */
  lemma PagoSoloAlSalir(d: Datos, dt: real, llegado: bool)
    ensures var r := d.Update(dt, llegado);
      r.datos.dineroDejado != d.dineroDejado ==>
        r.datos.dineroDejado == d.dineroDejado + 1 && !d.Agota(dt) &&
        (d.estadoActual == EsperandoDiagnostico || d.estadoActual == SiendoOperado) &&
        (r.datos.estadoActual == Saliendo || (r.excepcion && d.encargos.salida.None?))
  {
    if !d.Agota(dt) && (d.estadoActual == EsperandoDiagnostico || d.estadoActual == SiendoOperado) {
      assert d.TrasDecaer(dt).estadoActual == d.estadoActual;
    }
  }

  /** A frame destroys the patient only on reaching Fin from Saliendo or Abandonando. */
  lemma DestruccionSoloEnFin(d: Datos, dt: real, llegado: bool)
    ensures var r := d.Update(dt, llegado);
      r.datos.destruido != d.destruido ==>
        r.datos.estadoActual == Fin && (d.estadoActual == Saliendo || d.estadoActual == Abandonando)
  {
    if !d.Agota(dt) && (d.estadoActual == Saliendo || d.estadoActual == Abandonando) {
      assert d.TrasDecaer(dt) == d;
    }
  }

  /**
   * A frame enters Fin only from Saliendo or Abandonando, and only when the
   * mover reports arrival at a non-null exit; the patient is then destroyed.
   */
  lemma FinSoloDesdeSalida(d: Datos, dt: real, llegado: bool)
    ensures var r := d.Update(dt, llegado);
      r.datos.estadoActual == Fin ==>
        d.estadoActual == Saliendo || d.estadoActual == Abandonando || d.estadoActual == Fin
    ensures var r := d.Update(dt, llegado);
      r.datos.estadoActual == Fin && d.estadoActual != Fin ==>
        llegado && d.encargos.salida.Some? && r.datos.destruido
  {
    if !d.Agota(dt) && (d.estadoActual == Saliendo || d.estadoActual == Abandonando) {
      assert d.TrasDecaer(dt) == d;
    }
  }

  /** A patient as the scene creates it: inspector references set, everything else at its default. */
  function Nuevo(estaHerido: bool, salida: Ref): (d: Datos)
    ensures d.estadoActual == Inicio && d.medidorPaciencia == PacienciaInicial
    ensures !d.sentado && !d.enCamilla && d.dineroDejado == 0 && !d.destruido
    ensures d.encargos.salida == salida && d.encargos.estaHerido == estaHerido
  {
    Datos(PacienciaInicial, Inicio, false, false, None, 0, false,
          Encargos(estaHerido, None, None, None, salida, false, false, false, false))
  }

  /** Inicio goes to EsperandoEnCola unconditionally. */
  lemma InicioACola(d: Datos, dt: real, llegado: bool)
    requires d.estadoActual == Inicio && !d.Agota(dt)
    ensures d.Update(dt, llegado) == Resultado(d.TrasDecaer(dt).(estadoActual := EsperandoEnCola), false)
  {
  }

  /**
   * EsperandoEnCola is left on the first tick that does not abandon: for the
   * consultation if a room is assigned, else for the waiting room. With neither
   * a room nor a seat the seat's null reference throws and the patient stays.
   */
  lemma SalidaDeLaCola(d: Datos, dt: real, llegado: bool)
    requires d.estadoActual == EsperandoEnCola && !d.Agota(dt)
    ensures var r, k := d.Update(dt, llegado), d.encargos;
      (k.consultaAsignada.Some? ==>
         r == Resultado(d.TrasDecaer(dt).(destino := k.consultaAsignada, estadoActual := MoviendoseAConsulta), false)) &&
      (k.consultaAsignada.None? && k.asientoAsignado.Some? ==>
         r == Resultado(d.TrasDecaer(dt).(destino := k.asientoAsignado, estadoActual := EsperandoEnSalaDeEspera), false)) &&
      (k.consultaAsignada.None? && k.asientoAsignado.None? ==> r == Resultado(d.TrasDecaer(dt), true))
  {
  }

  /** EsperandoEnSalaDeEspera is left only for MoviendoseAConsulta, and only once a room is assigned. */
  lemma SalaDeEsperaSoloAConsulta(d: Datos, dt: real, llegado: bool)
    requires d.estadoActual == EsperandoEnSalaDeEspera && !d.Agota(dt)
    ensures var r := d.Update(dt, llegado);
      !r.excepcion &&
      (r.datos.estadoActual != EsperandoEnSalaDeEspera <==> d.encargos.consultaAsignada.Some?) &&
      (r.datos.estadoActual == EsperandoEnSalaDeEspera || r.datos.estadoActual == MoviendoseAConsulta) &&
      (d.encargos.consultaAsignada.None? ==> r.datos == d.TrasDecaer(dt))
  {
  }

  /**
   * MoviendoseAConsulta re-issues the move to the room on every tick and
   * reaches EsperandoDiagnostico, on a stretcher, on arrival; with no room
   * the move throws on every tick.
   */
  lemma HaciaLaConsulta(d: Datos, dt: real, llegado: bool)
    requires d.estadoActual == MoviendoseAConsulta && !d.Agota(dt)
    ensures var r := d.Update(dt, llegado);
      (d.encargos.consultaAsignada.Some? ==>
         !r.excepcion && r.datos.destino == d.encargos.consultaAsignada &&
         r.datos.estadoActual == (if llegado then EsperandoDiagnostico else MoviendoseAConsulta) &&
         r.datos.enCamilla == (llegado || d.enCamilla)) &&
      (d.encargos.consultaAsignada.None? ==> r == Resultado(d.TrasDecaer(dt), true))
  {
  }

  /**
   * In EsperandoDiagnostico the discharge flag wins; with the operation flag a
   * patient who is not injured goes straight to SiendoOperado, never through
   * EsperandoTraslado, and an injured one waits in EsperandoTraslado.
   */
  lemma EsperandoDiagnosticoRamas(d: Datos, dt: real, llegado: bool)
    requires d.estadoActual == EsperandoDiagnostico && !d.Agota(dt)
    ensures var r, k := d.Update(dt, llegado), d.encargos;
      (k.diagnosticoAltaRecibido ==>
         r.datos.dineroDejado == d.dineroDejado + 1 && r.excepcion == k.salida.None? &&
         r.datos.estadoActual == (if k.salida.Some? then Saliendo else EsperandoDiagnostico) &&
         r.datos.destino == (if k.salida.Some? then k.salida else d.destino)) &&
      (!k.diagnosticoAltaRecibido && k.diagnosticoOperacionRecibido && k.estaHerido ==>
         r == Resultado(d.TrasDecaer(dt).(estadoActual := EsperandoTraslado), false)) &&
      (!k.diagnosticoAltaRecibido && k.diagnosticoOperacionRecibido && !k.estaHerido ==>
         r.datos.estadoActual != EsperandoTraslado && r.datos.dineroDejado == d.dineroDejado &&
         r.datos.estadoActual == (if k.quirofanoAsignado.Some? then SiendoOperado else EsperandoDiagnostico) &&
         r.excepcion == k.quirofanoAsignado.None? &&
         r.datos.destino == (if k.quirofanoAsignado.Some? then k.quirofanoAsignado else d.destino)) &&
      (!k.diagnosticoAltaRecibido && !k.diagnosticoOperacionRecibido ==> r == Resultado(d.TrasDecaer(dt), false))
  {
  }

  /**
   * EsperandoTraslado waits for the orderly, and with a null operating room it
   * throws and stays once the orderly has arrived; SiendoOperado drops money
   * exactly when the operation is done, and leaves for Saliendo then unless the
   * exit is null, in which case the frame throws and the patient stays,
   * dropping a coin every frame.
   */
  lemma EsperasDeQuirofano(d: Datos, dt: real, llegado: bool)
    requires !d.Agota(dt)
    ensures var r, k := d.Update(dt, llegado), d.encargos;
      (d.estadoActual == EsperandoTraslado ==>
         (k.quirofanoAsignado.Some? ==> (r.datos.estadoActual == SiendoOperado <==> k.celadorLlego)) &&
         (k.celadorLlego && k.quirofanoAsignado.Some? ==> r.datos.destino == k.quirofanoAsignado && !r.excepcion) &&
         (k.celadorLlego && k.quirofanoAsignado.None? ==> r == Resultado(d.TrasDecaer(dt), true)) &&
         (!k.celadorLlego ==> r == Resultado(d.TrasDecaer(dt), false))) &&
      (d.estadoActual == SiendoOperado ==>
         (r.datos.dineroDejado == d.dineroDejado + 1 <==> k.operacionRealizada) &&
         (k.salida.Some? ==> (r.datos.estadoActual == Saliendo <==> k.operacionRealizada)) &&
         (k.operacionRealizada && k.salida.Some? ==> r.datos.destino == k.salida && !r.excepcion) &&
         (k.operacionRealizada && k.salida.None? ==>
            r == Resultado(d.TrasDecaer(dt).(dineroDejado := d.dineroDejado + 1), true)) &&
         (!k.operacionRealizada ==> r == Resultado(d.TrasDecaer(dt), false)))
  {
  }

  /**
   * Saliendo and Abandonando reach Fin (destroying the patient) on arrival;
   * otherwise they stay put and re-issue the move to the exit.
   */
  lemma HaciaLaSalida(d: Datos, dt: real, llegado: bool)
    requires d.estadoActual == Saliendo || d.estadoActual == Abandonando
    ensures var r, salida := d.Update(dt, llegado), d.encargos.salida;
      (HaLlegadoADestino(salida, llegado) ==> r == Resultado(d.(destruido := true, estadoActual := Fin), false)) &&
      (!HaLlegadoADestino(salida, llegado) ==>
         r.datos.estadoActual == d.estadoActual && r.excepcion == salida.None? &&
         r.datos == (if salida.Some? then d.(destino := salida) else d))
  {
  }

  /**
   * The diagnosis as written routes patients the wrong way: after a fresh
   * consultation, a patient told an operation is required waits forever, and
   * one told to go home is sent to be operated on, paying nothing.
   */
  lemma DiagnosticoInvertido(d: Datos, requiereOperacion: bool, quirofano: Ref, dt: real, llegado: bool)
    requires d.estadoActual == EsperandoDiagnostico && !d.encargos.diagnosticoAltaRecibido
    requires quirofano.Some?
    requires !d.RecibirDiagnostico(requiereOperacion, quirofano).Agota(dt)
    ensures var r := d.RecibirDiagnostico(requiereOperacion, quirofano).Update(dt, llegado);
      (requiereOperacion ==> r.datos.estadoActual == EsperandoDiagnostico) &&
      (!requiereOperacion ==>
         r.datos.estadoActual == (if d.encargos.estaHerido then EsperandoTraslado else SiendoOperado) &&
         r.datos.dineroDejado == d.dineroDejado)
  {
  }

  /**
   * With the corrected diagnosis the next tick follows it: an operation
   * sends the patient towards the operating room, a discharge to the exit with
   * money dropped.
   */
  lemma DiagnosticoCorregidoEncamina(d: Datos, requiereOperacion: bool, quirofano: Ref, dt: real, llegado: bool)
    requires d.estadoActual == EsperandoDiagnostico && d.encargos.salida.Some? && quirofano.Some?
    requires !d.RecibirDiagnosticoCorregido(requiereOperacion, quirofano).Agota(dt)
    ensures var r := d.RecibirDiagnosticoCorregido(requiereOperacion, quirofano).Update(dt, llegado);
      (requiereOperacion ==>
         r.datos.estadoActual == (if d.encargos.estaHerido then EsperandoTraslado else SiendoOperado) &&
         r.datos.dineroDejado == d.dineroDejado) &&
      (!requiereOperacion ==> r.datos.estadoActual == Saliendo && r.datos.dineroDejado == d.dineroDejado + 1)
  {
  }

  /** The object the scene updates in place. */
  class PacienteFSM {
    var medidorPaciencia: real
    var estaHerido: bool
    var enCamilla: bool
    var sentado: bool
    var estadoActual: EstadoPaciente
    var asientoAsignado: Ref
    var consultaAsignada: Ref
    var quirofanoAsignado: Ref
    var salida: Ref
    var diagnosticoOperacionRecibido: bool
    var diagnosticoAltaRecibido: bool
    var operacionRealizada: bool
    var celadorLlego: bool
    var destino: Ref
    var dineroDejado: nat
    var destruido: bool

    /** The object's fields as a value. */
    function Vista(): Datos
      reads this
    {
      Datos(medidorPaciencia, estadoActual, enCamilla, sentado, destino, dineroDejado, destruido,
            Encargos(estaHerido, asientoAsignado, consultaAsignada, quirofanoAsignado, salida,
                     diagnosticoOperacionRecibido, diagnosticoAltaRecibido, operacionRealizada, celadorLlego))
    }

    constructor (herido: bool, puntoSalida: Ref)
      ensures Vista() == Nuevo(herido, puntoSalida)
    {
      medidorPaciencia := PacienciaInicial;
      estaHerido := herido;
      enCamilla, sentado := false, false;
      estadoActual := Inicio;
      asientoAsignado, consultaAsignada, quirofanoAsignado := None, None, None;
      salida := puntoSalida;
      diagnosticoOperacionRecibido, diagnosticoAltaRecibido := false, false;
      operacionRealizada, celadorLlego := false, false;
      destino := None;
      dineroDejado := 0;
      destruido := false;
    }

    predicate PacienciaAgotada()
      reads this
      ensures PacienciaAgotada() <==> medidorPaciencia <= 0.0
    {
      Vista().PacienciaAgotada()
    }

    predicate ConsultaAsignada()
      reads this
      ensures ConsultaAsignada() <==> Vista().encargos.consultaAsignada != None
    {
      consultaAsignada.Some?
    }

    method Transicionar(nuevoEstado: EstadoPaciente)
      modifies this
      ensures Vista() == old(Vista()).(estadoActual := nuevoEstado)
    {
      estadoActual := nuevoEstado;
    }

    /** Returns false where the C# code throws (a null objetivo). */
    method MoverAPosicion(objetivo: Ref) returns (ok: bool)
      modifies this
      ensures Resultado(Vista(), !ok) == old(Vista()).MoverAPosicion(objetivo)
    {
      if objetivo.None? {
        return false;
      }
      destino := objetivo;
      return true;
    }

    method OcuparCamilla()
      modifies this
      ensures Vista() == old(Vista()).(enCamilla := true)
    {
      enCamilla := true;
    }

    method DejarDinero()
      modifies this
      ensures Vista() == old(Vista()).(dineroDejado := old(dineroDejado) + 1)
    {
      dineroDejado := dineroDejado + 1;
    }

    method AbandonarHospital()
      modifies this
      ensures Vista() == old(Vista()).(destruido := true)
    {
      destruido := true;
    }

    /** Declared but never called in this version: `sentado` therefore stays false. */
    method Sentarse()
      modifies this
      ensures Vista() == old(Vista()).(sentado := true)
    {
      sentado := true;
    }

    /** Declared but never called in this version. */
    method Levantarse()
      modifies this
      ensures Vista() == old(Vista()).(sentado := false)
    {
      sentado := false;
    }

    /** One frame; `ok` is false when the frame stopped at a null reference. */
    method Update(dt: real, llegado: bool) returns (ok: bool)
      modifies this
      ensures Resultado(Vista(), !ok) == old(Vista()).Update(dt, llegado)
    {
      ghost var antes := Vista();
      if estadoActual != Saliendo && estadoActual != Abandonando && estadoActual != Fin {
        medidorPaciencia := medidorPaciencia - dt * Decaimiento;
        assert Vista() == antes.TrasDecaer(dt);
        if PacienciaAgotada() {
          ok := MoverAPosicion(salida);
          if !ok {
            return;
          }
          Transicionar(Abandonando);
          return;
        }
      }
      assert Vista() == antes.TrasDecaer(dt) && !antes.Agota(dt);
      ok := Despachar(llegado);
    }

    /** The `switch (estadoActual)` of `Update`. */
    method Despachar(llegado: bool) returns (ok: bool)
      modifies this
      ensures Resultado(Vista(), !ok) == old(Vista()).Despachar(llegado)
    {
      if EnLlegada(estadoActual) {
        ok := DespacharLlegada(llegado);
      } else if EnAtencion(estadoActual) {
        ok := DespacharAtencion(llegado);
      } else {
        ok := DespacharSalida(llegado);
      }
    }

    /** The cases of the switch up to reaching the consultation. */
    method DespacharLlegada(llegado: bool) returns (ok: bool)
      requires EnLlegada(estadoActual)
      modifies this
      ensures Resultado(Vista(), !ok) == old(Vista()).Despachar(llegado)
    {
      ok := true;
      if estadoActual == Inicio {
        Transicionar(EsperandoEnCola);
      } else if estadoActual == EsperandoEnCola {
        if ConsultaAsignada() {
          ok := MoverAPosicion(consultaAsignada);
          if !ok {
            return;
          }
          Transicionar(MoviendoseAConsulta);
        } else {
          ok := MoverAPosicion(asientoAsignado);
          if !ok {
            return;
          }
          Transicionar(EsperandoEnSalaDeEspera);
        }
      } else if estadoActual == EsperandoEnSalaDeEspera {
        if ConsultaAsignada() && consultaAsignada.Some? {
          ok := MoverAPosicion(consultaAsignada);
          if !ok {
            return;
          }
          Transicionar(MoviendoseAConsulta);
        }
      } else {
        ok := MoverAPosicion(consultaAsignada);
        if !ok {
          return;
        }
        if HaLlegadoADestino(consultaAsignada, llegado) {
          OcuparCamilla();
          Transicionar(EsperandoDiagnostico);
        }
      }
    }

    /** The cases of the switch from the consultation to the end of the operation. */
    method DespacharAtencion(llegado: bool) returns (ok: bool)
      requires EnAtencion(estadoActual)
      modifies this
      ensures Resultado(Vista(), !ok) == old(Vista()).Despachar(llegado)
    {
      ok := true;
      if estadoActual == EsperandoDiagnostico {
        if diagnosticoAltaRecibido {
          DejarDinero();
          ok := MoverAPosicion(salida);
          if !ok {
            return;
          }
          Transicionar(Saliendo);
        } else if diagnosticoOperacionRecibido {
          if estaHerido {
            Transicionar(EsperandoTraslado);
          } else {
            ok := MoverAPosicion(quirofanoAsignado);
            if !ok {
              return;
            }
            Transicionar(SiendoOperado);
          }
        }
      } else if estadoActual == EsperandoTraslado {
        if celadorLlego {
          ok := MoverAPosicion(quirofanoAsignado);
          if !ok {
            return;
          }
          Transicionar(SiendoOperado);
        }
      } else {
        if operacionRealizada {
          DejarDinero();
          ok := MoverAPosicion(salida);
          if !ok {
            return;
          }
          Transicionar(Saliendo);
        }
      }
    }

    /** The cases of the switch once the patient is leaving. */
    method DespacharSalida(llegado: bool) returns (ok: bool)
      requires !EnLlegada(estadoActual) && !EnAtencion(estadoActual)
      modifies this
      ensures Resultado(Vista(), !ok) == old(Vista()).Despachar(llegado)
    {
      ok := true;
      if estadoActual != Fin {
        if HaLlegadoADestino(salida, llegado) {
          AbandonarHospital();
          Transicionar(Fin);
        } else {
          ok := MoverAPosicion(salida);
        }
      }
    }

    method RecibirConsultaAsignada(consulta: Ref)
      modifies this
      ensures Vista() == old(Vista()).RecibirConsultaAsignada(consulta)
    {
      consultaAsignada := consulta;
      diagnosticoOperacionRecibido := false;
      diagnosticoAltaRecibido := false;
    }

    method RecibirAsientoAsignado(asiento: Ref)
      modifies this
      ensures Vista() == old(Vista()).RecibirAsientoAsignado(asiento)
    {
      asientoAsignado := asiento;
    }

    /** As written: see `Datos.RecibirDiagnostico`. */
    method RecibirDiagnostico(requiereOperacion: bool, quirofano: Ref)
      modifies this
      ensures Vista() == old(Vista()).RecibirDiagnostico(requiereOperacion, quirofano)
    {
      diagnosticoOperacionRecibido := requiereOperacion;
      diagnosticoOperacionRecibido := !requiereOperacion;
      quirofanoAsignado := quirofano;
    }

    method CeladorHaLlegado()
      modifies this
      ensures Vista() == old(Vista()).(encargos := old(Vista()).encargos.(celadorLlego := true))
    {
      celadorLlego := true;
    }

    method OperacionCompletada()
      modifies this
      ensures Vista() == old(Vista()).(encargos := old(Vista()).encargos.(operacionRealizada := true))
    {
      operacionRealizada := true;
    }
  }
}
