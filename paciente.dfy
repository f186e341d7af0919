/**
 * The patient state machine of PacienteFSM.cs (the 13-state version).
 *
 * `Datos` is the patient's field set as a value and its member functions are
 * the specification of each entry point (`Update`, the `Recibir*` events).
 * Class `PacienteFSM` holds the same fields and updates them in place, each
 * method proved to leave exactly the fields its specification function gives.
 */
module Paciente {
  import opened Escena

  datatype EstadoPaciente =
    | Inicio
    | MoviendoseACola
    | EsperandoEnCola
    | MoviendoseASalaDeEspera
    | EsperandoEnSalaDeEspera
    | MoviendoseAConsulta
    | EsperandoDiagnostico
    | EsperandoTraslado
    | MoviendoseAQuirofano
    | SiendoOperado
    | Saliendo
    | Abandonando
    | Fin

  /** States in which the patience meter decays and can force abandonment. */
  predicate Activo(e: EstadoPaciente)
  {
    e != Saliendo && e != Abandonando && e != Fin
  }

  /** States of the switch up to reaching the consultation. */
  predicate EnLlegada(e: EstadoPaciente)
  {
    e == Inicio || e == MoviendoseACola || e == EsperandoEnCola ||
    e == MoviendoseASalaDeEspera || e == EsperandoEnSalaDeEspera || e == MoviendoseAConsulta
  }

  /** States of the switch from the consultation to the end of the operation. */
  predicate EnAtencion(e: EstadoPaciente)
  {
    e == EsperandoDiagnostico || e == EsperandoTraslado || e == MoviendoseAQuirofano || e == SiendoOperado
  }

  /** The fields after a call, and whether the call stopped at a null reference. */
  datatype Resultado = Resultado(datos: Datos, excepcion: bool)

  /** The fields that only the scene and the events write: references and notices. */
  datatype Encargos = Encargos(
    estaHerido: bool,
    puntoColaRecepcion: Ref,
    asientoAsignado: Ref,
    consultaAsignada: Ref,
    quirofanoAsignado: Ref,
    salida: Ref,
    diagnosticoOperacionRecibido: bool,
    diagnosticoAltaRecibido: bool,
    operacionRealizada: bool,
    celadorLlego: bool)

  datatype Datos = Datos(
    medidorPaciencia: real,
    estadoActual: EstadoPaciente,
    enCamilla: bool,
    sentado: bool,
    destino: Ref,        // last target handed to the mover
    dineroDejado: nat,   // how many times DejarDinero ran
    destruido: bool,     // AbandonarHospital (Destroy) has run
    encargos: Encargos)
  {
    predicate PacienciaAgotada()
    {
      medidorPaciencia <= 0.0
    }

    /** `MoverAPosicion(objetivo.transform.position)`: a null objetivo throws before anything moves. */
    function MoverAPosicion(objetivo: Ref): (r: Resultado)
      ensures r.excepcion <==> objetivo.None?
      ensures r.datos.destino == (if objetivo.Some? then objetivo else destino)
      ensures r.datos.(destino := destino) == this
    {
      if objetivo.None? then Resultado(this, true) else Resultado(this.(destino := objetivo), false)
    }

    /** `MoverAPosicion(objetivo…)`, then `Transicionar(e)`. */
    function MoverYTransicionar(objetivo: Ref, e: EstadoPaciente): Resultado
    {
      if objetivo.None? then Resultado(this, true)
      else Resultado(this.(destino := objetivo, estadoActual := e), false)
    }

    /** `Transicionar(e)`, then `MoverAPosicion(objetivo…)`. */
    function TransicionarYMover(e: EstadoPaciente, objetivo: Ref): Resultado
    {
      this.(estadoActual := e).MoverAPosicion(objetivo)
    }

    /** The fields once the meter has decayed for dt seconds. */
    function TrasDecaer(dt: real): Datos
    {
      if Activo(estadoActual) then this.(medidorPaciencia := medidorPaciencia - dt * Decaimiento) else this
    }

    /** This tick runs the patience out. */
    predicate Agota(dt: real)
    {
      Activo(estadoActual) && TrasDecaer(dt).PacienciaAgotada()
    }

    /** One frame of `Update`, the mover reporting `llegado` for the destination it is asked about. */
    function Update(dt: real, llegado: bool): (r: Resultado)
      // the meter decays by dt * 0.5 exactly in the active states
      ensures r.datos.medidorPaciencia ==
                if Activo(estadoActual) then medidorPaciencia - dt * Decaimiento else medidorPaciencia
      // running out of patience sends the patient to the exit and no switch rule runs
      ensures Agota(dt) ==>
                r.excepcion == encargos.salida.None? &&
                r.datos.estadoActual == (if encargos.salida.Some? then Abandonando else estadoActual) &&
                r.datos.destino == (if encargos.salida.Some? then encargos.salida else destino) &&
                r.datos.(medidorPaciencia := medidorPaciencia, destino := destino, estadoActual := estadoActual) == this
      // references and event flags are never written by a tick
      ensures r.datos.encargos == encargos
      // Fin has no case: nothing changes
      ensures estadoActual == Fin ==> r == Resultado(this, false)
    {
      if Agota(dt) then TrasDecaer(dt).MoverYTransicionar(encargos.salida, Abandonando)
      else TrasDecaer(dt).Despachar(llegado)
    }

    /** The `switch (estadoActual)` of `Update`. */
    function Despachar(llegado: bool): (r: Resultado)
      // the switch never touches the meter, the references or the notices
      ensures r.datos.medidorPaciencia == medidorPaciencia && r.datos.encargos == encargos
      // at most one coin, and only on the way out after care
      ensures r.datos.dineroDejado == dineroDejado ||
              (r.datos.dineroDejado == dineroDejado + 1 &&
               (estadoActual == EsperandoDiagnostico || estadoActual == SiendoOperado))
      // the patient is destroyed only on reaching Fin from the two exit states
      ensures r.datos.destruido != destruido ==>
                r.datos.estadoActual == Fin && (estadoActual == Saliendo || estadoActual == Abandonando)
      // Fin has no case: nothing changes
      ensures estadoActual == Fin ==> r == Resultado(this, false)
    {
      var sin := Resultado(this, false);
      match estadoActual
      case Inicio =>
        if encargos.puntoColaRecepcion.Some?
        then MoverYTransicionar(encargos.puntoColaRecepcion, MoviendoseACola)
        else sin
      case MoviendoseACola =>
        if HaLlegadoADestino(encargos.puntoColaRecepcion, llegado)
        then Resultado(this.(estadoActual := EsperandoEnCola), false)
        else sin
      case EsperandoEnCola => sin
      case MoviendoseASalaDeEspera =>
        if HaLlegadoADestino(encargos.asientoAsignado, llegado)
        then Resultado(this.(sentado := true, estadoActual := EsperandoEnSalaDeEspera), false)
        else sin
      case EsperandoEnSalaDeEspera => sin
      case MoviendoseAConsulta =>
        if HaLlegadoADestino(encargos.consultaAsignada, llegado)
        then Resultado(this.(enCamilla := true, estadoActual := EsperandoDiagnostico), false)
        else sin
      case EsperandoDiagnostico =>
        if encargos.diagnosticoAltaRecibido then
          this.(dineroDejado := dineroDejado + 1).MoverYTransicionar(encargos.salida, Saliendo)
        else if encargos.diagnosticoOperacionRecibido then
          if encargos.estaHerido then Resultado(this.(estadoActual := EsperandoTraslado), false)
          else TransicionarYMover(MoviendoseAQuirofano, encargos.quirofanoAsignado)
        else sin
      case EsperandoTraslado =>
        if encargos.celadorLlego then TransicionarYMover(MoviendoseAQuirofano, encargos.quirofanoAsignado)
        else sin
      case MoviendoseAQuirofano =>
        if HaLlegadoADestino(encargos.quirofanoAsignado, llegado)
        then Resultado(this.(enCamilla := true, estadoActual := SiendoOperado), false)
        else sin
      case SiendoOperado =>
        if encargos.operacionRealizada then
          this.(dineroDejado := dineroDejado + 1).MoverYTransicionar(encargos.salida, Saliendo)
        else sin
      case Saliendo =>
        if HaLlegadoADestino(encargos.salida, llegado)
        then Resultado(this.(destruido := true, estadoActual := Fin), false)
        else sin
      case Abandonando =>
        if HaLlegadoADestino(encargos.salida, llegado)
        then Resultado(this.(destruido := true, estadoActual := Fin), false)
        else sin
      case Fin => sin
    }

    /** `RecibirConsultaAsignada(consulta)`. */
    function RecibirConsultaAsignada(consulta: Ref): (r: Resultado)
      // the room is stored and the diagnosis cleared only from the two waiting states
      ensures r.datos.encargos ==
                if EsperandoAsignacion(estadoActual)
                then encargos.(consultaAsignada := consulta, diagnosticoOperacionRecibido := false,
                               diagnosticoAltaRecibido := false)
                else encargos
      // whatever the prior state, the patient stands up and heads for the consultation
      ensures r.datos.estadoActual == MoviendoseAConsulta && !r.datos.sentado
      ensures r.excepcion == r.datos.encargos.consultaAsignada.None?
      ensures r.datos.destino == if r.excepcion then destino else r.datos.encargos.consultaAsignada
      ensures r.datos.medidorPaciencia == medidorPaciencia && r.datos.enCamilla == enCamilla &&
              r.datos.dineroDejado == dineroDejado && r.datos.destruido == destruido
    {
      var asignado :=
        if EsperandoAsignacion(estadoActual)
        then this.(encargos := encargos.(consultaAsignada := consulta, diagnosticoOperacionRecibido := false,
                                         diagnosticoAltaRecibido := false))
        else this;
      var levantado := asignado.(sentado := false);
      levantado.TransicionarYMover(MoviendoseAConsulta, levantado.encargos.consultaAsignada)
    }

    /** `RecibirAsientoAsignado(asiento)`. */
    function RecibirAsientoAsignado(asiento: Ref): (r: Resultado)
      // from EsperandoEnCola the seat is stored and the patient walks to it
      ensures estadoActual == EsperandoEnCola ==>
                r.datos.encargos == encargos.(asientoAsignado := asiento) &&
                r.datos.estadoActual == MoviendoseASalaDeEspera &&
                r.excepcion == asiento.None? &&
                r.datos.destino == (if asiento.Some? then asiento else destino) &&
                r.datos.(encargos := encargos, estadoActual := estadoActual, destino := destino) == this
      // in every other state it is a no-op
      ensures estadoActual != EsperandoEnCola ==> r == Resultado(this, false)
    {
      if estadoActual == EsperandoEnCola
      then this.(encargos := encargos.(asientoAsignado := asiento)).TransicionarYMover(MoviendoseASalaDeEspera, asiento)
      else Resultado(this, false)
    }

    /** `RecibirDiagnostico(requiereOperacion, quirofano)`. */
    function RecibirDiagnostico(requiereOperacion: bool, quirofano: Ref): (r: Datos)
      // exactly one of the two diagnosis flags is set, the operation one when an operation is required
      ensures r.encargos.diagnosticoOperacionRecibido != r.encargos.diagnosticoAltaRecibido
      ensures r.encargos.diagnosticoOperacionRecibido == requiereOperacion
      ensures r.encargos.quirofanoAsignado == quirofano
      ensures r.encargos.(diagnosticoOperacionRecibido := encargos.diagnosticoOperacionRecibido,
                          diagnosticoAltaRecibido := encargos.diagnosticoAltaRecibido,
                          quirofanoAsignado := encargos.quirofanoAsignado) == encargos
      ensures r.(encargos := encargos) == this
    {
      this.(encargos := encargos.(diagnosticoOperacionRecibido := requiereOperacion,
                                  diagnosticoAltaRecibido := !requiereOperacion, quirofanoAsignado := quirofano))
    }
  }

  /** The states from which `RecibirConsultaAsignada` stores the room. */
  predicate EsperandoAsignacion(e: EstadoPaciente)
  {
    e == EsperandoEnCola || e == EsperandoEnSalaDeEspera
  }

  /** Running out of patience is the only way a frame enters Abandonando. */
  lemma AbandonoSoloPorPaciencia(d: Datos, dt: real, llegado: bool)
    ensures d.Update(dt, llegado).datos.estadoActual == Abandonando ==> d.estadoActual == Abandonando || d.Agota(dt)
  {
  }

  /**
   * A frame drops money at most once, and only leaving EsperandoDiagnostico or
   * SiendoOperado for Saliendo (or stopping at a null exit on the way).
   */
  lemma PagoSoloAlSalir(d: Datos, dt: real, llegado: bool)
    ensures var r := d.Update(dt, llegado);
      r.datos.dineroDejado != d.dineroDejado ==>
        r.datos.dineroDejado == d.dineroDejado + 1 && !d.Agota(dt) &&
        (d.estadoActual == EsperandoDiagnostico || d.estadoActual == SiendoOperado) &&
        (r.datos.estadoActual == Saliendo || (r.excepcion && d.encargos.salida.None?))
  {
    if !d.Agota(dt) && (d.estadoActual == EsperandoDiagnostico || d.estadoActual == SiendoOperado) {
      assert d.TrasDecaer(dt).estadoActual == d.estadoActual;
    }
  }

  /** A frame destroys the patient only on reaching Fin from Saliendo or Abandonando. */
  lemma DestruccionSoloEnFin(d: Datos, dt: real, llegado: bool)
    ensures var r := d.Update(dt, llegado);
      r.datos.destruido != d.destruido ==>
        r.datos.estadoActual == Fin && (d.estadoActual == Saliendo || d.estadoActual == Abandonando)
  {
    if !d.Agota(dt) && (d.estadoActual == Saliendo || d.estadoActual == Abandonando) {
      assert d.TrasDecaer(dt) == d;
    }
  }

  /**
   * A frame enters Fin only from Saliendo or Abandonando, and only when the
   * mover reports arrival at a non-null exit; the patient is then destroyed.
   */
  lemma FinSoloDesdeSalida(d: Datos, dt: real, llegado: bool)
    ensures var r := d.Update(dt, llegado);
      r.datos.estadoActual == Fin ==>
        d.estadoActual == Saliendo || d.estadoActual == Abandonando || d.estadoActual == Fin
    ensures var r := d.Update(dt, llegado);
      r.datos.estadoActual == Fin && d.estadoActual != Fin ==>
        llegado && d.encargos.salida.Some? && r.datos.destruido
  {
    if !d.Agota(dt) && (d.estadoActual == Saliendo || d.estadoActual == Abandonando) {
      assert d.TrasDecaer(dt) == d;
    }
  }

  /** A patient as the scene creates it: inspector references set, everything else at its default. */
  function Nuevo(estaHerido: bool, puntoColaRecepcion: Ref, salida: Ref): (d: Datos)
    ensures d.estadoActual == Inicio && d.medidorPaciencia == PacienciaInicial
    ensures !d.sentado && !d.enCamilla && d.dineroDejado == 0 && !d.destruido
    ensures d.encargos.salida == salida && d.encargos.estaHerido == estaHerido
  {
    Datos(PacienciaInicial, Inicio, false, false, None, 0, false,
          Encargos(estaHerido, puntoColaRecepcion, None, None, None, salida, false, false, false, false))
  }

  /** Saliendo and Abandonando move only to Fin, and only once the exit is reached; Fin never moves. */
  lemma SalidaSoloHaciaFin(d: Datos, dt: real, llegado: bool)
    requires !Activo(d.estadoActual)
    ensures var r := d.Update(dt, llegado);
      !r.excepcion &&
      r.datos == (if d.estadoActual != Fin && HaLlegadoADestino(d.encargos.salida, llegado)
                  then d.(destruido := true, estadoActual := Fin) else d)
  {
  }

  /**
   * Inicio heads for the queue when a queue point exists and otherwise stays;
   * each walk ends, on arrival, in its waiting state with the matching posture,
   * and before arrival the frame changes nothing but the meter.
   */
  lemma Desplazamientos(d: Datos, dt: real, llegado: bool)
    requires !d.Agota(dt)
    ensures var e, r, k := d.TrasDecaer(dt), d.Update(dt, llegado), d.encargos;
      (d.estadoActual == Inicio ==>
         r == (if k.puntoColaRecepcion.Some?
               then Resultado(e.(estadoActual := MoviendoseACola, destino := k.puntoColaRecepcion), false)
               else Resultado(e, false))) &&
      (d.estadoActual == MoviendoseACola ==>
         r == Resultado(if HaLlegadoADestino(k.puntoColaRecepcion, llegado)
                        then e.(estadoActual := EsperandoEnCola) else e, false)) &&
      (d.estadoActual == MoviendoseASalaDeEspera ==>
         r == Resultado(if HaLlegadoADestino(k.asientoAsignado, llegado)
                        then e.(sentado := true, estadoActual := EsperandoEnSalaDeEspera) else e, false)) &&
      (d.estadoActual == MoviendoseAConsulta ==>
         r == Resultado(if HaLlegadoADestino(k.consultaAsignada, llegado)
                        then e.(enCamilla := true, estadoActual := EsperandoDiagnostico) else e, false)) &&
      (d.estadoActual == MoviendoseAQuirofano ==>
         r == Resultado(if HaLlegadoADestino(k.quirofanoAsignado, llegado)
                        then e.(enCamilla := true, estadoActual := SiendoOperado) else e, false))
  {
  }

  /** The two waiting states only wait: the tick changes nothing but the meter. */
  lemma EsperasPasivas(d: Datos, dt: real, llegado: bool)
    requires EsperandoAsignacion(d.estadoActual) && !d.Agota(dt)
    ensures d.Update(dt, llegado) == Resultado(d.(medidorPaciencia := d.medidorPaciencia - dt * Decaimiento), false)
  {
  }

  /**
   * In EsperandoDiagnostico the discharge flag wins, then the operation flag
   * splits on the injury; with neither flag the patient keeps waiting.
   */
  lemma EsperandoDiagnosticoRamas(d: Datos, dt: real, llegado: bool)
    requires d.estadoActual == EsperandoDiagnostico && !d.Agota(dt)
    ensures var e, r, k := d.TrasDecaer(dt), d.Update(dt, llegado), d.encargos;
      (k.diagnosticoAltaRecibido ==>
         r.datos.dineroDejado == d.dineroDejado + 1 && r.excepcion == k.salida.None? &&
         r.datos.estadoActual == (if k.salida.Some? then Saliendo else EsperandoDiagnostico) &&
         r.datos.destino == (if k.salida.Some? then k.salida else d.destino)) &&
      (!k.diagnosticoAltaRecibido && k.diagnosticoOperacionRecibido && k.estaHerido ==>
         r == Resultado(e.(estadoActual := EsperandoTraslado), false)) &&
      (!k.diagnosticoAltaRecibido && k.diagnosticoOperacionRecibido && !k.estaHerido ==>
         r.datos.estadoActual == MoviendoseAQuirofano && r.datos.dineroDejado == d.dineroDejado &&
         r.excepcion == k.quirofanoAsignado.None? &&
         r.datos.destino == (if k.quirofanoAsignado.Some? then k.quirofanoAsignado else d.destino)) &&
      (!k.diagnosticoAltaRecibido && !k.diagnosticoOperacionRecibido ==> r == Resultado(e, false))
  {
  }

  /**
   * EsperandoTraslado leaves (for MoviendoseAQuirofano) exactly when the orderly
   * has arrived; SiendoOperado drops money exactly when the operation is done,
   * and leaves for Saliendo then unless the exit is null, in which case the
   * frame throws and the patient stays, dropping a coin every frame.
   */
  lemma EsperasDeQuirofano(d: Datos, dt: real, llegado: bool)
    requires !d.Agota(dt)
    ensures var r, k := d.Update(dt, llegado), d.encargos;
      (d.estadoActual == EsperandoTraslado ==>
         (r.datos.estadoActual == MoviendoseAQuirofano <==> k.celadorLlego) &&
         (k.celadorLlego ==> r.excepcion == k.quirofanoAsignado.None? &&
                             r.datos.destino == (if k.quirofanoAsignado.Some? then k.quirofanoAsignado else d.destino)) &&
         (!k.celadorLlego ==> r == Resultado(d.TrasDecaer(dt), false))) &&
      (d.estadoActual == SiendoOperado ==>
         (r.datos.dineroDejado == d.dineroDejado + 1 <==> k.operacionRealizada) &&
         (k.salida.Some? ==> (r.datos.estadoActual == Saliendo <==> k.operacionRealizada)) &&
         (k.operacionRealizada && k.salida.Some? ==> r.datos.destino == k.salida && !r.excepcion) &&
         (k.operacionRealizada && k.salida.None? ==>
            r == Resultado(d.TrasDecaer(dt).(dineroDejado := d.dineroDejado + 1), true)) &&
         (!k.operacionRealizada ==> r == Resultado(d.TrasDecaer(dt), false)))
  {
  }

  /** The object the scene updates in place. */
  class PacienteFSM {
    var medidorPaciencia: real
    var estaHerido: bool
    var enCamilla: bool
    var sentado: bool
    var estadoActual: EstadoPaciente
    var puntoColaRecepcion: Ref
    var asientoAsignado: Ref
    var consultaAsignada: Ref
    var quirofanoAsignado: Ref
    var salida: Ref
    var diagnosticoOperacionRecibido: bool
    var diagnosticoAltaRecibido: bool
    var operacionRealizada: bool
    var celadorLlego: bool
    var destino: Ref
    var dineroDejado: nat
    var destruido: bool

    /** The object's fields as a value. */
    function Vista(): Datos
      reads this
    {
      Datos(medidorPaciencia, estadoActual, enCamilla, sentado, destino, dineroDejado, destruido,
            Encargos(estaHerido, puntoColaRecepcion, asientoAsignado, consultaAsignada, quirofanoAsignado, salida,
                     diagnosticoOperacionRecibido, diagnosticoAltaRecibido, operacionRealizada, celadorLlego))
    }

    constructor (herido: bool, puntoCola: Ref, puntoSalida: Ref)
      ensures Vista() == Nuevo(herido, puntoCola, puntoSalida)
    {
      medidorPaciencia := PacienciaInicial;
      estaHerido := herido;
      enCamilla, sentado := false, false;
      estadoActual := Inicio;
      puntoColaRecepcion := puntoCola;
      asientoAsignado, consultaAsignada, quirofanoAsignado := None, None, None;
      salida := puntoSalida;
      diagnosticoOperacionRecibido, diagnosticoAltaRecibido := false, false;
      operacionRealizada, celadorLlego := false, false;
      destino := None;
      dineroDejado := 0;
      destruido := false;
    }

    predicate PacienciaAgotada()
      reads this
      ensures PacienciaAgotada() <==> medidorPaciencia <= 0.0
    {
      Vista().PacienciaAgotada()
    }

    method Transicionar(nuevoEstado: EstadoPaciente)
      modifies this
      ensures Vista() == old(Vista()).(estadoActual := nuevoEstado)
    {
      estadoActual := nuevoEstado;
    }

    /** Returns false where the C# code throws (a null objetivo). */
    method MoverAPosicion(objetivo: Ref) returns (ok: bool)
      modifies this
      ensures Resultado(Vista(), !ok) == old(Vista()).MoverAPosicion(objetivo)
    {
      if objetivo.None? {
        return false;
      }
      destino := objetivo;
      return true;
    }

    method OcuparCamilla()
      modifies this
      ensures Vista() == old(Vista()).(enCamilla := true)
    {
      enCamilla := true;
    }

    method DejarDinero()
      modifies this
      ensures Vista() == old(Vista()).(dineroDejado := old(dineroDejado) + 1)
    {
      dineroDejado := dineroDejado + 1;
    }

    method AbandonarHospital()
      modifies this
      ensures Vista() == old(Vista()).(destruido := true)
    {
      destruido := true;
    }

    method Sentarse()
      modifies this
      ensures Vista() == old(Vista()).(sentado := true)
    {
      sentado := true;
    }

    method Levantarse()
      modifies this
      ensures Vista() == old(Vista()).(sentado := false)
    {
      sentado := false;
    }

    /** One frame; `ok` is false when the frame stopped at a null reference. */
    method Update(dt: real, llegado: bool) returns (ok: bool)
      modifies this
      ensures Resultado(Vista(), !ok) == old(Vista()).Update(dt, llegado)
    {
      ghost var antes := Vista();
      if estadoActual != Saliendo && estadoActual != Abandonando && estadoActual != Fin {
        medidorPaciencia := medidorPaciencia - dt * Decaimiento;
        assert Vista() == antes.TrasDecaer(dt);
        if PacienciaAgotada() {
          ok := MoverAPosicion(salida);
          if !ok {
            return;
          }
          Transicionar(Abandonando);
          return;
        }
      }
      assert Vista() == antes.TrasDecaer(dt) && !antes.Agota(dt);
      ok := Despachar(llegado);
    }

    /** The `switch (estadoActual)` of `Update`. */
    method Despachar(llegado: bool) returns (ok: bool)
      modifies this
      ensures Resultado(Vista(), !ok) == old(Vista()).Despachar(llegado)
    {
      if EnLlegada(estadoActual) {
        ok := DespacharLlegada(llegado);
      } else if EnAtencion(estadoActual) {
        ok := DespacharAtencion(llegado);
      } else {
        ok := DespacharSalida(llegado);
      }
    }

    /** The cases of the switch up to reaching the consultation. */
    method DespacharLlegada(llegado: bool) returns (ok: bool)
      requires EnLlegada(estadoActual)
      modifies this
      ensures Resultado(Vista(), !ok) == old(Vista()).Despachar(llegado)
    {
      ok := true;
      if estadoActual == Inicio {
        if puntoColaRecepcion.Some? {
          ok := MoverAPosicion(puntoColaRecepcion);
          Transicionar(MoviendoseACola);
        }
      } else if estadoActual == MoviendoseACola {
        if HaLlegadoADestino(puntoColaRecepcion, llegado) {
          Transicionar(EsperandoEnCola);
        }
      } else if estadoActual == MoviendoseASalaDeEspera {
        if HaLlegadoADestino(asientoAsignado, llegado) {
          Sentarse();
          Transicionar(EsperandoEnSalaDeEspera);
        }
      } else if estadoActual == MoviendoseAConsulta {
        if HaLlegadoADestino(consultaAsignada, llegado) {
          OcuparCamilla();
          Transicionar(EsperandoDiagnostico);
        }
      }
    }

    /** The cases of the switch from the consultation to the end of the operation. */
    method DespacharAtencion(llegado: bool) returns (ok: bool)
      requires EnAtencion(estadoActual)
      modifies this
      ensures Resultado(Vista(), !ok) == old(Vista()).Despachar(llegado)
    {
      ok := true;
      if estadoActual == EsperandoDiagnostico {
        if diagnosticoAltaRecibido {
          DejarDinero();
          ok := MoverAPosicion(salida);
          if !ok {
            return;
          }
          Transicionar(Saliendo);
        } else if diagnosticoOperacionRecibido {
          if estaHerido {
            Transicionar(EsperandoTraslado);
          } else {
            Transicionar(MoviendoseAQuirofano);
            ok := MoverAPosicion(quirofanoAsignado);
          }
        }
      } else if estadoActual == EsperandoTraslado {
        if celadorLlego {
          Transicionar(MoviendoseAQuirofano);
          ok := MoverAPosicion(quirofanoAsignado);
        }
      } else if estadoActual == MoviendoseAQuirofano {
        if HaLlegadoADestino(quirofanoAsignado, llegado) {
          OcuparCamilla();
          Transicionar(SiendoOperado);
        }
      } else {
        if operacionRealizada {
          DejarDinero();
          ok := MoverAPosicion(salida);
          if !ok {
            return;
          }
          Transicionar(Saliendo);
        }
      }
    }

    /** The cases of the switch once the patient is leaving. */
    method DespacharSalida(llegado: bool) returns (ok: bool)
      requires !EnLlegada(estadoActual) && !EnAtencion(estadoActual)
      modifies this
      ensures Resultado(Vista(), !ok) == old(Vista()).Despachar(llegado)
    {
      ok := true;
      if estadoActual != Fin && HaLlegadoADestino(salida, llegado) {
        AbandonarHospital();
        Transicionar(Fin);
      }
    }

    method RecibirConsultaAsignada(consulta: Ref) returns (ok: bool)
      modifies this
      ensures Resultado(Vista(), !ok) == old(Vista()).RecibirConsultaAsignada(consulta)
    {
      ghost var antes := Vista();
      GuardarConsulta(consulta);
      if sentado {
        Levantarse();
      }
      ghost var levantado := Vista();
      assert antes.RecibirConsultaAsignada(consulta) ==
             levantado.TransicionarYMover(MoviendoseAConsulta, levantado.encargos.consultaAsignada);
      Transicionar(MoviendoseAConsulta);
      ok := MoverAPosicion(consultaAsignada);
    }

    /** The guarded store at the head of `RecibirConsultaAsignada`. */
    method GuardarConsulta(consulta: Ref)
      modifies this
      ensures Vista() == if EsperandoAsignacion(old(estadoActual))
                         then old(Vista()).(encargos := old(Vista()).encargos.(consultaAsignada := consulta,
                                                                               diagnosticoOperacionRecibido := false,
                                                                               diagnosticoAltaRecibido := false))
                         else old(Vista())
    {
      if estadoActual == EsperandoEnCola || estadoActual == EsperandoEnSalaDeEspera {
        consultaAsignada := consulta;
        diagnosticoOperacionRecibido := false;
        diagnosticoAltaRecibido := false;
      }
    }

    method RecibirAsientoAsignado(asiento: Ref) returns (ok: bool)
      modifies this
      ensures Resultado(Vista(), !ok) == old(Vista()).RecibirAsientoAsignado(asiento)
    {
      ok := true;
      if estadoActual == EsperandoEnCola {
        asientoAsignado := asiento;
        Transicionar(MoviendoseASalaDeEspera);
        ok := MoverAPosicion(asientoAsignado);
      }
    }

    method RecibirDiagnostico(requiereOperacion: bool, quirofano: Ref)
      modifies this
      ensures Vista() == old(Vista()).RecibirDiagnostico(requiereOperacion, quirofano)
    {
      diagnosticoOperacionRecibido := requiereOperacion;
      diagnosticoAltaRecibido := !requiereOperacion;
      quirofanoAsignado := quirofano;
    }

    method CeladorHaLlegado()
      modifies this
      ensures Vista() == old(Vista()).(encargos := old(Vista()).encargos.(celadorLlego := true))
    {
      celadorLlego := true;
    }

    method OperacionCompletada()
      modifies this
      ensures Vista() == old(Vista()).(encargos := old(Vista()).encargos.(operacionRealizada := true))
    {
      operacionRealizada := true;
    }
  }
}
