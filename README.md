# Hospital patients and receptionist, in Dafny

A model of the decision logic of a hospital simulation. It has three parts:

- The patient state machine `PacienteFSM` in its two versions:
  - the 13-state one in `PacienteFSM.cs` (module `Paciente`);
  - the 10-state one in `PrimerPersonaje/Assets/Scripts/PacienteFSM.cs` (module `PrimerPersonaje`).
- The receptionist's choice of the most impatient patient, in `RecepcionistaBT.cs` (module `Recepcionista`).

Module `Escena` holds the shared vocabulary. A `GameObject` reference is a `Ref`, an `Option<Objeto>`, so it can be null. It also holds the patience constants (100 to start, 0.5 lost per second) and the arrival oracle.

## How the patient is modelled

Each patient version has two layers:

- **The specification, `Datos`.** It holds the fields of the C# class as a value. Its member functions `Update` and `Recibir*` say what one call does. Each call returns a `Resultado(datos, excepcion)`.
  - `excepcion` is true where the C# code dereferences a null `GameObject` (`x.transform.position`) and throws `NullReferenceException`.
  - The fields written before the throw are kept, so the order of `Transicionar` and `MoverAPosicion` in the source matters and is kept.
- **The implementation, class `PacienteFSM`.** It has the same fields and updates them in place, one method per C# method.
  - Each method's `ensures` ties the new state to the specification: `Resultado(Vista(), !ok) == old(Vista()).Update(dt, llegado)`.
  - `Vista()` reads the object's fields into a `Datos`. `ok` is false where the C# code throws.
  - The `switch` of `Update` is split over three helper methods by phase of the visit (arrival, care, exit). Each helper proves the same specification for its states.

A frame is `Update(dt, llegado)`:

- `dt` is `Time.deltaTime`.
- `llegado` is the mover's answer to `HaLlegadoADestino`. A null destination never counts as reached.
- `destino` records the last target given to `MoverAPosicion`.
- `dineroDejado` counts the calls to `DejarDinero`.
- `destruido` records `Destroy(gameObject)`.

The modules `PacienteTrazas` and `PrimerPersonajeTrazas` run a patient over a sequence of events: frames and the calls other agents make. On these runs they prove invariants:

- money agrees with the state, for a patient with an exit;
- posture agrees with the state;
- once abandoning, the patient only ever reaches Fin;
- a patient who is not injured never waits for the orderly (on every run, in both versions);
- patience decays linearly, and a patient with an exit left waiting abandons at the 200th second; with a null exit it never leaves the wait.

Behaviour of the code worth knowing:

- **Leaving the exit states (13-state version).** The 13-state `RecibirConsultaAsignada` (`PacienteFSM.cs:247-263`) moves a patient to MoviendoseAConsulta from any state, including Abandonando and Fin.
  - `PacienteTrazas.ConsultaReactivaAbandono` shows this.
  - The exit and money invariants of that version are therefore proved over runs in which a room is only handed to a patient waiting in the queue or the waiting room (`RunAdmisible`).
- **Re-issuing the move (13-state version).** Saliendo and Abandonando do not re-issue the move to the exit each frame; they only wait for arrival.
- **No resource release.** Neither version returns the seat, room or operating room to any pool on leaving.
- **Paying every frame with a null exit (both versions).** After the operation, SiendoOperado drops a coin and then dereferences the null exit. The patient stays in SiendoOperado and pays again on every frame, until patience runs out. `EsperasDeQuirofano` states this in both versions.
- **Stuck in transfer (10-state version).** EsperandoTraslado with the orderly arrived and a null operating room throws on every frame. The patient stays in EsperandoTraslado until patience runs out. `PrimerPersonaje.EsperasDeQuirofano` states this.
- **No abandonment with a null exit (both versions).** Once patience is exhausted, the move to the exit throws before the transition, on every frame. The patient keeps its state and the meter goes on falling. `EsperaSinSalida` states this in both versions.
- **Stuck in the queue (10-state version).** EsperandoEnCola with neither a room nor a seat dereferences the null seat on every frame. The patient stays in the queue until patience runs out.

## Model

| member | source | states |
|---|---|---|
| Escena.RestanteLineal | PacienteFSM.cs:69 | n frames of `dt` cost exactly `n * dt * 0.5` patience |
| Paciente.Datos.Update | PacienteFSM.cs:62-191 | the meter falls by `dt * 0.5` exactly outside Saliendo/Abandonando/Fin; when this frame exhausts patience the movement target becomes the exit and the state Abandonando (throwing, with target and state kept, if the exit is null), with nothing else changed; a frame never writes references or event flags; in Fin nothing changes |
| Paciente.Datos.PacienciaAgotada | PacienteFSM.cs:234 | patience is exhausted at a meter of zero or below |
| Escena.HaLlegadoADestino | PacienteFSM.cs:238-245 | a null destination is never reached; a non-null one is reached exactly when the mover reports arrival |
| Paciente.PacienteFSM.PacienciaAgotada | PacienteFSM.cs:234 | the object's patience is exhausted iff its meter is zero or below, as `Datos.PacienciaAgotada` of its fields |
| Paciente.Datos.MoverAPosicion | PacienteFSM.cs:193-201 | throws iff the target is null; otherwise the target is recorded; nothing else changes |
| Paciente.Datos.Despachar | PacienteFSM.cs:80-190 | the switch never touches the meter, the references or the notices; it drops at most one coin, only from EsperandoDiagnostico or SiendoOperado; it destroys the patient only on the move to Fin from Saliendo or Abandonando; in Fin it changes nothing |
| Paciente.AbandonoSoloPorPaciencia | PacienteFSM.cs:72-77 | a frame enters Abandonando only when it exhausts patience |
| Paciente.PagoSoloAlSalir | PacienteFSM.cs:130-172 | a frame drops money at most once, only from EsperandoDiagnostico or SiendoOperado towards Saliendo, never on abandonment |
| Paciente.DestruccionSoloEnFin | PacienteFSM.cs:175-219 | the patient is destroyed only on reaching Fin from Saliendo or Abandonando |
| Paciente.FinSoloDesdeSalida | PacienteFSM.cs:175-189 | a frame enters Fin only from Saliendo or Abandonando, on arrival at a non-null exit, destroying the patient |
| Paciente.SalidaSoloHaciaFin | PacienteFSM.cs:175-189 | Saliendo and Abandonando go to Fin (destroyed) exactly on arrival at the exit and otherwise stay unchanged; Fin never changes |
| Paciente.Desplazamientos | PacienteFSM.cs:82-164 | Inicio heads for the queue point when there is one and otherwise stays; each walk ends on arrival in its waiting state (seated in the waiting room, on a stretcher in consultation and surgery), and before arrival only the meter changes |
| Paciente.EsperasPasivas | PacienteFSM.cs:107-119 | EsperandoEnCola and EsperandoEnSalaDeEspera only lose patience |
| Paciente.EsperandoDiagnosticoRamas | PacienteFSM.cs:130-148 | the discharge flag wins (one money drop, target the exit, Saliendo); otherwise the operation flag leads to EsperandoTraslado if injured, else to MoviendoseAQuirofano with target the operating room and no money; each move throws iff its target is null; with neither flag nothing but the meter changes |
| Paciente.EsperasDeQuirofano | PacienteFSM.cs:150-173 | EsperandoTraslado advances to MoviendoseAQuirofano, towards the operating room, iff the orderly arrived (throwing iff that room is null); SiendoOperado drops money iff the operation is done, and then goes to Saliendo towards the exit, or, with a null exit, throws and stays in SiendoOperado so that every later frame drops another coin |
| Paciente.Datos.RecibirConsultaAsignada | PacienteFSM.cs:247-263 | the room is stored and both diagnosis flags cleared only from EsperandoEnCola/EsperandoEnSalaDeEspera; from any state the patient stands up and becomes MoviendoseAConsulta, throwing iff its room is null |
| Paciente.Datos.RecibirAsientoAsignado | PacienteFSM.cs:265-273 | from EsperandoEnCola the seat is stored and the patient walks to it (throwing iff it is null); in any other state nothing changes |
| Paciente.Datos.RecibirDiagnostico | PacienteFSM.cs:278-283 | exactly one diagnosis flag is set, the operation flag iff an operation is required; the operating room is stored; nothing else changes |
| Paciente.Nuevo | PacienteFSM.cs:8-26 | a new patient is in Inicio with patience 100, standing, off the stretcher, with no money dropped |
| Paciente.PacienteFSM.constructor | PacienteFSM.cs:8-26 | the object's fields are those of a new patient |
| Paciente.PacienteFSM.Transicionar | PacienteFSM.cs:47-51 | only the state changes |
| Paciente.PacienteFSM.MoverAPosicion | PacienteFSM.cs:193-201 | a null target throws at the caller's `.transform.position` and changes nothing; otherwise only the movement target changes |
| Paciente.PacienteFSM.OcuparCamilla | PacienteFSM.cs:203-208 | only the stretcher flag is set |
| Paciente.PacienteFSM.DejarDinero | PacienteFSM.cs:210-214 | only the money counter grows by one |
| Paciente.PacienteFSM.AbandonarHospital | PacienteFSM.cs:216-219 | only the destroyed flag is set |
| Paciente.PacienteFSM.Sentarse | PacienteFSM.cs:220-225 | only the seated flag is set |
| Paciente.PacienteFSM.Levantarse | PacienteFSM.cs:227-232 | only the seated flag is cleared |
| Paciente.PacienteFSM.Update | PacienteFSM.cs:62-191 | the object's new fields and exception are those `Datos.Update` specifies |
| Paciente.PacienteFSM.Despachar | PacienteFSM.cs:80-190 | the switch updates the object as the specification's switch does |
| Paciente.PacienteFSM.DespacharLlegada | PacienteFSM.cs:82-128 | the same, for the states up to the consultation |
| Paciente.PacienteFSM.DespacharAtencion | PacienteFSM.cs:130-173 | the same, for diagnosis, transfer and surgery |
| Paciente.PacienteFSM.DespacharSalida | PacienteFSM.cs:175-189 | the same, for Saliendo, Abandonando and Fin |
| Paciente.PacienteFSM.RecibirConsultaAsignada | PacienteFSM.cs:247-263 | the object's new fields and exception are those `Datos.RecibirConsultaAsignada` specifies |
| Paciente.PacienteFSM.GuardarConsulta | PacienteFSM.cs:249-254 | the room and cleared flags are written only from the two waiting states |
| Paciente.PacienteFSM.RecibirAsientoAsignado | PacienteFSM.cs:265-273 | as `Datos.RecibirAsientoAsignado` |
| Paciente.PacienteFSM.RecibirDiagnostico | PacienteFSM.cs:278-283 | as `Datos.RecibirDiagnostico` |
| Paciente.PacienteFSM.CeladorHaLlegado | PacienteFSM.cs:284 | only the orderly flag is set |
| Paciente.PacienteFSM.OperacionCompletada | PacienteFSM.cs:285 | only the operation-done flag is set |
| PacienteTrazas.AplicarPreservaPostura | PacienteFSM.cs:113-259 | one event keeps posture valid: seated only in the waiting room (or leaving it by abandonment), never seated and on a stretcher at once, on a stretcher only from the consultation on |
| PacienteTrazas.PosturaExclusiva | PacienteFSM.cs:203-232 | on every run from a valid posture the patient is never seated and on a stretcher at once |
| PacienteTrazas.NuevoConPosturaValida | PacienteFSM.cs:10-11 | a new patient has a valid posture |
| PacienteTrazas.NuevoConPagoCoherente | PacienteFSM.cs:8-26 | a new patient with an exit has paid nothing, the base case of `PagoCoherenteEnRun` |
| PacienteTrazas.AplicarPreservaPago | PacienteFSM.cs:130-263 | one admissible event keeps money and state in agreement: none while active or abandoning, one once leaving after care |
| PacienteTrazas.PagoCoherenteEnRun | PacienteFSM.cs:130-172 | every admissible run keeps money and state in agreement, for a patient with an exit |
| PacienteTrazas.PagoRepetidoSinSalida | PacienteFSM.cs:130-136 | with a null exit, a discharged patient drops money on each of two frames (the move to the exit throws after `DejarDinero`) and stays in EsperandoDiagnostico, on an admissible run |
| PacienteTrazas.AbandonoSinPago | PacienteFSM.cs:183-189 | from Abandonando, every admissible run stays in Abandonando or Fin and drops no money |
| PacienteTrazas.SalidaSinMasPagos | PacienteFSM.cs:175-181 | from Saliendo, every admissible run stays in Saliendo or Fin and drops no more money |
| PacienteTrazas.SinCambiosEnFin | PacienteFSM.cs:80-190 | in Fin no admissible run changes the state or the money |
| PacienteTrazas.AplicarPreservaTraslado | PacienteFSM.cs:137-146 | one event, of any kind, keeps a patient who is not injured out of EsperandoTraslado and never changes whether it is injured |
| PacienteTrazas.TrasladoSoloHeridosEnRun | PacienteFSM.cs:137-146 | on every run, admissible or not, only injured patients are ever in EsperandoTraslado |
| PacienteTrazas.ConsultaReactivaAbandono | PacienteFSM.cs:247-263 | a room handed to an abandoning or finished patient makes it active again, without storing the room |
| PacienteTrazas.TickEnEspera | PacienteFSM.cs:65-119 | for a patient with an exit, one frame in the queue or waiting room only lowers patience, or starts abandonment once it is exhausted |
| PacienteTrazas.TickAbandonandoSinLlegar | PacienteFSM.cs:183-189 | a frame that does not reach the exit leaves an abandoning patient unchanged |
| PacienteTrazas.EsperaPorRestante | PacienteFSM.cs:65-77 | for a patient with an exit, n frames in the queue or waiting room leave the patient unchanged but for the meter while patience lasts, and abandoning afterwards |
| PacienteTrazas.PacienciaLineal | PacienteFSM.cs:65-77 | for a patient with an exit in the queue or waiting room, after n frames of `dt` patience is `p - n * dt * 0.5` while positive; from then on the patient is abandoning |
| PacienteTrazas.AbandonaALos200Segundos | PacienteFSM.cs:8-77 | left in the queue with an exit, the patient is still queuing after 199 one-second frames and abandoning after 200 and after 210 |
| PacienteTrazas.TickEnEsperaSinSalida | PacienteFSM.cs:65-77 | with a null exit, one frame in the queue or waiting room only lowers the meter, and throws exactly when it exhausts patience |
| PacienteTrazas.EsperaSinSalida | PacienteFSM.cs:65-77 | with a null exit, any number of frames in the queue or waiting room change only the meter: the patient never abandons |
| PrimerPersonaje.Datos.Update | PrimerPersonaje/Assets/Scripts/PacienteFSM.cs:59-177 | the meter falls by `dt * 0.5` exactly outside Saliendo/Abandonando/Fin; when this frame exhausts patience the movement target becomes the exit and the state Abandonando (throwing, with target and state kept, if the exit is null), with nothing else changed; a frame never writes references or flags; in Fin nothing changes |
| PrimerPersonaje.Datos.PacienciaAgotada | PrimerPersonaje/Assets/Scripts/PacienteFSM.cs:220 | patience is exhausted at a meter of zero or below |
| PrimerPersonaje.PacienteFSM.PacienciaAgotada | PrimerPersonaje/Assets/Scripts/PacienteFSM.cs:220 | the object's patience is exhausted iff its meter is zero or below, as `Datos.PacienciaAgotada` of its fields |
| PrimerPersonaje.PacienteFSM.ConsultaAsignada | PrimerPersonaje/Assets/Scripts/PacienteFSM.cs:221 | a room is assigned iff the stored room is not null |
| PrimerPersonaje.Datos.MoverAPosicion | PrimerPersonaje/Assets/Scripts/PacienteFSM.cs:179-187 | throws iff the target is null; otherwise the target is recorded; nothing else changes |
| PrimerPersonaje.Datos.Despachar | PrimerPersonaje/Assets/Scripts/PacienteFSM.cs:77-176 | the switch never touches the meter, the references or the notices; it drops at most one coin, only from EsperandoDiagnostico or SiendoOperado; it destroys the patient only on the move to Fin from Saliendo or Abandonando; in Fin it changes nothing |
| PrimerPersonaje.AbandonoSoloPorPaciencia | PrimerPersonaje/Assets/Scripts/PacienteFSM.cs:69-74 | a frame enters Abandonando only when it exhausts patience |
| PrimerPersonaje.PagoSoloAlSalir | PrimerPersonaje/Assets/Scripts/PacienteFSM.cs:69-150 | a frame drops money at most once, only from EsperandoDiagnostico or SiendoOperado towards Saliendo, never on abandonment |
| PrimerPersonaje.DestruccionSoloEnFin | PrimerPersonaje/Assets/Scripts/PacienteFSM.cs:153-205 | the patient is destroyed only on reaching Fin from Saliendo or Abandonando |
| PrimerPersonaje.FinSoloDesdeSalida | PrimerPersonaje/Assets/Scripts/PacienteFSM.cs:153-175 | a frame enters Fin only from Saliendo or Abandonando, on arrival at a non-null exit, destroying the patient |
| PrimerPersonaje.InicioACola | PrimerPersonaje/Assets/Scripts/PacienteFSM.cs:79-83 | Inicio goes to EsperandoEnCola unconditionally |
| PrimerPersonaje.SalidaDeLaCola | PrimerPersonaje/Assets/Scripts/PacienteFSM.cs:85-96 | EsperandoEnCola is left on the first frame that does not abandon: to MoviendoseAConsulta with a room, else to EsperandoEnSalaDeEspera with a seat; with neither the null seat throws and the patient stays |
| PrimerPersonaje.SalaDeEsperaSoloAConsulta | PrimerPersonaje/Assets/Scripts/PacienteFSM.cs:98-104 | EsperandoEnSalaDeEspera is left iff a room is assigned, and only for MoviendoseAConsulta |
| PrimerPersonaje.HaciaLaConsulta | PrimerPersonaje/Assets/Scripts/PacienteFSM.cs:106-114 | MoviendoseAConsulta re-issues the move to the room each frame and reaches EsperandoDiagnostico on the stretcher exactly on arrival; with the room cleared to null the frame throws and the patient stays |
| PrimerPersonaje.EsperandoDiagnosticoRamas | PrimerPersonaje/Assets/Scripts/PacienteFSM.cs:116-134 | the discharge flag wins (one money drop, target the exit); with the operation flag an injured patient goes to EsperandoTraslado, one who is not injured straight to SiendoOperado with target the operating room, never through EsperandoTraslado; each move throws iff its target is null; with neither flag only the meter changes |
| PrimerPersonaje.EsperasDeQuirofano | PrimerPersonaje/Assets/Scripts/PacienteFSM.cs:136-151 | EsperandoTraslado goes to SiendoOperado, towards a non-null operating room, iff the orderly arrived; with a null operating room the arrived orderly leaves the patient in EsperandoTraslado, the frame throwing, only the meter changed; SiendoOperado drops money iff the operation is done, and then goes to Saliendo towards the exit, or, with a null exit, throws and stays in SiendoOperado so that every later frame drops another coin |
| PrimerPersonaje.HaciaLaSalida | PrimerPersonaje/Assets/Scripts/PacienteFSM.cs:153-175 | Saliendo and Abandonando reach Fin (destroyed) on arrival, otherwise stay and re-issue the move to the exit, throwing iff it is null |
| PrimerPersonaje.Datos.RecibirConsultaAsignada | PrimerPersonaje/Assets/Scripts/PacienteFSM.cs:233-238 | in any state the room is stored and both diagnosis flags cleared; nothing else changes |
| PrimerPersonaje.Datos.RecibirAsientoAsignado | PrimerPersonaje/Assets/Scripts/PacienteFSM.cs:239 | only the seat is stored |
| PrimerPersonaje.Datos.RecibirDiagnostico | PrimerPersonaje/Assets/Scripts/PacienteFSM.cs:244-249 | as written: the operation flag becomes the negation of `requiereOperacion`, the discharge flag is untouched, the operating room is stored |
| PrimerPersonaje.Datos.RecibirDiagnosticoCorregido | PrimerPersonaje/Assets/Scripts/PacienteFSM.cs:244-249 | corrected: exactly one diagnosis flag is set, the operation flag iff an operation is required |
| PrimerPersonaje.DiagnosticoInvertido | PrimerPersonaje/Assets/Scripts/PacienteFSM.cs:244-249 | with the code as written, a patient told an operation is required keeps waiting for a diagnosis, and one told to go home is routed to surgery without paying |
| PrimerPersonaje.DiagnosticoCorregidoEncamina | PrimerPersonaje/Assets/Scripts/PacienteFSM.cs:116-249 | with the corrected diagnosis the next frame routes an operation to surgery (via EsperandoTraslado if injured) and a discharge to Saliendo with one money drop |
| PrimerPersonaje.Nuevo | PrimerPersonaje/Assets/Scripts/PacienteFSM.cs:9-26 | a new patient is in Inicio with patience 100, standing, off the stretcher, with no money dropped |
| PrimerPersonaje.PacienteFSM.constructor | PrimerPersonaje/Assets/Scripts/PacienteFSM.cs:9-26 | the object's fields are those of a new patient |
| PrimerPersonaje.PacienteFSM.Transicionar | PrimerPersonaje/Assets/Scripts/PacienteFSM.cs:44-48 | only the state changes |
| PrimerPersonaje.PacienteFSM.MoverAPosicion | PrimerPersonaje/Assets/Scripts/PacienteFSM.cs:179-187 | a null target throws at the caller's `.transform.position` and changes nothing; otherwise only the movement target changes |
| PrimerPersonaje.PacienteFSM.OcuparCamilla | PrimerPersonaje/Assets/Scripts/PacienteFSM.cs:189-194 | only the stretcher flag is set |
| PrimerPersonaje.PacienteFSM.DejarDinero | PrimerPersonaje/Assets/Scripts/PacienteFSM.cs:196-200 | only the money counter grows by one |
| PrimerPersonaje.PacienteFSM.AbandonarHospital | PrimerPersonaje/Assets/Scripts/PacienteFSM.cs:202-205 | only the destroyed flag is set |
| PrimerPersonaje.PacienteFSM.Sentarse | PrimerPersonaje/Assets/Scripts/PacienteFSM.cs:206-211 | only the seated flag is set (never called in this version) |
| PrimerPersonaje.PacienteFSM.Levantarse | PrimerPersonaje/Assets/Scripts/PacienteFSM.cs:213-218 | only the seated flag is cleared (never called in this version) |
| PrimerPersonaje.PacienteFSM.Update | PrimerPersonaje/Assets/Scripts/PacienteFSM.cs:59-177 | the object's new fields and exception are those `Datos.Update` specifies |
| PrimerPersonaje.PacienteFSM.Despachar | PrimerPersonaje/Assets/Scripts/PacienteFSM.cs:77-176 | the switch updates the object as the specification's switch does |
| PrimerPersonaje.PacienteFSM.DespacharLlegada | PrimerPersonaje/Assets/Scripts/PacienteFSM.cs:79-114 | the same, for the states up to the consultation |
| PrimerPersonaje.PacienteFSM.DespacharAtencion | PrimerPersonaje/Assets/Scripts/PacienteFSM.cs:116-151 | the same, for diagnosis, transfer and surgery |
| PrimerPersonaje.PacienteFSM.DespacharSalida | PrimerPersonaje/Assets/Scripts/PacienteFSM.cs:153-175 | the same, for Saliendo, Abandonando and Fin |
| PrimerPersonaje.PacienteFSM.RecibirConsultaAsignada | PrimerPersonaje/Assets/Scripts/PacienteFSM.cs:233-238 | as `Datos.RecibirConsultaAsignada` |
| PrimerPersonaje.PacienteFSM.RecibirAsientoAsignado | PrimerPersonaje/Assets/Scripts/PacienteFSM.cs:239 | as `Datos.RecibirAsientoAsignado` |
| PrimerPersonaje.PacienteFSM.RecibirDiagnostico | PrimerPersonaje/Assets/Scripts/PacienteFSM.cs:244-249 | as written, as `Datos.RecibirDiagnostico` |
| PrimerPersonaje.PacienteFSM.CeladorHaLlegado | PrimerPersonaje/Assets/Scripts/PacienteFSM.cs:250 | only the orderly flag is set |
| PrimerPersonaje.PacienteFSM.OperacionCompletada | PrimerPersonaje/Assets/Scripts/PacienteFSM.cs:251 | only the operation-done flag is set |
| PrimerPersonajeTrazas.SoloElTickCambiaEstado | PrimerPersonaje/Assets/Scripts/PacienteFSM.cs:233-251 | no call, the diagnosis as written included, moves the patient to another state, drops money or changes the injury |
| PrimerPersonajeTrazas.AplicarPreservaPago | PrimerPersonaje/Assets/Scripts/PacienteFSM.cs:116-150 | one event keeps money and state in agreement: none while active or abandoning, one once leaving after care |
| PrimerPersonajeTrazas.PagoCoherenteEnRun | PrimerPersonaje/Assets/Scripts/PacienteFSM.cs:69-150 | every run of the code as written (diagnosis included) keeps money and state in agreement, for a patient with an exit |
| PrimerPersonajeTrazas.PagoRepetidoSinSalida | PrimerPersonaje/Assets/Scripts/PacienteFSM.cs:116-122 | with a null exit, a discharged patient drops money on each of two frames (the move to the exit throws after `DejarDinero`) and stays in EsperandoDiagnostico |
| PrimerPersonajeTrazas.NuevoConPagoCoherente | PrimerPersonaje/Assets/Scripts/PacienteFSM.cs:9-26 | a new patient with an exit has paid nothing |
| PrimerPersonajeTrazas.AplicarEnAbandono | PrimerPersonaje/Assets/Scripts/PacienteFSM.cs:165-175 | one event leaves an abandoning patient abandoning or in Fin, with its money |
| PrimerPersonajeTrazas.AplicarEnFin | PrimerPersonaje/Assets/Scripts/PacienteFSM.cs:77-176 | one event leaves a finished patient in Fin, with its money |
| PrimerPersonajeTrazas.AbandonoSinPago | PrimerPersonaje/Assets/Scripts/PacienteFSM.cs:165-175 | from Abandonando every run stays in Abandonando or Fin and drops no money |
| PrimerPersonajeTrazas.SinCambiosEnFin | PrimerPersonaje/Assets/Scripts/PacienteFSM.cs:77-176 | in Fin no run changes the state or the money |
| PrimerPersonajeTrazas.AplicarPreservaTraslado | PrimerPersonaje/Assets/Scripts/PacienteFSM.cs:123-133 | one event keeps a patient who is not injured out of EsperandoTraslado |
| PrimerPersonajeTrazas.TrasladoSoloHeridosEnRun | PrimerPersonaje/Assets/Scripts/PacienteFSM.cs:123-133 | on every run, only injured patients are ever in EsperandoTraslado |
| PrimerPersonajeTrazas.AplicarSinCelador | PrimerPersonaje/Assets/Scripts/PacienteFSM.cs:136-142 | any event other than the orderly's arrival leaves a patient waiting for transfer, or gone |
| PrimerPersonajeTrazas.SinCeladorNoHayQuirofano | PrimerPersonaje/Assets/Scripts/PacienteFSM.cs:136-250 | a patient waiting for transfer reaches surgery only after `CeladorHaLlegado`: every run without it leaves the patient waiting or gone |
| PrimerPersonajeTrazas.TickEnEspera | PrimerPersonaje/Assets/Scripts/PacienteFSM.cs:62-74 | for a patient with an exit, one frame in a wait nothing ends (waiting room with no room, no diagnosis, no orderly, no operation) only lowers patience, or starts abandonment once it is exhausted |
| PrimerPersonajeTrazas.TickAbandonandoSinLlegar | PrimerPersonaje/Assets/Scripts/PacienteFSM.cs:165-175 | a frame that does not reach the exit leaves a patient already abandoning towards the exit unchanged (the move it re-issues is the one under way) |
| PrimerPersonajeTrazas.EsperaPorRestante | PrimerPersonaje/Assets/Scripts/PacienteFSM.cs:62-74 | for a patient with an exit, n frames in such a wait leave the patient unchanged but for the meter while patience lasts, and abandoning afterwards |
| PrimerPersonajeTrazas.PacienciaLineal | PrimerPersonaje/Assets/Scripts/PacienteFSM.cs:62-74 | for a patient with an exit in a passive wait (EsperaPasiva), after n frames of `dt` patience is `p - n * dt * 0.5` while positive; from then on the patient is abandoning |
| PrimerPersonajeTrazas.AbandonaALos200Segundos | PrimerPersonaje/Assets/Scripts/PacienteFSM.cs:9-74 | left in the waiting room with no room and with an exit, the patient is still waiting after 199 one-second frames and abandoning after 200 |
| PrimerPersonajeTrazas.TickEnEsperaSinSalida | PrimerPersonaje/Assets/Scripts/PacienteFSM.cs:62-74 | with a null exit, one frame in a passive wait only lowers the meter, and throws exactly when it exhausts patience |
| PrimerPersonajeTrazas.EsperaSinSalida | PrimerPersonaje/Assets/Scripts/PacienteFSM.cs:62-74 | with a null exit, any number of frames in a passive wait change only the meter: the patient never abandons |
| PrimerPersonajeTrazas.HastaElDiagnosticoEs | PrimerPersonaje/Assets/Scripts/PacienteFSM.cs:79-238 | queue, room assignment, walk and arrival leave the patient waiting for a diagnosis on the stretcher with 98.5 patience |
| PrimerPersonajeTrazas.AltaTerminaEnQuirofano | PrimerPersonaje/Assets/Scripts/PacienteFSM.cs:116-249 | with the diagnosis as written, a patient sent home ends up in surgery without paying |
| PrimerPersonajeTrazas.AltaTerminaEnSalida | PrimerPersonaje/Assets/Scripts/PacienteFSM.cs:116-121 | with the corrected diagnosis in place of the code's, the same patient leaves for the exit having paid once |
| Recepcionista.IndiceMasImpaciente | RecepcionistaBT.cs:86-111 | the scan over queue then waiting room ends on the first minimum below `float.MaxValue` (nobody less patient, everyone earlier strictly more patient), and on nobody iff every patience is at least `float.MaxValue` |
| Recepcionista.PasoDelEscaneo | RecepcionistaBT.cs:94-108 | one more patient moves the scan to that patient iff its patience is strictly below the minimum so far |
| Recepcionista.RevisarLista | RecepcionistaBT.cs:92-109 | one `foreach` continues the scan over a list from the patient and minimum held so far |
| Recepcionista.PrimerMinimoUnico | RecepcionistaBT.cs:94-104 | the first minimum is unique, so the strict comparison fixes the choice |
| Recepcionista.RecepcionistaBT.HaySalaDisponible | RecepcionistaBT.cs:69-72 | a room is free iff the list of available rooms is not empty |
| Recepcionista.RecepcionistaBT.HayPacientesEsperando | RecepcionistaBT.cs:74-77 | someone waits iff the queue followed by the waiting room, the scan's input, is not empty |
| Recepcionista.RecepcionistaBT.HayPacienteEnMostrador | RecepcionistaBT.cs:79-82 | someone is at the counter iff the queue is not empty, and then someone is waiting |
| Recepcionista.RecepcionistaBT.PriorizarPacienteMasImpaciente | RecepcionistaBT.cs:86-111 | the two scans return the patient at the first minimum of queue followed by waiting room, or null |
| Recepcionista.RecepcionistaBT.ElegidoEsMinimo | RecepcionistaBT.cs:86-111 | the choice is null iff nobody waits below the sentinel; otherwise it is a waiting patient and nobody waiting is less patient |
| Recepcionista.RecepcionistaBT.EnSalaDeEspera | RecepcionistaBT.cs:49 | `Contains` on the waiting-room list, by identity |
| Recepcionista.RecepcionistaBT.GestionarPrioridades | RecepcionistaBT.cs:43-82 | the decision is the one `DecisionDeGestion` fixes, and a room is assigned iff a room is free and someone waits |
| Recepcionista.RecepcionistaBT.Update | RecepcionistaBT.cs:30-41 | prioritisation runs iff the receptionist is at its post, otherwise it checks whether it has arrived |
| Recepcionista.RamasDeGestion | RecepcionistaBT.cs:43-67 | a room is assigned iff one is free and someone waits; the counter branch is taken iff no room is free and the queue is not empty; idle iff neither |
| Recepcionista.AsignacionAlMasImpaciente | RecepcionistaBT.cs:45-56 | a patient fetched from the waiting room is there, one sent to consultation directly is in the queue and not in the waiting room, and in both cases nobody waiting is less patient |
| Recepcionista.EmpateGanaLaCola | RecepcionistaBT.cs:92-109 | ties go to the queue: when a queue patient is as impatient as anyone waiting, the scan ends in the queue at or before it |
| Recepcionista.SinPacientesNadieElegido | RecepcionistaBT.cs:88-110 | with both collections empty the choice is null |
| Recepcionista.EscenarioCuarentaYDiez | RecepcionistaBT.cs:45-111 | one room, queue with patience 40 then 10: the second patient is sent to consultation |
| Recepcionista.EscenarioEmpateYSala | RecepcionistaBT.cs:45-111 | a tie between queue and waiting room goes to the queue; a waiting-room patient strictly less patient is fetched from the waiting room |
| Recepcionista.SinSalaNoSeAsigna | RecepcionistaBT.cs:45-82 | with no free room the receptionist never assigns: counter branch if the queue is not empty, idle otherwise |

## Left out

- Movement and geometry are not modelled. `NavMeshAgent`, `Vector3.Distance` and the 0.5-unit arrival threshold become the boolean `llegado`. `MoverAPosicion` records only its target. `navPaciente.enabled` and `isStopped` are not modelled.
- The model assumes `navPaciente` is present. `Awake`, which looks it up, is not modelled. With a missing agent, `HaLlegadoADestino` would always be false and `MoverAPosicion` would do nothing.
- Patience and `Time.deltaTime` are reals, not 32-bit floats, so float rounding is not modelled.
- `Debug.Log` and `Debug.LogError` are not modelled, including the log when the 13-state Inicio has no queue point.
- PacienteTrazas.PagoCoherenteEnRun: proved only for a patient with an exit (`salida` set). With a null exit the discharge and end-of-operation branches run `DejarDinero` on every frame before the move throws, as `PacienteTrazas.PagoRepetidoSinSalida` shows.
- PrimerPersonajeTrazas.PagoCoherenteEnRun: proved only for a patient with an exit, for the same reason (`PrimerPersonajeTrazas.PagoRepetidoSinSalida`).
- `DejarDinero` is a counter, and `Destroy(gameObject)` is a flag. The object goes on existing in the model after it is destroyed.
- An exception thrown in `Update` ends that frame only. The model keeps the fields written before the throw. It does not model what Unity logs.
- Resources are not returned to any pool when a patient leaves, and seat capacity is not checked. Neither version of the code does either.
- `MoverASalaYAsignar`, `AsignarConsulta` and `ComprobarSiHemosLlegado` are not defined in `RecepcionistaBT.cs`. They become `Decision` values, with no effect on queues or rooms.
- The counter branch at `RecepcionistaBT.cs:58-61` is empty in the code and is the value `RamaMostrador`.
- The receptionist sees each patient as an identity and a patience value read at the moment of the decision. Patients shared between the receptionist and the patient objects (aliasing) are not modelled.
- The receptionist's fields are never written by the code shown, so the receptionist is a value. Its methods change nothing.
- The scan's result is one index into the queue followed by the waiting room. An index below the queue's length means the queue.
- `RecepcionistaBT.cs` does not compile as shown. The model follows the evident intent:
  - the collection initialisers at lines 8-10;
  - `GetComponent` at line 22;
  - the missing `;` at line 110;
  - `HayPacientesEnMostrador` at line 58, which the model reads as `HayPacienteEnMostrador`;
  - the access to the private `medidorPaciencia` from another class.
- `listaConsultasDisponibles` is declared as a list of patients at `RecepcionistaBT.cs:10`. Only its size is read, so the model keeps it as a sequence of scene objects.
- `puntoMostrador`, `zonaNotificacionSalaEspera` and `pacienteANotificar` are never used by the code shown and are not modelled.
- `QuirofanoAsignado()`, `EstaHerido()` and `EstaEnConsulta`/`EstaEnQuirofano` are plain reads, inlined as field reads and `HaLlegadoADestino`.

## Findings

| source | as written | input that shows it | evidently intended | confidence | as-written member | corrected member |
|---|---|---|---|---|---|---|
| PrimerPersonaje/Assets/Scripts/PacienteFSM.cs:244-249 | `diagnosticoOperacionRecibido` is assigned twice, ending as `!requiereOperacion`; `diagnosticoAltaRecibido` is never set | a patient who is not injured, in EsperandoDiagnostico, gets `RecibirDiagnostico(false, q)`: the next frame sends it to SiendoOperado with no money dropped; `RecibirDiagnostico(true, q)` leaves it waiting for a diagnosis | the second assignment sets `diagnosticoAltaRecibido = !requiereOperacion`, as `PacienteFSM.cs:278-283` does | high; not executed | PrimerPersonaje.DiagnosticoInvertido, PrimerPersonajeTrazas.AltaTerminaEnQuirofano | PrimerPersonaje.Datos.RecibirDiagnosticoCorregido, PrimerPersonaje.DiagnosticoCorregidoEncamina, PrimerPersonajeTrazas.AltaTerminaEnSalida |

The class method `PrimerPersonaje.PacienteFSM.RecibirDiagnostico` and the runs of `PrimerPersonajeTrazas` keep the code as written, so the run invariants of that module hold for the code. The corrected diagnosis is applied only in `DiagnosticoCorregidoEncamina` and `AltaTerminaEnSalida`.
