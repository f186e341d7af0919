/** Scene-level vocabulary shared by the patient state machines and the receptionist. */
module Escena {

  /** A value that may be absent (a C# reference that may be null). */
  datatype Option<+T> = None | Some(value: T)

  /** A scene object (queue point, seat, consultation room, operating room, exit), by identity. */
  datatype Objeto = Objeto(id: nat)

  /** A `GameObject` field or argument: a scene object or null. */
  type Ref = Option<Objeto>

  /** Patience a patient starts with (`medidorPaciencia = 100f`). */
  const PacienciaInicial: real := 100.0

  /** Patience lost per second of simulated time (`Time.deltaTime * 0.5f`). */
  const Decaimiento: real := 0.5

  /**
   * `HaLlegadoADestino(destino)`: false for a null destination; otherwise the
   * mover's answer, given here as the oracle `llegado` (within 0.5 units of the
   * destination and no path pending).
   */
  predicate HaLlegadoADestino(destino: Ref, llegado: bool)
    ensures HaLlegadoADestino(destino, llegado) ==> destino != None
    ensures destino != None ==> (HaLlegadoADestino(destino, llegado) <==> llegado)
  {
    destino.Some? && llegado
  }

  /** The meter of an active patient after n frames of dt seconds. */
  function Restante(m: real, dt: real, n: nat): real
    decreases n
  {
    if n == 0 then m else Restante(m, dt, n - 1) - dt * Decaimiento
  }

  /** The decay is linear: n frames cost n * dt * 0.5. */
  lemma {:induction false} RestanteLineal(m: real, dt: real, n: nat)
    ensures Restante(m, dt, n) == m - (n as real) * dt * Decaimiento
    decreases n
  {
    if n > 0 {
      RestanteLineal(m, dt, n - 1);
      assert (n as real) * dt == ((n - 1) as real) * dt + dt;
    }
  }
}
