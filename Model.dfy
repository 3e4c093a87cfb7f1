/**
 * The records of the app's data layer: the gate document stored under the
 * remote path "porton" (a `PortonState` with its `ManipulationMode`), the
 * sensor document stored under "sensors", and the user record of the local
 * login.  Kotlin's `Int` and `Long` are written out as 32- and 64-bit ranges.
 */
module Model {
  import opened Wrappers

  type Int32 = x: int | -0x8000_0000 <= x <= 0x7FFF_FFFF
  type Int64 = x: int | -0x8000_0000_0000_0000 <= x <= 0x7FFF_FFFF_FFFF_FFFF

  /** How the gate may be operated. */
  datatype ManipulationMode = Automatic | Manual | Disabled

  /** The order of `ManipulationMode.values()`. */
  const AllModes: seq<ManipulationMode> := [Automatic, Manual, Disabled]

  /**
   * The gate document.  The defaults are those of the Kotlin primary
   * constructor; the timestamp default is the clock, so it has none here and
   * is passed by name.  `segundosRestantesCierreAuto == 0` means that no
   * automatic close is counting down.
   */
  datatype PortonState = PortonState(
    estaAbierto: bool := false,
    modoManipulacion: ManipulationMode := Manual,
    tiempoCierreSegundos: Int32 := 30,
    ultimaActualizacion: Int64,
    segundosRestantesCierreAuto: Int32 := 0)
  {
    /** The condition under which the controller counts down. */
    predicate OpenInAutomatic() {
      estaAbierto && modoManipulacion == Automatic
    }
  }

  /** The no-argument constructor that the document store deserialises with. */
  function EmptyPortonState(now: Int64): (s: PortonState)
    ensures s == PortonState(ultimaActualizacion := now)
    ensures !s.estaAbierto && s.modoManipulacion == Manual
    ensures s.tiempoCierreSegundos == 30 && s.segundosRestantesCierreAuto == 0
    ensures s.ultimaActualizacion == now && !s.OpenInAutomatic()
  {
    PortonState(false, Manual, 30, now, 0)
  }

  /** The three modes are exactly the elements of `values()`, each once. */
  lemma ModesAreThree(m: ManipulationMode)
    ensures m in AllModes
    ensures |AllModes| == 3
    ensures forall i, j :: 0 <= i < j < |AllModes| ==> AllModes[i] != AllModes[j]
  {
  }

  /** The sensor document; its readings are carried but never inspected. */
  datatype SensorData = SensorData(
    distancia: real := 0.0,
    nivelLuz: real := 0.0,
    marcaTiempo: Int64)

  /** The no-argument constructor of `SensorData`. */
  function EmptySensorData(now: Int64): (d: SensorData)
    ensures d == SensorData(marcaTiempo := now)
    ensures d.marcaTiempo == now
  {
    SensorData(0.0, 0.0, now)
  }

  /** The user record of the local login. */
  datatype User = User(username: string := "", email: string := "", isAuthenticated: bool := false)

  /**
   * One delivery of a value listener: the document decoded (`None` when the
   * path holds nothing), or a decoding failure with its exception message.
   */
  datatype Snapshot<+T> = Decoded(value: Option<T>) | Malformed(message: string)

  /** The text that every handler of the app shows for a failure message. */
  function ErrorText(message: string): (r: string)
    ensures |r| == |message| + 7 && r[7..] == message
    ensures r[..7] == "Error: "
  {
    "Error: " + message
  }
}
