/**
 * Sensor monitoring (`MonitoringViewModel`): a listener on the sensor
 * document and a test-only simulation loop that writes readings itself.  To
 * keep the listener from applying the echoes of those writes, the loop raises
 * `isSimulatingLocally` before each write and lowers it once a short window
 * has passed; while it is raised every delivery is ignored.
 *
 * Each started simulation loop is a coroutine that sleeps, writes, and waits
 * in its echo window, forever; `loops` records where each one is.  A loop
 * event for a loop in the other phase cannot occur and is modelled as doing
 * nothing.
 */
module Monitoring {
  import opened Wrappers
  import opened Model

  /** What the monitoring screen observes. */
  datatype MonitoringUiState = MonitoringUiState(
    sensorData: SensorData,
    isLoading: bool := true,
    errorMessage: Option<string> := None)

  /** Where a simulation loop is: sleeping before its next write, or in the window after it. */
  datatype LoopPhase = Sleeping | EchoWindow

  datatype Monitor = Monitor(
    ui: MonitoringUiState,
    isSimulatingLocally: bool,
    loops: seq<LoopPhase>,
    outbox: seq<SensorData>)

  /** The flag is raised only while some loop is inside its echo window. */
  predicate Inv(m: Monitor) {
    m.isSimulatingLocally ==> EchoWindow in m.loops
  }

  /** At construction the flag is down and no simulation runs. */
  function Initial(now: Int64): (m: Monitor)
    ensures Inv(m)
    ensures !m.isSimulatingLocally && m.loops == [] && m.outbox == []
    ensures m.ui.sensorData == SensorData(marcaTiempo := now) && m.ui.isLoading && m.ui.errorMessage.None?
  {
    Monitor(MonitoringUiState(EmptySensorData(now)), false, [], [])
  }

  /**
   * `onDataChange`: ignored entirely while the flag is raised; otherwise a
   * decoded delivery (the default document when empty) replaces the readings,
   * ends loading and clears the error, and an undecodable one only ends
   * loading with an error.
   */
  function DataChangeStep(m: Monitor, snapshot: Snapshot<SensorData>, now: Int64): (r: Monitor)
    ensures m.isSimulatingLocally ==> r == m
    ensures !m.isSimulatingLocally && snapshot.Decoded? ==>
      r == m.(ui := MonitoringUiState(snapshot.value.GetOr(EmptySensorData(now)), false, None))
    ensures !m.isSimulatingLocally && snapshot.Malformed? ==>
      r == m.(ui := m.ui.(isLoading := false, errorMessage := Some(ErrorText(snapshot.message))))
    ensures Inv(m) ==> Inv(r)
  {
    if m.isSimulatingLocally then m
    else
      match snapshot
      case Decoded(value) =>
        m.(ui := m.ui.(sensorData := value.GetOr(EmptySensorData(now)), isLoading := false, errorMessage := None))
      case Malformed(message) =>
        m.(ui := m.ui.(isLoading := false, errorMessage := Some(ErrorText(message))))
  }

  /** `onCancelled`: loading ends with an error; the readings stay. */
  function CancelledStep(m: Monitor, message: string): (r: Monitor)
    ensures r.ui.sensorData == m.ui.sensorData && !r.ui.isLoading
    ensures r.ui.errorMessage == Some(ErrorText(message))
    ensures r.isSimulatingLocally == m.isSimulatingLocally && r.loops == m.loops && r.outbox == m.outbox
    ensures Inv(m) ==> Inv(r)
  {
    m.(ui := m.ui.(isLoading := false, errorMessage := Some(ErrorText(message))))
  }

  /** `startSensorSimulation`: one more loop, asleep; nothing else changes. */
  function StartStep(m: Monitor): (r: Monitor)
    ensures r.loops == m.loops + [Sleeping]
    ensures r.ui == m.ui && r.isSimulatingLocally == m.isSimulatingLocally && r.outbox == m.outbox
    ensures Inv(m) ==> Inv(r)
  {
    m.(loops := m.loops + [Sleeping])
  }

  /** A loop is in the given phase. */
  predicate InPhase(m: Monitor, loop: nat, phase: LoopPhase) {
    loop < |m.loops| && m.loops[loop] == phase
  }

  /**
   * Loop `loop` wakes from its sleep: it raises the flag, then writes the
   * reading, and enters its echo window.
   */
  function SimulatedWriteStep(m: Monitor, loop: nat, data: SensorData): (r: Monitor)
    ensures !InPhase(m, loop, Sleeping) ==> r == m
    ensures InPhase(m, loop, Sleeping) ==>
      && r.isSimulatingLocally && InPhase(r, loop, EchoWindow)
      && r.loops == m.loops[loop := EchoWindow]
      && r.outbox == m.outbox + [data] && r.ui == m.ui
    ensures Inv(m) ==> Inv(r)
  {
    if InPhase(m, loop, Sleeping) then
      var raised := m.(isSimulatingLocally := true);
      raised.(outbox := raised.outbox + [data], loops := raised.loops[loop := EchoWindow])
    else m
  }

  /** Loop `loop`'s echo window ends: it lowers the flag and sleeps again. */
  function WindowEndStep(m: Monitor, loop: nat): (r: Monitor)
    ensures !InPhase(m, loop, EchoWindow) ==> r == m
    ensures InPhase(m, loop, EchoWindow) ==>
      && !r.isSimulatingLocally && r.loops == m.loops[loop := Sleeping]
      && r.ui == m.ui && r.outbox == m.outbox
    ensures Inv(m) ==> Inv(r)
  {
    if InPhase(m, loop, EchoWindow) then
      m.(isSimulatingLocally := false, loops := m.loops[loop := Sleeping])
    else m
  }

  /** `stopSensorSimulation`: lowers the flag and nothing else; the loops keep running. */
  function StopStep(m: Monitor): (r: Monitor)
    ensures !r.isSimulatingLocally
    ensures r.ui == m.ui && r.loops == m.loops && r.outbox == m.outbox
    ensures Inv(r)
  {
    m.(isSimulatingLocally := false)
  }

  /** The failure callback of a simulated write: only the error changes. */
  function WriteFailureStep(m: Monitor, message: string): (r: Monitor)
    ensures r.ui.errorMessage == Some(ErrorText(message))
    ensures r.ui.sensorData == m.ui.sensorData && r.ui.isLoading == m.ui.isLoading
    ensures r.isSimulatingLocally == m.isSimulatingLocally && r.loops == m.loops && r.outbox == m.outbox
    ensures Inv(m) ==> Inv(r)
  {
    m.(ui := m.ui.(errorMessage := Some(ErrorText(message))))
  }

  /** `clearError`: only the error changes, to none. */
  function ClearErrorStep(m: Monitor): (r: Monitor)
    ensures r.ui.errorMessage.None?
    ensures r.ui.sensorData == m.ui.sensorData && r.ui.isLoading == m.ui.isLoading
    ensures r.isSimulatingLocally == m.isSimulatingLocally && r.loops == m.loops && r.outbox == m.outbox
    ensures Inv(m) ==> Inv(r)
  {
    m.(ui := m.ui.(errorMessage := None))
  }

  datatype Event =
    | DataChange(snapshot: Snapshot<SensorData>, now: Int64)
    | ReadCancelled(message: string)
    | StartSimulation
    | SimulatedWrite(loop: nat, data: SensorData)
    | WindowEnd(loop: nat)
    | StopSimulation
    | WriteFailed(message: string)
    | ErrorCleared

  function Step(m: Monitor, e: Event): (r: Monitor)
    ensures Inv(m) ==> Inv(r)
  {
    match e
    case DataChange(snapshot, now) => DataChangeStep(m, snapshot, now)
    case ReadCancelled(message) => CancelledStep(m, message)
    case StartSimulation => StartStep(m)
    case SimulatedWrite(loop, data) => SimulatedWriteStep(m, loop, data)
    case WindowEnd(loop) => WindowEndStep(m, loop)
    case StopSimulation => StopStep(m)
    case WriteFailed(message) => WriteFailureStep(m, message)
    case ErrorCleared => ClearErrorStep(m)
  }

  function Run(m: Monitor, es: seq<Event>): Monitor
    decreases |es|
  {
    if es == [] then m else Run(Step(m, es[0]), es[1..])
  }

  lemma {:induction false} RunKeepsInv(m: Monitor, es: seq<Event>)
    requires Inv(m)
    ensures Inv(Run(m, es))
    decreases |es|
  {
    if es != [] {
      RunKeepsInv(Step(m, es[0]), es[1..]);
    }
  }

  /** In every reachable state the flag is raised only inside some loop's echo window. */
  lemma ReachableStatesKeepInv(now: Int64, es: seq<Event>)
    ensures Inv(Run(Initial(now), es))
  {
    RunKeepsInv(Initial(now), es);
  }

  /** Without a simulation loop the flag is never raised and every delivery is applied. */
  lemma {:induction false} NoSimulationNoSuppression(m: Monitor, es: seq<Event>)
    requires Inv(m) && m.loops == []
    requires forall i :: 0 <= i < |es| ==> !es[i].StartSimulation?
    ensures Run(m, es).loops == [] && !Run(m, es).isSimulatingLocally
    decreases |es|
  {
    if es != [] {
      NoSimulationNoSuppression(Step(m, es[0]), es[1..]);
    }
  }

  /**
   * The echo of a simulated write that arrives inside the window is ignored,
   * whatever it holds; a delivery after the window has ended is applied.
   */
  lemma EchoSuppressedWithinWindow(m: Monitor, loop: nat, data: SensorData,
                                   echo: Snapshot<SensorData>, t: Int64, later: SensorData, t2: Int64)
    requires InPhase(m, loop, Sleeping)
    ensures var written := SimulatedWriteStep(m, loop, data);
      && DataChangeStep(written, echo, t) == written
      && written.outbox == m.outbox + [data]
      && var reopened := WindowEndStep(DataChangeStep(written, echo, t), loop);
         && reopened.ui == m.ui
         && DataChangeStep(reopened, Decoded(Some(later)), t2).ui == MonitoringUiState(later, false, None)
  {
  }

  class MonitoringViewModel {
    var uiState: MonitoringUiState
    var isSimulatingLocally: bool
    /** The simulation coroutines started so far, and where each one is. */
    var loops: seq<LoopPhase>
    /** The readings handed to the remote store, oldest first. */
    ghost var outbox: seq<SensorData>

    ghost function Abs(): Monitor
      reads this
    {
      Monitor(uiState, isSimulatingLocally, loops, outbox)
    }

    ghost predicate Valid()
      reads this
    {
      Inv(Abs())
    }

    constructor (now: Int64)
      ensures Valid() && Abs() == Initial(now)
    {
      uiState := MonitoringUiState(SensorData(marcaTiempo := now));
      isSimulatingLocally := false;
      loops := [];
      outbox := [];
    }

    method OnDataChange(snapshot: Snapshot<SensorData>, now: Int64)
      requires Valid()
      modifies this
      ensures Valid() && Abs() == DataChangeStep(old(Abs()), snapshot, now)
    {
      if !isSimulatingLocally {
        match snapshot
        case Decoded(value) =>
          var data := value.GetOr(EmptySensorData(now));
          uiState := uiState.(sensorData := data, isLoading := false, errorMessage := None);
        case Malformed(message) =>
          uiState := uiState.(isLoading := false, errorMessage := Some(ErrorText(message)));
      }
    }

    method OnCancelled(message: string)
      requires Valid()
      modifies this
      ensures Valid() && Abs() == CancelledStep(old(Abs()), message)
    {
      uiState := uiState.(isLoading := false, errorMessage := Some(ErrorText(message)));
    }

    method StartSensorSimulation()
      requires Valid()
      modifies this
      ensures Valid() && Abs() == StartStep(old(Abs()))
    {
      loops := loops + [Sleeping];
    }

    /** The body of a simulation loop after its three-second sleep. */
    method SimulatedWrite(loop: nat, data: SensorData)
      requires Valid()
      modifies this
      ensures Valid() && Abs() == SimulatedWriteStep(old(Abs()), loop, data)
    {
      if loop < |loops| && loops[loop] == Sleeping {
        isSimulatingLocally := true;
        outbox := outbox + [data];
        loops := loops[loop := EchoWindow];
        assert loops[loop] == EchoWindow;
      }
    }

    /** The rest of a simulation loop's body, after its 200 ms window. */
    method WindowEnd(loop: nat)
      requires Valid()
      modifies this
      ensures Valid() && Abs() == WindowEndStep(old(Abs()), loop)
    {
      if loop < |loops| && loops[loop] == EchoWindow {
        isSimulatingLocally := false;
        loops := loops[loop := Sleeping];
      }
    }

    method StopSensorSimulation()
      requires Valid()
      modifies this
      ensures Valid() && Abs() == StopStep(old(Abs()))
    {
      isSimulatingLocally := false;
    }

    method OnWriteFailure(message: string)
      requires Valid()
      modifies this
      ensures Valid() && Abs() == WriteFailureStep(old(Abs()), message)
    {
      uiState := uiState.(errorMessage := Some(ErrorText(message)));
    }

    method ClearError()
      requires Valid()
      modifies this
      ensures Valid() && Abs() == ClearErrorStep(old(Abs()))
    {
      uiState := uiState.(errorMessage := None);
    }
  }
}
