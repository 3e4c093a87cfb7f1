/**
 * The gate controller (`ControlViewModel`): the cached gate document, the
 * loading flag and error text shown by the screens, and the single automatic
 * close countdown.
 *
 * The view model runs on the main thread, so remote deliveries, countdown
 * ticks and screen commands happen one at a time; each is one event below.
 * The countdown coroutine is a `Job`: starting one takes a fresh generation
 * number, and a tick carries the generation of the countdown that scheduled
 * it, so no tick of a cancelled countdown can act.  Remote writes are
 * appended to an outbox; apart from the shown remaining time, which the
 * countdown updates locally, the cache changes only when a delivery arrives.
 *
 * The first half is the controller as a transition system on values
 * (`Controller`, one step function per event, and the lemmas relating
 * events); the class `ControlViewModel` at the end is the view model itself,
 * whose methods are proved to take exactly those steps.
 */
module Control {
  import opened Wrappers
  import opened Model

  type PosInt32 = x: int | 0 < x <= 0x7FFF_FFFF witness 1

  /** What the gate screens observe. */
  datatype ControlUiState = ControlUiState(
    portonState: PortonState,
    isLoading: bool := true,
    errorMessage: Option<string> := None)

  /**
   * The auto-close coroutine: none (never started, cancelled or finished), or
   * waiting for its next one-second tick with `remainingSeconds` still to go.
   */
  datatype Job = Idle | Running(generation: nat, remainingSeconds: PosInt32)

  /** The whole state of the view model, with the writes it has issued. */
  datatype Controller = Controller(
    ui: ControlUiState,
    job: Job,
    generation: nat,
    outbox: seq<PortonState>)
  {
    function Cached(): PortonState { ui.portonState }
    function Remaining(): Int32 { ui.portonState.segundosRestantesCierreAuto }
  }

  /**
   * The invariant of every reachable state: the shown countdown is never
   * negative and is positive only while the cached gate is open in automatic
   * mode; a running countdown is the latest one started, the cache is open in
   * automatic mode, and the cache shows the countdown's own remaining time.
   */
  predicate Inv(c: Controller) {
    && c.Remaining() >= 0
    && (c.Remaining() > 0 ==> c.Cached().OpenInAutomatic())
    && (c.job.Running? ==>
          && c.job.generation == c.generation
          && c.Cached().OpenInAutomatic()
          && c.Remaining() == c.job.remainingSeconds)
  }

  /** A tick of generation `g` belongs to the countdown that is running now. */
  predicate Live(c: Controller, g: nat) {
    c.job.Running? && c.job.generation == g
  }

  /** Generation `g` was started at some point and is not running now. */
  predicate Retired(c: Controller, g: nat) {
    g <= c.generation && !Live(c, g)
  }

  /**
   * How one event may change the countdown: the generation counter never
   * goes back, and a job running afterwards is either the one that ran before
   * or one started by this event.
   */
  predicate JobEvolves(c: Controller, r: Controller) {
    && c.generation <= r.generation
    && (r.job.Running? ==>
          (c.job.Running? && r.job.generation == c.job.generation) || c.generation < r.job.generation)
  }

  /** The freshly constructed view model: default document, loading, no countdown. */
  function Initial(now: Int64): (c: Controller)
    ensures Inv(c)
    ensures c.Cached() == PortonState(ultimaActualizacion := now)
    ensures c.ui.isLoading && c.ui.errorMessage.None?
    ensures c.job.Idle? && c.outbox == []
  {
    Controller(ControlUiState(EmptyPortonState(now)), Idle, 0, [])
  }

  /** `updateLocalTimer`: the cache with a new remaining time, nothing written. */
  function WithRemaining(c: Controller, seconds: Int32): Controller {
    c.(ui := c.ui.(portonState := c.Cached().(segundosRestantesCierreAuto := seconds)))
  }

  /** `openPorton`: write the cached document opened, unless it is open already. */
  function OpenStep(c: Controller, now: Int64): (r: Controller)
    ensures c.Cached().estaAbierto ==> r == c
    ensures !c.Cached().estaAbierto ==>
      && r.ui == c.ui && r.job == c.job && r.generation == c.generation
      && r.outbox == c.outbox + [c.Cached().(estaAbierto := true, ultimaActualizacion := now)]
    ensures Inv(c) ==> Inv(r)
    ensures JobEvolves(c, r)
  {
    var current := c.Cached();
    if !current.estaAbierto then
      c.(outbox := c.outbox + [current.(estaAbierto := true, ultimaActualizacion := now)])
    else c
  }

  /**
   * `closePorton`: unless the cached document is closed already, cancel the
   * countdown and write the cached document closed.
   */
  function CloseStep(c: Controller, now: Int64): (r: Controller)
    ensures !c.Cached().estaAbierto ==> r == c
    ensures c.Cached().estaAbierto ==>
      && r.ui == c.ui && r.generation == c.generation && r.job.Idle?
      && r.outbox == c.outbox + [c.Cached().(estaAbierto := false, ultimaActualizacion := now)]
      && forall g: nat :: g <= c.generation ==> Retired(r, g)
    ensures Inv(c) ==> Inv(r)
    ensures JobEvolves(c, r)
  {
    var current := c.Cached();
    if current.estaAbierto then
      c.(job := Idle, outbox := c.outbox + [current.(estaAbierto := false, ultimaActualizacion := now)])
    else c
  }

  /**
   * `setManipulationMode`: a mode other than automatic cancels the countdown
   * (the shown remaining time is left as it is); any mode is written.
   */
  function SetModeStep(c: Controller, mode: ManipulationMode, now: Int64): (r: Controller)
    ensures r.ui == c.ui && r.generation == c.generation
    ensures r.outbox == c.outbox + [c.Cached().(modoManipulacion := mode, ultimaActualizacion := now)]
    ensures mode == Automatic ==> r.job == c.job
    ensures mode != Automatic ==> r.job.Idle? && forall g: nat :: g <= c.generation ==> Retired(r, g)
    ensures Inv(c) ==> Inv(r)
    ensures JobEvolves(c, r)
  {
    var c1 := if mode != Automatic then c.(job := Idle) else c;
    c1.(outbox := c1.outbox + [c1.Cached().(modoManipulacion := mode, ultimaActualizacion := now)])
  }

  /** `setClosingTime`: write any delay as given; no range check, no restart. */
  function SetClosingTimeStep(c: Controller, seconds: Int32, now: Int64): (r: Controller)
    ensures r.ui == c.ui && r.job == c.job && r.generation == c.generation
    ensures r.outbox == c.outbox + [c.Cached().(tiempoCierreSegundos := seconds, ultimaActualizacion := now)]
    ensures Inv(c) ==> Inv(r)
    ensures JobEvolves(c, r)
  {
    c.(outbox := c.outbox + [c.Cached().(tiempoCierreSegundos := seconds, ultimaActualizacion := now)])
  }

  /** The failure callback of any write: only the error text changes. */
  function WriteFailureStep(c: Controller, message: string): (r: Controller)
    ensures r.Cached() == c.Cached() && r.ui.isLoading == c.ui.isLoading
    ensures r.ui.errorMessage == Some(ErrorText(message))
    ensures r.job == c.job && r.generation == c.generation && r.outbox == c.outbox
    ensures Inv(c) ==> Inv(r)
  {
    c.(ui := c.ui.(errorMessage := Some(ErrorText(message))))
  }

  /** `clearError`: only the error text changes, to none. */
  function ClearErrorStep(c: Controller): (r: Controller)
    ensures r.Cached() == c.Cached() && r.ui.isLoading == c.ui.isLoading && r.ui.errorMessage.None?
    ensures r.job == c.job && r.generation == c.generation && r.outbox == c.outbox
    ensures Inv(c) ==> Inv(r)
  {
    c.(ui := c.ui.(errorMessage := None))
  }

  /**
   * `onCancelled` of the listener: loading ends with an error; the cache and
   * a running countdown are left alone.
   */
  function CancelledStep(c: Controller, message: string): (r: Controller)
    ensures r.Cached() == c.Cached() && !r.ui.isLoading && r.ui.errorMessage == Some(ErrorText(message))
    ensures r.job == c.job && r.generation == c.generation && r.outbox == c.outbox
    ensures Inv(c) ==> Inv(r)
  {
    c.(ui := c.ui.(isLoading := false, errorMessage := Some(ErrorText(message))))
  }

  /**
   * `handleAutoClose(state)`, applied once `state` is in the cache: cancel the
   * old countdown; if the gate is open in automatic mode, show the full delay
   * and start a new countdown, whose coroutine closes at once when the delay
   * is not positive; otherwise show no countdown.
   */
  function AutoCloseRestart(c: Controller, state: PortonState, now: Int64): Controller {
    var c1 := c.(job := Idle);
    if state.OpenInAutomatic() then
      var closingTime := state.tiempoCierreSegundos;
      var c2 := WithRemaining(c1, closingTime).(generation := c.generation + 1);
      if closingTime > 0 then c2.(job := Running(c2.generation, closingTime))
      else if c2.Cached().OpenInAutomatic() then CloseStep(WithRemaining(c2, 0), now)
      else c2
    else WithRemaining(c1, 0)
  }

  /**
   * `onDataChange`: a decoded delivery (the default document when the path
   * is empty) replaces the cached document whole, ends loading, clears the
   * error and restarts the countdown from the document's own delay; a
   * delivery that fails to decode only ends loading with an error.
   */
  function DataChangeStep(c: Controller, snapshot: Snapshot<PortonState>, now: Int64): (r: Controller)
    ensures JobEvolves(c, r)
    ensures snapshot.Malformed? ==>
      r == c.(ui := c.ui.(isLoading := false, errorMessage := Some(ErrorText(snapshot.message))))
    ensures snapshot.Decoded? ==> Inv(r)
    ensures snapshot.Malformed? ==> (Inv(c) ==> Inv(r))
    ensures snapshot.Decoded? ==>
      var s := snapshot.value.GetOr(EmptyPortonState(now));
      && r.ui == ControlUiState(s.(segundosRestantesCierreAuto := r.Remaining()), false, None)
      && (forall g: nat :: g <= c.generation ==> Retired(r, g))
      && (s.OpenInAutomatic() && s.tiempoCierreSegundos > 0 ==>
            && r.job == Running(c.generation + 1, s.tiempoCierreSegundos)
            && r.Remaining() == s.tiempoCierreSegundos
            && r.outbox == c.outbox)
      && (s.OpenInAutomatic() && s.tiempoCierreSegundos <= 0 ==>
            && r.job.Idle? && r.Remaining() == 0
            && r.outbox == c.outbox + [s.(segundosRestantesCierreAuto := 0, estaAbierto := false, ultimaActualizacion := now)])
      && (!s.OpenInAutomatic() ==> r.job.Idle? && r.Remaining() == 0 && r.outbox == c.outbox)
  {
    match snapshot
    case Malformed(message) =>
      c.(ui := c.ui.(isLoading := false, errorMessage := Some(ErrorText(message))))
    case Decoded(value) =>
      var state := value.GetOr(EmptyPortonState(now));
      AutoCloseRestart(c.(ui := ControlUiState(state, false, None)), state, now)
  }

  /**
   * One resumption of the countdown loop after its one-second delay.  A tick
   * of any generation but the running one does nothing.  Otherwise the
   * remaining time drops by one and is shown; if the cached gate is no longer
   * open in automatic mode the countdown ends showing zero; if time is left it
   * waits again; at zero it shows zero and closes the gate.
   */
  function TickStep(c: Controller, g: nat, now: Int64): (r: Controller)
    ensures !Live(c, g) ==> r == c
    ensures JobEvolves(c, r) && r.generation == c.generation
    ensures Inv(c) ==> Inv(r)
    ensures Live(c, g) && !c.Cached().OpenInAutomatic() ==>
      r == WithRemaining(c, 0).(job := Idle)
    ensures Inv(c) && Live(c, g) && c.job.remainingSeconds > 1 ==>
      r == WithRemaining(c, c.job.remainingSeconds - 1).(job := Running(g, c.job.remainingSeconds - 1))
    ensures Inv(c) && Live(c, g) && c.job.remainingSeconds == 1 ==>
      && r.job.Idle?
      && r.ui == c.ui.(portonState := c.Cached().(segundosRestantesCierreAuto := 0))
      && r.outbox == c.outbox + [c.Cached().(segundosRestantesCierreAuto := 0, estaAbierto := false, ultimaActualizacion := now)]
  {
    if !Live(c, g) then c
    else
      var remaining := c.job.remainingSeconds - 1;
      var c1 := WithRemaining(c, remaining);
      if !c1.Cached().OpenInAutomatic() then WithRemaining(c1, 0).(job := Idle)
      else if remaining > 0 then c1.(job := Running(g, remaining))
      else
        var c2 := c1.(job := Idle);
        if c2.Cached().OpenInAutomatic() then CloseStep(WithRemaining(c2, 0), now) else c2
  }

  /** The events the view model reacts to. */
  datatype Event =
    | DataChange(snapshot: Snapshot<PortonState>, now: Int64)
    | ReadCancelled(message: string)
    | TimerTick(tickGeneration: nat, now: Int64)
    | Open(now: Int64)
    | Close(now: Int64)
    | ChangeMode(mode: ManipulationMode, now: Int64)
    | ChangeClosingTime(seconds: Int32, now: Int64)
    | WriteFailed(message: string)
    | ErrorCleared

  function Step(c: Controller, e: Event): (r: Controller)
    ensures Inv(c) ==> Inv(r)
    ensures JobEvolves(c, r)
  {
    match e
    case DataChange(snapshot, now) => DataChangeStep(c, snapshot, now)
    case ReadCancelled(message) => CancelledStep(c, message)
    case TimerTick(g, now) => TickStep(c, g, now)
    case Open(now) => OpenStep(c, now)
    case Close(now) => CloseStep(c, now)
    case ChangeMode(mode, now) => SetModeStep(c, mode, now)
    case ChangeClosingTime(seconds, now) => SetClosingTimeStep(c, seconds, now)
    case WriteFailed(message) => WriteFailureStep(c, message)
    case ErrorCleared => ClearErrorStep(c)
  }

  /** The state after a sequence of events, in order. */
  function Run(c: Controller, es: seq<Event>): Controller
    decreases |es|
  {
    if es == [] then c else Run(Step(c, es[0]), es[1..])
  }

  /** `n` ticks of generation `g`, all at time `now`. */
  function Ticks(c: Controller, g: nat, n: nat, now: Int64): Controller {
    if n == 0 then c else TickStep(Ticks(c, g, n - 1, now), g, now)
  }

  // ---------------------------------------------------------------------
  // Properties over several events
  // ---------------------------------------------------------------------

  lemma {:induction false} RunKeepsInv(c: Controller, es: seq<Event>)
    requires Inv(c)
    ensures Inv(Run(c, es))
    decreases |es|
  {
    if es != [] {
      RunKeepsInv(Step(c, es[0]), es[1..]);
    }
  }

  /** The invariant holds after every sequence of events from construction. */
  lemma ReachableStatesKeepInv(now: Int64, es: seq<Event>)
    ensures Inv(Run(Initial(now), es))
  {
    RunKeepsInv(Initial(now), es);
  }

  /** Once a generation is retired no later event brings it back. */
  lemma {:induction false} RetiredStaysRetired(c: Controller, es: seq<Event>, g: nat)
    requires Retired(c, g)
    ensures Retired(Run(c, es), g)
    decreases |es|
  {
    if es != [] {
      RetiredStaysRetired(Step(c, es[0]), es[1..], g);
    }
  }

  /** A tick of a retired generation changes nothing, however late it comes. */
  lemma StaleTickIsInert(c: Controller, es: seq<Event>, g: nat, now: Int64)
    requires Retired(c, g)
    ensures TickStep(Run(c, es), g, now) == Run(c, es)
  {
    RetiredStaysRetired(c, es, g);
  }

  /** Without a delivery in between, the shown remaining time never rises. */
  lemma {:induction false} RemainingNeverRisesWithoutDelivery(c: Controller, es: seq<Event>)
    requires Inv(c)
    requires forall i :: 0 <= i < |es| ==> !es[i].DataChange?
    ensures Run(c, es).Remaining() <= c.Remaining()
    decreases |es|
  {
    if es != [] {
      var c1 := Step(c, es[0]);
      assert c1.Remaining() <= c.Remaining();
      RemainingNeverRisesWithoutDelivery(c1, es[1..]);
    }
  }

  /** Each of the first `k` ticks lowers the remaining time by one and writes nothing. */
  lemma {:induction false} CountdownProgress(c: Controller, k: nat, now: Int64)
    requires Inv(c) && c.job.Running? && k < c.job.remainingSeconds
    ensures Ticks(c, c.job.generation, k, now) ==
      WithRemaining(c, c.job.remainingSeconds - k).(job := Running(c.job.generation, c.job.remainingSeconds - k))
  {
    if k > 0 {
      CountdownProgress(c, k - 1, now);
    }
  }

  /**
   * After as many ticks as the countdown has seconds left, the gate has been
   * closed by exactly one write, no countdown runs and zero is shown.
   */
  lemma CountdownExpires(c: Controller, now: Int64)
    requires Inv(c) && c.job.Running?
    ensures var r := Ticks(c, c.job.generation, c.job.remainingSeconds, now);
      && r.job.Idle? && r.generation == c.generation && Retired(r, c.job.generation)
      && r.ui == c.ui.(portonState := c.Cached().(segundosRestantesCierreAuto := 0))
      && r.outbox == c.outbox + [c.Cached().(segundosRestantesCierreAuto := 0, estaAbierto := false, ultimaActualizacion := now)]
  {
    CountdownProgress(c, c.job.remainingSeconds - 1, now);
  }

  /**
   * A delivery of an open, automatic document with delay `d > 0`, followed by
   * `d` ticks, issues exactly one write: that document closed, showing zero.
   */
  lemma AutoCloseFiresOnce(c: Controller, s: PortonState, t0: Int64, now: Int64)
    requires s.OpenInAutomatic() && s.tiempoCierreSegundos > 0
    ensures var started := DataChangeStep(c, Decoded(Some(s)), t0);
      var r := Ticks(started, c.generation + 1, s.tiempoCierreSegundos, now);
      && r.job.Idle? && r.Remaining() == 0
      && r.outbox == c.outbox + [s.(segundosRestantesCierreAuto := 0, estaAbierto := false, ultimaActualizacion := now)]
  {
    CountdownExpires(DataChangeStep(c, Decoded(Some(s)), t0), now);
  }

  /**
   * Restart, not resume: `k` ticks into the countdown, a delivery of the same
   * document shows the full delay again under a new generation.
   */
  lemma DeliveryRestartsCountdown(c: Controller, s: PortonState, t0: Int64, k: nat, now: Int64, t1: Int64)
    requires s.OpenInAutomatic() && 0 < k < s.tiempoCierreSegundos
    ensures var started := DataChangeStep(c, Decoded(Some(s)), t0);
      var ticked := Ticks(started, c.generation + 1, k, now);
      var again := DataChangeStep(ticked, Decoded(Some(s)), t1);
      && ticked.Remaining() == s.tiempoCierreSegundos - k
      && again.Remaining() == s.tiempoCierreSegundos
      && again.job == Running(c.generation + 2, s.tiempoCierreSegundos)
  {
    CountdownProgress(DataChangeStep(c, Decoded(Some(s)), t0), k, now);
  }

  /**
   * A manual close while a countdown runs writes once and cancels it: no tick
   * of that countdown, after any further events, changes anything.
   */
  lemma CloseSuppressesStaleExpiry(c: Controller, now: Int64, es: seq<Event>, tickNow: Int64)
    requires Inv(c) && c.job.Running?
    ensures var closed := CloseStep(c, now);
      && |closed.outbox| == |c.outbox| + 1 && !closed.outbox[|c.outbox|].estaAbierto
      && TickStep(Run(closed, es), c.job.generation, tickNow) == Run(closed, es)
  {
    StaleTickIsInert(CloseStep(c, now), es, c.job.generation, tickNow);
  }

  /**
   * Leaving automatic mode stops the countdown at once, but the shown
   * remaining time stays as it was until the echo of the mode change is
   * delivered, which shows zero.
   */
  lemma ModeChangeStopsCountdown(c: Controller, mode: ManipulationMode, now: Int64, es: seq<Event>, tickNow: Int64, t: Int64)
    requires Inv(c) && c.job.Running? && mode != Automatic
    ensures var r := SetModeStep(c, mode, now);
      && r.Remaining() == c.Remaining() > 0
      && TickStep(Run(r, es), c.job.generation, tickNow) == Run(r, es)
      && DataChangeStep(r, Decoded(Some(r.outbox[|r.outbox| - 1])), t).Remaining() == 0
  {
    StaleTickIsInert(SetModeStep(c, mode, now), es, c.job.generation, tickNow);
  }

  /**
   * Closing twice before the echo of the first close arrives writes twice;
   * once the echo has been delivered, closing again does nothing.
   */
  lemma CloseIsNoOpOnlyAfterEcho(c: Controller, now: Int64, t: Int64, later: Int64)
    requires c.Cached().estaAbierto
    ensures var once := CloseStep(c, now);
      && |CloseStep(once, later).outbox| == |c.outbox| + 2
      && var echoed := DataChangeStep(once, Decoded(Some(once.outbox[|once.outbox| - 1])), t);
         CloseStep(echoed, later) == echoed && echoed.job.Idle? && echoed.Remaining() == 0
  {
  }

  /** The controller itself lets commands through in disabled mode. */
  lemma CommandsIgnoreDisabledMode(c: Controller, now: Int64)
    requires c.Cached().modoManipulacion == Disabled
    ensures !c.Cached().estaAbierto ==> |OpenStep(c, now).outbox| == |c.outbox| + 1
    ensures c.Cached().estaAbierto ==> |CloseStep(c, now).outbox| == |c.outbox| + 1
  {
  }

  // ---------------------------------------------------------------------
  // The view model
  // ---------------------------------------------------------------------

  class ControlViewModel {
    var uiState: ControlUiState
    var autoCloseJob: Job
    var generation: nat
    /** The documents handed to the remote store, oldest first. */
    ghost var outbox: seq<PortonState>

    ghost function Abs(): Controller
      reads this
    {
      Controller(uiState, autoCloseJob, generation, outbox)
    }

    ghost predicate Valid()
      reads this
    {
      Inv(Abs())
    }

    constructor (now: Int64)
      ensures Valid() && Abs() == Initial(now)
    {
      uiState := ControlUiState(PortonState(ultimaActualizacion := now));
      autoCloseJob := Idle;
      generation := 0;
      outbox := [];
    }

    method OnDataChange(snapshot: Snapshot<PortonState>, now: Int64)
      requires Valid()
      modifies this
      ensures Valid() && Abs() == DataChangeStep(old(Abs()), snapshot, now)
    {
      match snapshot
      case Malformed(message) =>
        uiState := uiState.(isLoading := false, errorMessage := Some(ErrorText(message)));
      case Decoded(value) =>
        var state := value.GetOr(EmptyPortonState(now));
        uiState := uiState.(portonState := state, isLoading := false, errorMessage := None);
        HandleAutoClose(state, now);
    }

    method OnCancelled(message: string)
      requires Valid()
      modifies this
      ensures Valid() && Abs() == CancelledStep(old(Abs()), message)
    {
      uiState := uiState.(isLoading := false, errorMessage := Some(ErrorText(message)));
    }

    method HandleAutoClose(state: PortonState, now: Int64)
      modifies this
      ensures Abs() == AutoCloseRestart(old(Abs()), state, now)
    {
      autoCloseJob := Idle;
      if state.OpenInAutomatic() {
        var closingTime := state.tiempoCierreSegundos;
        var remainingSeconds := closingTime;
        UpdateLocalTimer(remainingSeconds);
        generation := generation + 1;
        if remainingSeconds > 0 {
          autoCloseJob := Running(generation, remainingSeconds);
        } else {
          // the new coroutine skips its loop and closes straight away
          var currentState := uiState.portonState;
          if currentState.OpenInAutomatic() {
            UpdateLocalTimer(0);
            ClosePorton(now);
          }
        }
      } else {
        UpdateLocalTimer(0);
      }
    }

    method UpdateLocalTimer(remainingSeconds: Int32)
      modifies this
      ensures Abs() == WithRemaining(old(Abs()), remainingSeconds)
    {
      uiState := uiState.(portonState := uiState.portonState.(segundosRestantesCierreAuto := remainingSeconds));
    }

    method Tick(tickGeneration: nat, now: Int64)
      modifies this
      ensures Abs() == TickStep(old(Abs()), tickGeneration, now)
      ensures old(Valid()) ==> Valid()
    {
      if !(autoCloseJob.Running? && autoCloseJob.generation == tickGeneration) {
        return;
      }
      var remainingSeconds := autoCloseJob.remainingSeconds - 1;
      UpdateLocalTimer(remainingSeconds);
      var currentState := uiState.portonState;
      if !currentState.OpenInAutomatic() {
        UpdateLocalTimer(0);
        autoCloseJob := Idle;
        return;
      }
      if remainingSeconds > 0 {
        autoCloseJob := Running(tickGeneration, remainingSeconds);
        return;
      }
      // the loop is over; the coroutine ends after this
      autoCloseJob := Idle;
      currentState := uiState.portonState;
      if currentState.OpenInAutomatic() {
        UpdateLocalTimer(0);
        ClosePorton(now);
      }
    }

    method OpenPorton(now: Int64)
      requires Valid()
      modifies this
      ensures Valid() && Abs() == OpenStep(old(Abs()), now)
    {
      var currentState := uiState.portonState;
      if !currentState.estaAbierto {
        var newState := currentState.(estaAbierto := true, ultimaActualizacion := now);
        outbox := outbox + [newState];
      }
    }

    method ClosePorton(now: Int64)
      modifies this
      ensures Abs() == CloseStep(old(Abs()), now)
      ensures old(Valid()) ==> Valid()
    {
      var currentState := uiState.portonState;
      if currentState.estaAbierto {
        autoCloseJob := Idle;
        var newState := currentState.(estaAbierto := false, ultimaActualizacion := now);
        outbox := outbox + [newState];
      }
    }

    method SetManipulationMode(mode: ManipulationMode, now: Int64)
      requires Valid()
      modifies this
      ensures Valid() && Abs() == SetModeStep(old(Abs()), mode, now)
    {
      if mode != Automatic {
        autoCloseJob := Idle;
      }
      var currentState := uiState.portonState;
      var newState := currentState.(modoManipulacion := mode, ultimaActualizacion := now);
      outbox := outbox + [newState];
    }

    method SetClosingTime(seconds: Int32, now: Int64)
      requires Valid()
      modifies this
      ensures Valid() && Abs() == SetClosingTimeStep(old(Abs()), seconds, now)
    {
      var currentState := uiState.portonState;
      var newState := currentState.(tiempoCierreSegundos := seconds, ultimaActualizacion := now);
      outbox := outbox + [newState];
    }

    method OnWriteFailure(message: string)
      requires Valid()
      modifies this
      ensures Valid() && Abs() == WriteFailureStep(old(Abs()), message)
    {
      uiState := uiState.(errorMessage := Some(ErrorText(message)));
    }

    method ClearError()
      requires Valid()
      modifies this
      ensures Valid() && Abs() == ClearErrorStep(old(Abs()))
    {
      uiState := uiState.(errorMessage := None);
    }
  }
}
