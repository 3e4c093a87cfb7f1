# portonApp gate controller, modelled in Dafny

portonApp is an Android app that drives a garage gate through a shared
remote document store. The gate document `porton` holds:

- whether the gate is open, and its operating mode (automatic, manual
  or disabled);
- the automatic closing delay, in seconds;
- the countdown the app shows while an automatic close is pending.

The app opens and closes the gate by writing that document. Its own copy
of the document changes in two ways. The countdown field is updated
locally on every restart and tick of the countdown. Every other field
changes only when the store delivers the document back (the "echo" of the
app's own write). In automatic mode an open
gate is closed by the app itself once the delay has run out.

This project models the core of the app:

- `Model` holds the records of the data layer: `PortonState`,
  `ManipulationMode`, `SensorData` and `User`, with their Kotlin defaults.
- `KotlinText` holds the Kotlin string operations the core relies on:
  `isDigit`, `isBlank`, `lowercase`, `Int.toString` and `toIntOrNull`.
- `Control` is the gate view model (`ControlViewModel`). It has two parts.
  - First, a transition system on values. `Controller` is the state. There
    is one step function per event: a remote delivery, a countdown tick, a
    command, a write failure. Lemmas relate sequences of events.
  - Second, the class `ControlViewModel`. Its methods are proved to make
    exactly those steps.
- `Monitoring` is the sensor view model (`MonitoringViewModel`). It models
  the listener and the simulation loops, together with the flag that
  suppresses the echoes of the loops' own writes.
- `Auth` is the local login (`AuthViewModel`). It checks three fixed
  accounts and matches the user name without regard to case.
- `ConfigScreen` is the closing-time field of the configuration screen. It
  covers the digit filter, the 5..120 range check, the error and enabling
  rules, and how the field is refilled from the cached delay.
- `PortonScreen` covers the decisions of the gate screen: the status label,
  when the countdown is shown, and when each button is enabled.

Writes to the store are appended to an `outbox` sequence, which is ghost
in the classes. A delivery is an explicit event carrying the decoded
document. The clock is a `now` parameter. Each resumption of a coroutine
after a `delay` is an event of its own.

The countdown coroutine is modelled as a `Job`. Each start of a
countdown takes a fresh generation number. Each tick carries the
generation of the countdown it belongs to. In this model, cancelling a
coroutine means that no tick of an older generation can act again.

`viewModelScope` runs on `Dispatchers.Main.immediate`. A launched
coroutine therefore runs at once, up to its first suspension. So when a
delivered document has a closing delay of zero or less, the gate is closed
during that same delivery.

Some behaviours of the code are easy to mistake:

- `setClosingTime` itself has no range check. Only the configuration
  screen refuses delays outside 5..120.
- Leaving automatic mode cancels the countdown, but the shown remaining
  time stays until the echo of the mode change arrives.
- Only the monitoring view model guards against its own echoes. The gate
  controller restarts its countdown, from the full delay, on every delivery
  of an open automatic document, including the echoes of its own writes.
- Closing the gate twice before the first echo arrives writes the
  document twice.
- `stopSensorSimulation` only lowers the suppression flag. The loops keep
  running, and the next write raises the flag again.
- The controller accepts open and close in disabled mode. Only the
  buttons of the gate screen honour that mode.

## Model

| member | source | states |
|---|---|---|
| Model.EmptyPortonState | app/src/main/java/com/example/portonapp/data/model/PortonState.kt:6-14 | The no-argument document is closed, manual, with a delay of 30 s and no countdown, stamped with the clock; it is not open in automatic mode |
| Model.ModesAreThree | app/src/main/java/com/example/portonapp/data/model/PortonState.kt:20-24 | Every mode is among the three values, which are pairwise distinct |
| Model.EmptySensorData | app/src/main/java/com/example/portonapp/data/model/SensorData.kt:6-12 | The no-argument sensor record has zero readings and the clock as its timestamp |
| Model.ErrorText | app/src/main/java/com/example/portonapp/viewmodel/ControlViewModel.kt:65-68 | The shown error text is the prefix "Error: " followed by the message unchanged |
| KotlinText.IsDigit | app/src/main/java/com/example/portonapp/ui/config/ConfigScreen.kt:69 | Definition: a character is a digit exactly when it lies in '0'..'9' |
| KotlinText.AllDigits | app/src/main/java/com/example/portonapp/ui/config/ConfigScreen.kt:69 | Definition: every character of the text is a digit (so the empty text qualifies) |
| KotlinText.IsWhitespace | app/src/main/java/com/example/portonapp/viewmodel/AuthViewModel.kt:27 | Definition: the JVM whitespace set, i.e. the controls U+0009..U+000D and U+001C..U+001F and the Unicode space, line and paragraph separators |
| KotlinText.IsBlank | app/src/main/java/com/example/portonapp/viewmodel/AuthViewModel.kt:27 | Definition: every character is whitespace, so the empty text is blank |
| KotlinText.BlankExamples | app/src/main/java/com/example/portonapp/viewmodel/AuthViewModel.kt:27 | Empty text and text of spaces, tabs, line breaks or no-break spaces are blank; one visible character makes text not blank |
| KotlinText.LowerChar | app/src/main/java/com/example/portonapp/viewmodel/AuthViewModel.kt:37 | An ASCII capital becomes its small letter; every other character is kept |
| KotlinText.Lowercase | app/src/main/java/com/example/portonapp/viewmodel/AuthViewModel.kt:37 | Lowering keeps the length and lowers each character in place |
| KotlinText.LowercaseIdempotent | app/src/main/java/com/example/portonapp/viewmodel/AuthViewModel.kt:37 | Lowering a lowered name changes nothing |
| KotlinText.NatToString | app/src/main/java/com/example/portonapp/ui/config/ConfigScreen.kt:26 | The decimal text of a natural number is non-empty, all digits, denotes that number and has no leading zero |
| KotlinText.IntToString | app/src/main/java/com/example/portonapp/ui/config/ConfigScreen.kt:26 | The text of an `Int` is all digits exactly when it is not negative; a negative one is a minus sign before the magnitude's digits |
| KotlinText.Signed | app/src/main/java/com/example/portonapp/ui/config/ConfigScreen.kt:81 | A magnitude with a sign gives a value exactly when it fits in 32 bits, and then the signed value |
| KotlinText.ToIntOrNull | app/src/main/java/com/example/portonapp/ui/config/ConfigScreen.kt:81 | Empty text gives no value. Digits, optionally after a single '+' or '-', give their signed value exactly when it fits in 32 bits. Any other text gives no value |
| KotlinText.ToIntOrNullOfToString | app/src/main/java/com/example/portonapp/ui/config/ConfigScreen.kt:26-31 | Parsing the text of any `Int` gives that `Int` back |
| Control.Initial | app/src/main/java/com/example/portonapp/viewmodel/ControlViewModel.kt:263-267 | The new view model holds the default document, is loading, has no error, no countdown and no writes, and satisfies the invariant |
| Control.WithRemaining | app/src/main/java/com/example/portonapp/viewmodel/ControlViewModel.kt:135-141 | Definition: the controller with only the cached countdown field replaced; its method partner is `Control.ControlViewModel.UpdateLocalTimer` |
| Control.AutoCloseRestart | app/src/main/java/com/example/portonapp/viewmodel/ControlViewModel.kt:87-132 | Definition: cancel the countdown; if open in automatic mode, show the full delay under a new generation, then either start the countdown (positive delay) or close at once; otherwise show zero. Its outcomes are stated and proved through `Control.DataChangeStep` |
| Control.DataChangeStep | app/src/main/java/com/example/portonapp/viewmodel/ControlViewModel.kt:49-70 | A decoded delivery (the default document when empty) replaces the cache, ends loading and clears the error. It retires every earlier countdown. Open in automatic mode with a positive delay, it starts a fresh countdown showing the full delay. Open in automatic mode with a delay of zero or less, it shows zero and writes the document closed. In any other case it shows zero. A malformed delivery only ends loading with the error. Every delivery leaves the invariant holding |
| Control.CancelledStep | app/src/main/java/com/example/portonapp/viewmodel/ControlViewModel.kt:72-78 | A cancelled listener ends loading with the error text; cache, countdown and writes are unchanged; the invariant is kept |
| Control.TickStep | app/src/main/java/com/example/portonapp/viewmodel/ControlViewModel.kt:100-127 | A tick of any generation but the running one changes nothing. Otherwise it lowers the shown time by one and keeps waiting while time is left. At the last second it shows zero, ends the countdown and writes the cached document closed. It ends showing zero if the cache has left open-automatic. The invariant is kept and the generation never moves |
| Control.OpenStep | app/src/main/java/com/example/portonapp/viewmodel/ControlViewModel.kt:147-167 | Opening an open gate changes nothing; otherwise exactly one write, the cached document opened and stamped, and nothing else changes |
| Control.CloseStep | app/src/main/java/com/example/portonapp/viewmodel/ControlViewModel.kt:173-196 | Closing a closed gate changes nothing; otherwise the countdown is cancelled, every generation so far is retired, and exactly one write of the cached document closed and stamped is issued |
| Control.SetModeStep | app/src/main/java/com/example/portonapp/viewmodel/ControlViewModel.kt:202-225 | Any mode is written once with the cache unchanged; a non-automatic mode cancels and retires the countdown, the automatic mode keeps it |
| Control.SetClosingTimeStep | app/src/main/java/com/example/portonapp/viewmodel/ControlViewModel.kt:231-249 | Any delay, unchecked, is written once into the cached document; cache and countdown stay |
| Control.WriteFailureStep | app/src/main/java/com/example/portonapp/viewmodel/ControlViewModel.kt:161-164 | A failed write only sets the error text |
| Control.ClearErrorStep | app/src/main/java/com/example/portonapp/viewmodel/ControlViewModel.kt:254-256 | Only the error is cleared |
| Control.Step | app/src/main/java/com/example/portonapp/viewmodel/ControlViewModel.kt:49-256 | Every event keeps the invariant, never lowers the generation, and leaves running only the previous countdown or a fresh one |
| Control.RunKeepsInv | app/src/main/java/com/example/portonapp/viewmodel/ControlViewModel.kt:87-141 | The invariant holds after any sequence of events from a state where it holds |
| Control.ReachableStatesKeepInv | app/src/main/java/com/example/portonapp/viewmodel/ControlViewModel.kt:25-39 | Every state reachable from construction has a non-negative countdown, positive only while open in automatic mode, and at most the latest countdown running |
| Control.RetiredStaysRetired | app/src/main/java/com/example/portonapp/viewmodel/ControlViewModel.kt:87-90 | A cancelled countdown never runs again, whatever events follow |
| Control.StaleTickIsInert | app/src/main/java/com/example/portonapp/viewmodel/ControlViewModel.kt:87-90 | A late tick of a cancelled countdown changes nothing |
| Control.RemainingNeverRisesWithoutDelivery | app/src/main/java/com/example/portonapp/viewmodel/ControlViewModel.kt:100-141 | Without a delivery the shown remaining time never rises |
| Control.CountdownProgress | app/src/main/java/com/example/portonapp/viewmodel/ControlViewModel.kt:100-117 | Each of the first k ticks lowers the shown time by one and writes nothing |
| Control.CountdownExpires | app/src/main/java/com/example/portonapp/viewmodel/ControlViewModel.kt:100-127 | After as many ticks as seconds remain, the countdown is over and retired, zero is shown and exactly one write closes the gate |
| Control.AutoCloseFiresOnce | app/src/main/java/com/example/portonapp/viewmodel/ControlViewModel.kt:87-127 | An open automatic delivery with delay d is closed by exactly one write after d ticks, showing zero |
| Control.DeliveryRestartsCountdown | app/src/main/java/com/example/portonapp/viewmodel/ControlViewModel.kt:87-100 | A delivery during a countdown restarts it from the full delay under a new generation instead of resuming it |
| Control.CloseSuppressesStaleExpiry | app/src/main/java/com/example/portonapp/viewmodel/ControlViewModel.kt:173-178 | A manual close during a countdown writes once, and no tick of that countdown can act afterwards |
| Control.ModeChangeStopsCountdown | app/src/main/java/com/example/portonapp/viewmodel/ControlViewModel.kt:202-206 | Leaving automatic mode stops the countdown for good, keeps the shown time until its echo, and the echo shows zero |
| Control.CloseIsNoOpOnlyAfterEcho | app/src/main/java/com/example/portonapp/viewmodel/ControlViewModel.kt:173-175 | Two closes before the echo write twice; after the echo a close does nothing |
| Control.CommandsIgnoreDisabledMode | app/src/main/java/com/example/portonapp/viewmodel/ControlViewModel.kt:147-149 | In disabled mode the controller still writes an open or a close |
| Control.ControlViewModel.constructor | app/src/main/java/com/example/portonapp/viewmodel/ControlViewModel.kt:25-39 | The constructed object is the initial controller and satisfies the invariant |
| Control.ControlViewModel.OnDataChange | app/src/main/java/com/example/portonapp/viewmodel/ControlViewModel.kt:49-70 | Makes exactly the delivery step and keeps the invariant |
| Control.ControlViewModel.OnCancelled | app/src/main/java/com/example/portonapp/viewmodel/ControlViewModel.kt:72-78 | Makes exactly the cancellation step and keeps the invariant |
| Control.ControlViewModel.HandleAutoClose | app/src/main/java/com/example/portonapp/viewmodel/ControlViewModel.kt:87-132 | Cancels the countdown, then starts a fresh one, closes at once, or shows zero, as the delivered document says |
| Control.ControlViewModel.UpdateLocalTimer | app/src/main/java/com/example/portonapp/viewmodel/ControlViewModel.kt:135-141 | Only the shown remaining time changes, to the given value |
| Control.ControlViewModel.Tick | app/src/main/java/com/example/portonapp/viewmodel/ControlViewModel.kt:100-127 | Makes exactly the tick step and keeps the invariant |
| Control.ControlViewModel.OpenPorton | app/src/main/java/com/example/portonapp/viewmodel/ControlViewModel.kt:147-167 | Makes exactly the open step and keeps the invariant |
| Control.ControlViewModel.ClosePorton | app/src/main/java/com/example/portonapp/viewmodel/ControlViewModel.kt:173-196 | Makes exactly the close step and keeps the invariant |
| Control.ControlViewModel.SetManipulationMode | app/src/main/java/com/example/portonapp/viewmodel/ControlViewModel.kt:202-225 | Makes exactly the mode step and keeps the invariant |
| Control.ControlViewModel.SetClosingTime | app/src/main/java/com/example/portonapp/viewmodel/ControlViewModel.kt:231-249 | Makes exactly the delay step and keeps the invariant |
| Control.ControlViewModel.OnWriteFailure | app/src/main/java/com/example/portonapp/viewmodel/ControlViewModel.kt:161-164 | Makes exactly the write-failure step and keeps the invariant |
| Control.ControlViewModel.ClearError | app/src/main/java/com/example/portonapp/viewmodel/ControlViewModel.kt:254-256 | Makes exactly the clear-error step and keeps the invariant |
| Monitoring.Initial | app/src/main/java/com/example/portonapp/viewmodel/MonitoringViewModel.kt:33-40 | The new view model is loading with default readings, the flag down and no loops, and satisfies the invariant |
| Monitoring.DataChangeStep | app/src/main/java/com/example/portonapp/viewmodel/MonitoringViewModel.kt:50-71 | While the flag is raised a delivery changes nothing. Otherwise a decoded delivery (defaults when empty) replaces the readings, ends loading and clears the error, and a malformed one only ends loading with the error |
| Monitoring.CancelledStep | app/src/main/java/com/example/portonapp/viewmodel/MonitoringViewModel.kt:74-80 | A cancelled listener ends loading with the error; readings, flag and loops stay |
| Monitoring.StartStep | app/src/main/java/com/example/portonapp/viewmodel/MonitoringViewModel.kt:91-95 | Each start adds one sleeping loop, even when loops already run; nothing else changes |
| Monitoring.SimulatedWriteStep | app/src/main/java/com/example/portonapp/viewmodel/MonitoringViewModel.kt:95-115 | A sleeping loop raises the flag, writes its reading once and enters its echo window; the screen is unchanged |
| Monitoring.WindowEndStep | app/src/main/java/com/example/portonapp/viewmodel/MonitoringViewModel.kt:117-119 | A loop leaving its echo window lowers the flag and sleeps again |
| Monitoring.StopStep | app/src/main/java/com/example/portonapp/viewmodel/MonitoringViewModel.kt:127-130 | Stopping lowers the flag and leaves the loops running |
| Monitoring.WriteFailureStep | app/src/main/java/com/example/portonapp/viewmodel/MonitoringViewModel.kt:111-114 | A failed simulated write only sets the error text |
| Monitoring.ClearErrorStep | app/src/main/java/com/example/portonapp/viewmodel/MonitoringViewModel.kt:135-137 | Only the error is cleared |
| Monitoring.Step | app/src/main/java/com/example/portonapp/viewmodel/MonitoringViewModel.kt:50-137 | Every event keeps the invariant that the flag is raised only inside some loop's echo window |
| Monitoring.RunKeepsInv | app/src/main/java/com/example/portonapp/viewmodel/MonitoringViewModel.kt:95-119 | The invariant holds after any sequence of events from a state where it holds |
| Monitoring.ReachableStatesKeepInv | app/src/main/java/com/example/portonapp/viewmodel/MonitoringViewModel.kt:33-40 | Every reachable state raises the flag only inside an echo window |
| Monitoring.NoSimulationNoSuppression | app/src/main/java/com/example/portonapp/viewmodel/MonitoringViewModel.kt:53 | If no simulation is started, no delivery is ever suppressed |
| Monitoring.EchoSuppressedWithinWindow | app/src/main/java/com/example/portonapp/viewmodel/MonitoringViewModel.kt:53-61 | The echo of a simulated write inside its window is ignored whatever it holds, and a delivery after the window is applied |
| Monitoring.MonitoringViewModel.constructor | app/src/main/java/com/example/portonapp/viewmodel/MonitoringViewModel.kt:23-40 | The constructed object is the initial monitor |
| Monitoring.MonitoringViewModel.OnDataChange | app/src/main/java/com/example/portonapp/viewmodel/MonitoringViewModel.kt:50-71 | Makes exactly the delivery step and keeps the invariant |
| Monitoring.MonitoringViewModel.OnCancelled | app/src/main/java/com/example/portonapp/viewmodel/MonitoringViewModel.kt:74-80 | Makes exactly the cancellation step and keeps the invariant |
| Monitoring.MonitoringViewModel.StartSensorSimulation | app/src/main/java/com/example/portonapp/viewmodel/MonitoringViewModel.kt:91-95 | Makes exactly the start step and keeps the invariant |
| Monitoring.MonitoringViewModel.SimulatedWrite | app/src/main/java/com/example/portonapp/viewmodel/MonitoringViewModel.kt:95-115 | Makes exactly the simulated-write step and keeps the invariant |
| Monitoring.MonitoringViewModel.WindowEnd | app/src/main/java/com/example/portonapp/viewmodel/MonitoringViewModel.kt:117-119 | Makes exactly the window-end step and keeps the invariant |
| Monitoring.MonitoringViewModel.StopSensorSimulation | app/src/main/java/com/example/portonapp/viewmodel/MonitoringViewModel.kt:127-130 | Makes exactly the stop step and keeps the invariant |
| Monitoring.MonitoringViewModel.OnWriteFailure | app/src/main/java/com/example/portonapp/viewmodel/MonitoringViewModel.kt:111-114 | Makes exactly the write-failure step and keeps the invariant |
| Monitoring.MonitoringViewModel.ClearError | app/src/main/java/com/example/portonapp/viewmodel/MonitoringViewModel.kt:135-137 | Makes exactly the clear-error step and keeps the invariant |
| Auth.ThreeAccounts | app/src/main/java/com/example/portonapp/viewmodel/AuthViewModel.kt:20-24 | The account table has exactly the keys admin, usuario and test |
| Auth.CredentialsMatch | app/src/main/java/com/example/portonapp/viewmodel/AuthViewModel.kt:37 | Definition: the lowered user name is a key of the table and its password equals the typed one |
| Auth.CredentialsMatchIff | app/src/main/java/com/example/portonapp/viewmodel/AuthViewModel.kt:20-37 | A login matches exactly when the lowered name and the password as typed are one of the three pairs |
| Auth.UserNameCaseIgnored | app/src/main/java/com/example/portonapp/viewmodel/AuthViewModel.kt:37 | Matching a name is the same as matching its lowered form |
| Auth.MatchingCredentialsAreNotBlank | app/src/main/java/com/example/portonapp/viewmodel/AuthViewModel.kt:27-37 | A user name and password that match an account are never blank, so the blank-field check never turns away a valid login |
| Auth.CaseExamples | app/src/main/java/com/example/portonapp/viewmodel/AuthViewModel.kt:37 | "ADMIN" and "Test" are accepted with their passwords; a password in the wrong case is refused |
| Auth.LoginStep | app/src/main/java/com/example/portonapp/viewmodel/AuthViewModel.kt:26-56 | A blank field only sets the blank-fields error. Otherwise loading ends, and authenticated and no-error both hold exactly when the credentials match. A match records the user under the name as typed with an @example.com address. A mismatch keeps the previous user and shows the wrong-credentials message |
| Auth.LogoutStep | app/src/main/java/com/example/portonapp/viewmodel/AuthViewModel.kt:58-63 | Logout leaves nobody signed in and keeps loading and error |
| Auth.ClearErrorStep | app/src/main/java/com/example/portonapp/viewmodel/AuthViewModel.kt:65-67 | Only the error is cleared |
| Auth.LoginThenLogout | app/src/main/java/com/example/portonapp/viewmodel/AuthViewModel.kt:26-63 | A successful login authenticates, and a logout after it leaves nobody signed in, not loading and without error |
| Auth.AuthViewModel.constructor | app/src/main/java/com/example/portonapp/viewmodel/AuthViewModel.kt:16-17 | The screen state starts with every default |
| Auth.AuthViewModel.Login | app/src/main/java/com/example/portonapp/viewmodel/AuthViewModel.kt:26-56 | Makes exactly the login step |
| Auth.AuthViewModel.Logout | app/src/main/java/com/example/portonapp/viewmodel/AuthViewModel.kt:58-63 | Makes exactly the logout step |
| Auth.AuthViewModel.ClearError | app/src/main/java/com/example/portonapp/viewmodel/AuthViewModel.kt:65-67 | Makes exactly the clear-error step |
| ConfigScreen.InRange | app/src/main/java/com/example/portonapp/ui/config/ConfigScreen.kt:87 | Definition: `seconds in 5..120`, both ends included; pinned down by `ConfigScreen.RangeBoundaries` |
| ConfigScreen.AcceptsEdit | app/src/main/java/com/example/portonapp/ui/config/ConfigScreen.kt:69 | Definition: an edit is accepted when the new text is empty or all digits; its partner is `ConfigScreen.ResyncRoundTrip` |
| ConfigScreen.SaveRequest | app/src/main/java/com/example/portonapp/ui/config/ConfigScreen.kt:85-89 | A delay is requested exactly when the text parses to an `Int` in 5..120, and it is that value |
| ConfigScreen.IsError | app/src/main/java/com/example/portonapp/ui/config/ConfigScreen.kt:80-81 | The field is in error exactly when it holds text that yields no save request |
| ConfigScreen.SaveEnabled | app/src/main/java/com/example/portonapp/ui/config/ConfigScreen.kt:92-94 | Save is enabled exactly when nothing loads and the text yields a save request |
| ConfigScreen.ErrorIffSaveDisabled | app/src/main/java/com/example/portonapp/ui/config/ConfigScreen.kt:80-94 | With text present and nothing loading, the field is in error exactly when saving is disabled |
| ConfigScreen.RangeBoundaries | app/src/main/java/com/example/portonapp/ui/config/ConfigScreen.kt:81 | The range is inclusive: 5 and 120 are saved, 4 and 121 are refused and shown in error |
| ConfigScreen.ResyncRoundTrip | app/src/main/java/com/example/portonapp/ui/config/ConfigScreen.kt:26-31 | The text refilled from a cached delay parses back to it, is in error exactly when the delay is out of range, and passes the edit filter exactly when it is not negative |
| ConfigScreen.TimeInputField.constructor | app/src/main/java/com/example/portonapp/ui/config/ConfigScreen.kt:26 | The field starts with the text of the cached delay |
| ConfigScreen.TimeInputField.OnValueChange | app/src/main/java/com/example/portonapp/ui/config/ConfigScreen.kt:67-71 | An edit is kept exactly when it is empty or all digits, so a digit-only field stays digit-only |
| ConfigScreen.TimeInputField.Resync | app/src/main/java/com/example/portonapp/ui/config/ConfigScreen.kt:29-31 | The field shows the new cached delay again, as text that parses back to it |
| ConfigScreen.TimeInputField.OnSaveClick | app/src/main/java/com/example/portonapp/ui/config/ConfigScreen.kt:85-89 | With a delay in range the controller makes exactly its delay step; otherwise the controller is untouched |
| PortonScreen.StatusLabel | app/src/main/java/com/example/portonapp/ui/porton/PortonScreen.kt:54 | The label is ABIERTO exactly when the gate is open and CERRADO otherwise |
| PortonScreen.CountdownVisible | app/src/main/java/com/example/portonapp/ui/porton/PortonScreen.kt:64-66 | Definition: the countdown is shown while the gate is open, in automatic mode, with positive remaining time |
| PortonScreen.OpenEnabled | app/src/main/java/com/example/portonapp/ui/porton/PortonScreen.kt:98-100 | Definition: not loading, not disabled mode, gate closed |
| PortonScreen.CloseEnabled | app/src/main/java/com/example/portonapp/ui/porton/PortonScreen.kt:113-115 | Definition: not loading, not disabled mode, gate open |
| PortonScreen.ButtonsExclusive | app/src/main/java/com/example/portonapp/ui/porton/PortonScreen.kt:98-115 | The two buttons are never both enabled. Loading or the disabled mode disables both. Otherwise exactly the button that changes the gate is enabled |
| PortonScreen.EnabledButtonWrites | app/src/main/java/com/example/portonapp/ui/porton/PortonScreen.kt:94-115 | Pressing an enabled button issues exactly one write |
| PortonScreen.CountdownShownIffRemaining | app/src/main/java/com/example/portonapp/ui/porton/PortonScreen.kt:64-66 | In every state the controller keeps, the countdown is shown exactly when the remaining time is positive, and always while a countdown runs |

## Left out

- Remote store I/O: writes are appended to an outbox and deliveries are events. Listener registration, connection handling and the success callbacks, which only log, are not modelled.
- Decoding: how the store maps a document to `PortonState` or `SensorData` field by field is not modelled. A delivery arrives decoded (`None` when the path is empty) or as a decoding failure with its message.
- Time: the clock is the `now` parameter. The one-second, three-second and 200 ms delays are not timed. Each resumption after one is a separate event, so the model says nothing about how long anything takes.
- The listener of the gate view model is never removed, and several view model instances could all listen at once. Only one instance is modelled, and the end of its life is not.
- Random sensor readings and floating point: the simulation's readings are a parameter, and readings are `real` values that nothing inspects.
- KotlinText.IsDigit: only the ASCII digits; Kotlin also accepts other Unicode decimal digits.
- KotlinText.ToIntOrNull: only the ASCII digits, for the same reason.
- KotlinText.LowerChar: only the ASCII capitals are lowered; every other character is kept as it is.
- KotlinText.Lowercase: built on `KotlinText.LowerChar`, so full Unicode lowering is not modelled. For the three account names the only difference is that Kotlin also lowers the Kelvin sign to `k`, and no account name contains a `k`.
- Control.ControlViewModel.Tick: two checks in the countdown loop are modelled, but the invariant makes them unreachable. One is the check inside the loop (ControlViewModel.kt:109-116). The other is the false branch of the check after the loop (ControlViewModel.kt:119-126). A running countdown always has an open, automatic cache. Apart from the countdown field, the cache changes only through a delivery, and a delivery restarts the countdown.
- ConfigScreen.TimeInputField.Resync: when it runs is not modelled. The screen reruns it only when the cached delay changes (ConfigScreen.kt:29-31). So a delivery that keeps the same delay leaves the user's unsaved edit alone, and one that changes the delay overwrites it. The model lets the caller choose when to apply it.
- The mode radio buttons of the configuration screen (ConfigScreen.kt:120-135) only call `setManipulationMode`, which is modelled as `Control.SetModeStep`. Their layout is not modelled.
- Layout, colours, navigation, `MainActivity`, the login and monitoring screens, and logging are not modelled. They hold no state the core depends on.
- The demo and helper components under `componentes/firebase` are not part of this model.
