/**
 * The gate screen's decisions: the status label, when the countdown is
 * shown, and when the open and close buttons are enabled.  The disabled mode
 * is honoured here, not by the controller.
 */
module PortonScreen {
  import opened Model
  import opened Control

  /** The status text. */
  function StatusLabel(p: PortonState): (r: string)
    ensures r == "ABIERTO" || r == "CERRADO"
    ensures r == "ABIERTO" <==> p.estaAbierto
  {
    if p.estaAbierto then "ABIERTO" else "CERRADO"
  }

  predicate CountdownVisible(p: PortonState) {
    p.estaAbierto && p.modoManipulacion == Automatic && p.segundosRestantesCierreAuto > 0
  }

  predicate OpenEnabled(ui: ControlUiState) {
    !ui.isLoading && ui.portonState.modoManipulacion != Disabled && !ui.portonState.estaAbierto
  }

  predicate CloseEnabled(ui: ControlUiState) {
    !ui.isLoading && ui.portonState.modoManipulacion != Disabled && ui.portonState.estaAbierto
  }

  /**
   * The buttons are never both enabled; loading or the disabled mode disables
   * both; otherwise exactly the one that changes the gate is enabled.
   */
  lemma ButtonsExclusive(ui: ControlUiState)
    ensures !(OpenEnabled(ui) && CloseEnabled(ui))
    ensures ui.isLoading || ui.portonState.modoManipulacion == Disabled ==>
      !OpenEnabled(ui) && !CloseEnabled(ui)
    ensures !ui.isLoading && ui.portonState.modoManipulacion != Disabled ==>
      (OpenEnabled(ui) <==> !ui.portonState.estaAbierto) && (CloseEnabled(ui) <==> ui.portonState.estaAbierto)
  {
  }

  /** An enabled button always leads to exactly one write. */
  lemma EnabledButtonWrites(c: Controller, now: Int64)
    ensures OpenEnabled(c.ui) ==> |OpenStep(c, now).outbox| == |c.outbox| + 1
    ensures CloseEnabled(c.ui) ==> |CloseStep(c, now).outbox| == |c.outbox| + 1
  {
  }

  /**
   * In every state the controller reaches, the countdown is shown exactly
   * when the remaining time is positive, and always while a countdown runs.
   */
  lemma CountdownShownIffRemaining(c: Controller)
    requires Inv(c)
    ensures CountdownVisible(c.Cached()) <==> c.Remaining() > 0
    ensures c.job.Running? ==> CountdownVisible(c.Cached())
  {
  }
}
