/**
 * What the session state machine asks of the page: the wheel's rotation,
 * the spin button's label, and the error and prize dialogs. Each is recorded
 * as a signal; the DOM work behind it is not modelled.
 */
module Presenter {
  /** Text of the spin button; only "Spin" leaves it enabled. */
  datatype Label = Spin | NoSpins | Spinning

  predicate Enabled(text: Label) {
    text == Spin
  }

  datatype Signal =
    | ShowError               // showErrorModal()
    | ShowPrize               // showPrizeModal()
    | SetButton(text: Label)  // button disabled/enabled with its text
    | Rotate(degrees: int)    // wheel transform set to rotate(degrees)
    | UncaughtRejection       // the timer callback's promise rejects; nothing after it runs
}
