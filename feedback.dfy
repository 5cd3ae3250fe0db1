/** The transient notification (MUI Snackbar with an Alert) every screen
    shows after an action. */
module Feedback {

  /** The Alert severities used, which are also the chip colours. */
  datatype Severity = Success | Error | Info | Warning

  datatype Toast<M> = Toast(open: bool, message: M, severity: Severity)
}
