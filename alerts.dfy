/**
 * What a form's submit handler makes observable: the popups it asks the
 * notification library to show, each as the options record passed to one
 * `fire` call, and the data it logs when the submission is accepted.
 */
module Alerts {
  import opened Schema

  datatype Option<T> = None | Some(value: T)

  /** The icon option of a popup; `NoIcon` when the call passes none. */
  datatype Icon = NoIcon | ErrorIcon | SuccessIcon

  /**
   * The options of one popup. An absent `title` or `text` option is `None`.
   * `showsLoading` records a popup whose opening hook switches it to the
   * loading indicator.
   */
  datatype Alert = Alert(
    icon: Icon,
    title: Option<string>,
    text: Option<string>,
    showConfirmButton: bool,
    timer: nat,
    showsLoading: bool)

  /**
   * The result of one submit: the schema's issues and the popups shown, or the
   * logged data and the popups shown, in the order they appear.
   */
  datatype Outcome<L> =
    | Error(issues: seq<Issue>, alerts: seq<Alert>)
    | Success(logged: L, alerts: seq<Alert>)

  /** Milliseconds before an error popup closes by itself. */
  const ErrorTimer: nat := 5000

  /** Milliseconds before a success popup closes by itself. */
  const SuccessTimer: nat := 1500
}
