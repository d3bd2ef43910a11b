/** Values shared by the pages of the audit web app: optional values, the
    outcome of one HTTP round trip, the audit status and the snackbar state. */
module Common {

  datatype Option<+T> = None | Some(value: T)

  /** The settled outcome of one request: the response data, or the
      rejection the client's try/catch sees (transport error or non-2xx). */
  datatype Outcome<+T> = Ok(value: T) | Rejected

  /** Status of an audit as reported by the backend. The scanning page's
      type names the first two "pending" and "in_progress"; no page tells
      them apart, since every page compares only against "finished". */
  datatype AuditStatus = Queued | Running | Finished | Failed

  datatype Severity = Success | Error

  /** The notice shown at the bottom of a page. */
  datatype Snackbar = Snackbar(open: bool, message: string, severity: Severity)

  /** The state every page starts with: closed, empty message, "success". */
  const InitialSnackbar := Snackbar(false, "", Success)

  /** JavaScript truthiness of an optional route parameter: `undefined` and
      the empty string are both falsy. */
  predicate HasId(id: Option<string>)
  {
    id.Some? && id.value != ""
  }

  /** Opening the error notice replaces message and severity; closing it
      (`handleSnackbarClose`) keeps them. */
  function OpenError(message: string): Snackbar
  {
    Snackbar(true, message, Error)
  }
}
