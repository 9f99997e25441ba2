/**
 * What the auth forms show and what they react to: an alert with a severity, and the
 * three shapes a failed request takes (a response, a request that got no response,
 * anything else).
 */
module Alerts {
  import opened Wrappers

  /** The alert types `'error' | 'warning' | 'info' | 'success'`. */
  datatype Severity = Error | Warning | Info | Success

  /** An alert: its text and its type. */
  datatype Alert = Alert(text: string, severity: Severity)

  /**
   * A failed request: the server answered with a status and maybe a `message`, or the
   * request went out and nothing came back, or the failure is of some other kind.
   */
  datatype RequestError =
    | Response(status: int, message: Option<string>)
    | RequestOnly
    | Unexpected

  /** `err.response.data?.message || ""` */
  function ServerMessage(f: RequestError): (m: string)
    requires f.Response?
    ensures f.message.Some? ==> m == f.message.value
    ensures f.message.None? ==> m == ""
  {
    if f.message.Some? then f.message.value else ""
  }
}
