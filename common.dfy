/** Values shared by the authentication provider and the form pages. */
module Common {

  datatype Option<T> = None | Some(value: T)

  /** One navigation issued through the router: `navigate(path, { replace })` or a
      rendered `<Navigate to={path} replace />`. */
  datatype Nav = Nav(path: string, replace: bool)

  /** How an awaited external call ended: it resolved, or it threw an error whose
      `message` is given here ("" stands for a missing or empty message). */
  datatype Outcome = Resolved | Rejected(message: string)

  /** JavaScript truthiness of an optional string such as `location.state?.username`:
      `undefined`, `null` and `""` are all falsy. */
  predicate Present(s: Option<string>)
  {
    s.Some? && s.value != []
  }

  /** The text a page shows for a caught error, `err.message || fallback`. */
  function ErrorText(message: string, fallback: string): (r: string)
    requires fallback != []
    ensures r != []
    ensures message != [] ==> r == message
    ensures message == [] ==> r == fallback
  {
    if message != [] then message else fallback
  }
}
