/** The boundary to the remote API and to the toast notifications. Every
    request is an oracle answer handed to the handler that issues it. */
module Gateway {
  import Wrappers

  /** How one request ended: it succeeded, or it failed and the error carried
      the server's message (`error.response?.data?.message`, "" when absent). */
  datatype Response = Succeeded | Failed(message: string)

  /** The toast a handler shows, if any. */
  datatype Notice = Silent | SuccessToast(text: string) | ErrorToast(text: string)

  /** `toast.error(error.response?.data?.message || fallback)`. */
  function FailureNotice(message: string, fallback: string): (n: Notice)
    requires fallback != ""
    ensures n.ErrorToast? && n.text != ""
    ensures message != "" ==> n.text == message
    ensures message == "" ==> n.text == fallback
  {
    ErrorToast(if message != "" then message else fallback)
  }

  /** The request a valid save sends: `if (editingId)` decides between a PUT
      to the edited record and a POST of a new one, with the same body. */
  datatype Request<P> = Put(id: int, body: P) | Post(body: P)

  function SaveRequest<P>(editingId: Wrappers.Option<int>, p: P): (r: Request<P>)
    ensures r.body == p
    ensures r.Put? <==> editingId.Some? && editingId.value != 0
    ensures r.Put? ==> r.id == editingId.value
  {
    if editingId.Some? && editingId.value != 0 then Put(editingId.value, p) else Post(p)
  }
}
