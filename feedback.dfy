/**
 * What the pages show the user and what their calls into the hosted backend
 * come back with. A toast or alert is a value the handler produces; a call's
 * outcome is a value the handler is given.
 */
module Feedback {
  import opened Wrappers

  /** A notification popped up by a handler. */
  datatype Toast = SuccessToast(text: string) | ErrorToast(text: string)

  /** How an awaited call into a collaborator ended: it resolved, or it threw. */
  datatype Settled = Resolved | Rejected

  /** The error object an auth-provider call returns in its `{ error }` result. */
  datatype ProviderError = ProviderError(message: string)

  /** An auth-provider call either answers `{ error }` (absent on success) or throws an error whose message may be absent. */
  datatype ProviderResult = Answered(error: Option<ProviderError>) | Threw(message: Option<string>)

  /** What a confirm-gated delete does: the id it deletes, if any, and the toast it shows, if any. */
  datatype DeleteEffects = DeleteEffects(deleted: Option<string>, toast: Option<Toast>)

  /**
   * A delete handler: it asks for confirmation; only when the user confirms
   * does it call the delete, and then it reports the call's outcome with
   * `okText` or `failText`.
   */
  function ConfirmedDelete(id: string, confirmed: bool, result: Settled, okText: string, failText: string): (r: DeleteEffects)
    ensures r.deleted.Some? <==> confirmed
    ensures r.deleted.Some? ==> r.deleted.value == id
    ensures r.toast.Some? <==> confirmed
    ensures confirmed && result.Resolved? ==> r.toast == Some(SuccessToast(okText))
    ensures confirmed && result.Rejected? ==> r.toast == Some(ErrorToast(failText))
  {
    if !confirmed then DeleteEffects(None, None)
    else DeleteEffects(Some(id), Some(if result.Resolved? then SuccessToast(okText) else ErrorToast(failText)))
  }
}
