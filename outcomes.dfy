/**
 * What a view hands back to the web layer: where the browser goes next and
 * the user-visible notifications queued on the way (Django's `messages`).
 */
module Outcomes {

  /** The pages a view renders or redirects to. */
  datatype Target = DashboardPage | DetailPage(ticketId: nat) | CreatePage

  /** One queued notification, `messages.success` or `messages.warning`. */
  datatype Notice = SuccessNote(text: string) | WarningNote(text: string)

  /** `ServerError`: the view raised an exception it does not catch, and Django answers 500. */
  datatype Response = Redirect(target: Target) | Render(target: Target) | NotFound | ServerError

  datatype Outcome = Outcome(response: Response, notices: seq<Notice>)
}
