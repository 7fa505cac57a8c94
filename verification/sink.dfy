/** Outcome classification of the notification sink (`sendDiscordEmbed` in
    connectproxy.go). JSON marshalling, the HTTP request and the response body
    are abstracted into the `Exchange` the sink observed. */
module Sink {

  /** HTTP 204 No Content: the only status the webhook treats as delivered. */
  const StatusNoContent: int := 204

  /** The response body of a rejected delivery, as far as the sink reads it. */
  datatype Body = Unreadable | Malformed | ErrorReport(code: int, message: string)

  /** What happened after the payload was built. */
  datatype Exchange =
    | RequestNotBuilt           // http.NewRequest failed (malformed URL)
    | SendFailed                // http.DefaultClient.Do failed
    | Answered(status: int, body: Body)

  datatype Failure =
    | EmptyUrl
    | BadRequest
    | TransportError
    | BodyUnreadable
    | BodyMalformed
    | UnexpectedStatus(status: int)

  datatype Delivery = Delivered | NotDelivered(why: Failure)

  function Deliver(url: string, x: Exchange): (r: Delivery)
    ensures r.Delivered? <==> url != "" && x.Answered? && x.status == StatusNoContent
    ensures r == NotDelivered(EmptyUrl) <==> url == ""
    ensures url != "" && x.Answered? && x.status != StatusNoContent ==>
      r.NotDelivered? && (r.why.UnexpectedStatus? ==> r.why.status == x.status)
    ensures url != "" && !x.Answered? ==> r.NotDelivered? && (r.why == BadRequest || r.why == TransportError)
  {
    if url == "" then NotDelivered(EmptyUrl)
    else match x
      case RequestNotBuilt => NotDelivered(BadRequest)
      case SendFailed => NotDelivered(TransportError)
      case Answered(status, body) =>
        if status == StatusNoContent then Delivered
        else match body
          case Unreadable => NotDelivered(BodyUnreadable)
          case Malformed => NotDelivered(BodyMalformed)
          case ErrorReport(_, _) => NotDelivered(UnexpectedStatus(status))
  }
}
