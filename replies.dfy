/** Values exchanged between the messaging service and its callers: optional
    arguments, the outcome of a call into the messaging library, and the
    records the service returns. */
module Replies {

  datatype Option<+T> = None | Some(value: T)

  /** The outcome of an awaited call into the messaging library (sending a
      message, closing or creating a session): it either completes or throws
      an error carrying a message. */
  datatype Outcome = Done | Error(message: string)

  /** A value, or the message of the `Error` the service throws instead. */
  datatype Result<+T> = Success(value: T) | Failure(error: string)

  /** An instant supplied by the caller in place of `new Date()`. */
  type Timestamp = int

  /** JavaScript truthiness of an optional string argument: `undefined` and
      the empty string are both falsy. */
  predicate Truthy(s: Option<string>) {
    s.Some? && s.value != ""
  }

  const SentNotice: string := "Message envoyé avec succès"
  const FailedNotice: string := "Erreur lors de l'envoi"

  /** The object `sendMessage` returns once the readiness gate is passed. */
  datatype SendReply = SendReply(
    success: bool,
    message: string,
    error: Option<string>,
    from: string,
    to: string,
    content: string,
    timestamp: Timestamp)

  /** The reply `sendMessage` builds from the transport's outcome: `success`
      holds exactly when the library call completed, and a failed call's
      error message is passed on. */
  function DeliveryReply(delivery: Outcome, from: string, to: string, content: string, now: Timestamp): (r: SendReply)
    ensures r.success <==> delivery.Done?
    ensures r.success ==> r.message == SentNotice && r.error == None
    ensures !r.success ==> r.message == FailedNotice && r.error == Some(delivery.message)
    ensures r.from == from && r.to == to && r.content == content && r.timestamp == now
  {
    match delivery
    case Done => SendReply(true, SentNotice, None, from, to, content, now)
    case Error(m) => SendReply(false, FailedNotice, Some(m), from, to, content, now)
  }

  /** The object `resetWhatsApp` returns. */
  datatype ResetReply = ResetReply(success: bool, message: string, error: Option<string>)
}
