/**
 * `POST /api/payments/webhook`: the provider reports a completed or expired checkout session and the
 * handler records the outcome on the request.
 */
module Webhook {
  import opened Basics
  import opened Json
  import opened Http
  import opened RowStore
  import opened PaymentStatus

  const Completed := "checkout.session.completed"
  const Expired := "checkout.session.expired"

  const MissingSignature := "Missing stripe signature or STRIPE_WEBHOOK_SECRET"

  /** A verified event: its type and the session it carries. */
  datatype Event = Event(eventType: string, session: Session)

  /**
   * The status write an event calls for: a completed, paid session marks its request paid; an
   * expired session marks it expired whatever its current status; anything else writes nothing.
   */
  function WebhookWrite(event: Event): (w: Option<StatusWrite>)
    ensures w.Some? ==> w.value.requestId == event.session.metadataRequestId && Truthy(w.value.requestId)
    ensures w.Some? && w.value.status == Paid <==>
      event.eventType == Completed && Truthy(event.session.metadataRequestId) &&
      event.session.paymentStatus == Str("paid")
    ensures w.Some? && w.value.status == PaymentExpired <==>
      event.eventType == Expired && Truthy(event.session.metadataRequestId)
    ensures event.eventType != Completed && event.eventType != Expired ==> w.None?
  {
    var requestId := event.session.metadataRequestId;
    if event.eventType == Completed && Truthy(requestId) && event.session.paymentStatus == Str("paid") then
      Some(StatusWrite(requestId, Paid))
    else if event.eventType == Expired && Truthy(requestId) then
      Some(StatusWrite(requestId, PaymentExpired))
    else None
  }

  /**
   * The response and write for one delivery. `secretSet` is whether the webhook secret is configured;
   * `constructed` is the signature check's verdict: the verified event, or the message it threw.
   */
  function WebhookEffect(verb: string, signature: Value, secretSet: bool, constructed: Result<Event, string>)
    : (e: (Response, Option<StatusWrite>))
    ensures verb != "POST" ==> e == (MethodNotAllowed, None)
    ensures verb == "POST" && (!Truthy(signature) || !secretSet) ==> e == (Response(400, Error(MissingSignature)), None)
    ensures e.0.status == 200 <==> verb == "POST" && Truthy(signature) && secretSet && constructed.Success?
    ensures e.0.status == 200 ==> e == (Response(200, ReceivedTrue), WebhookWrite(constructed.value))
    ensures e.1.Some? ==> e.0.status == 200
    ensures verb == "POST" && Truthy(signature) && secretSet && constructed.Failure? ==>
      e.0 == Response(400, Error(ErrorText(constructed.error, "Webhook error")))
  {
    if verb != "POST" then (MethodNotAllowed, None)
    else if !Truthy(signature) || !secretSet then (Response(400, Error(MissingSignature)), None)
    else match constructed
      case Failure(message) => (Response(400, Error(ErrorText(message, "Webhook error"))), None)
      case Success(event) => (Response(200, ReceivedTrue), WebhookWrite(event))
  }

  method HandleWebhook(requests: Table, verb: string, signature: Value, secretSet: bool,
                       constructed: Result<Event, string>) returns (resp: Response)
    requires requests.name == "requests"
    modifies requests
    ensures var e := WebhookEffect(verb, signature, secretSet, constructed);
      resp == e.0 && requests.rows == Written(old(requests.rows), e.1)
  {
    if verb != "POST" {
      return MethodNotAllowed;
    }
    if !Truthy(signature) || !secretSet {
      return Response(400, Error(MissingSignature));
    }
    if constructed.Failure? {
      return Response(400, Error(ErrorText(constructed.error, "Webhook error")));
    }
    ApplyWrite(requests, WebhookWrite(constructed.value));
    resp := Response(200, ReceivedTrue);
  }

  /** Re-delivering an event leaves the table as the first delivery left it. */
  lemma RedeliveryHarmless(rows: seq<Record>, verb: string, signature: Value, secretSet: bool,
                           constructed: Result<Event, string>)
    ensures var w := WebhookEffect(verb, signature, secretSet, constructed).1;
      Written(Written(rows, w), w) == Written(rows, w)
  {
    WriteIdempotent(rows, WebhookEffect(verb, signature, secretSet, constructed).1);
  }
}
