/** `POST /api/payments/verify`: the browser returns from checkout and asks whether the session was paid. */
module Verify {
  import opened Basics
  import opened Json
  import opened Http
  import opened RowStore
  import opened PaymentStatus

  const SessionIdRequired := "sessionId required"
  const VerifyFailed := "Failed to verify payment"

  /** A session counts as paid when its payment status is "paid" and it names a request. */
  predicate PaidSession(session: Session) {
    session.paymentStatus == Str("paid") && Truthy(session.metadataRequestId)
  }

  /** `const { sessionId } = req.body || {}` is truthy. */
  predicate HasSessionId(body: Option<Record>) {
    Truthy(Get(OrEmpty(body), "sessionId"))
  }

  function VerifyWrite(session: Session): (w: Option<StatusWrite>)
    ensures w.Some? <==> PaidSession(session)
    ensures w.Some? ==> w.value == StatusWrite(session.metadataRequestId, Paid)
  {
    if PaidSession(session) then Some(StatusWrite(session.metadataRequestId, Paid)) else None
  }

  /** `retrieved` is the provider's answer for the session id: the session, or the message it threw. */
  function VerifyEffect(verb: string, body: Option<Record>, retrieved: Result<Session, string>)
    : (e: (Response, Option<StatusWrite>))
    ensures verb != "POST" ==> e == (MethodNotAllowed, None)
    ensures verb == "POST" && !HasSessionId(body) ==> e == (Response(400, Error(SessionIdRequired)), None)
    ensures verb == "POST" && HasSessionId(body) && retrieved.Failure? ==>
      e == (Response(500, Error(ErrorText(retrieved.error, VerifyFailed))), None)
    ensures e.1.Some? <==> verb == "POST" && HasSessionId(body) && retrieved.Success? && PaidSession(retrieved.value)
    ensures e.1.Some? ==>
      e == (Response(200, PaymentCheck(true, retrieved.value.metadataRequestId)),
            Some(StatusWrite(retrieved.value.metadataRequestId, Paid)))
    ensures e.0.status == 200 && e.1.None? ==> e.0 == Response(200, PaymentCheck(false, Undefined))
    ensures verb == "POST" && HasSessionId(body) && retrieved.Success? && !PaidSession(retrieved.value) ==>
      e == (Response(200, PaymentCheck(false, Undefined)), None)
  {
    if verb != "POST" then (MethodNotAllowed, None)
    else if !HasSessionId(body) then (Response(400, Error(SessionIdRequired)), None)
    else match retrieved
      case Failure(message) => (Response(500, Error(ErrorText(message, VerifyFailed))), None)
      case Success(session) =>
        var w := VerifyWrite(session);
        if w.Some? then (Response(200, PaymentCheck(true, session.metadataRequestId)), w)
        else (Response(200, PaymentCheck(false, Undefined)), None)
  }

  method HandleVerify(requests: Table, verb: string, body: Option<Record>, retrieved: Result<Session, string>)
    returns (resp: Response)
    requires requests.name == "requests"
    modifies requests
    ensures var e := VerifyEffect(verb, body, retrieved);
      resp == e.0 && requests.rows == Written(old(requests.rows), e.1)
  {
    if verb != "POST" {
      return MethodNotAllowed;
    }
    if !HasSessionId(body) {
      return Response(400, Error(SessionIdRequired));
    }
    if retrieved.Failure? {
      return Response(500, Error(ErrorText(retrieved.error, VerifyFailed)));
    }
    var session := retrieved.value;
    if PaidSession(session) {
      ApplyWrite(requests, VerifyWrite(session));
      resp := Response(200, PaymentCheck(true, session.metadataRequestId));
    } else {
      resp := Response(200, PaymentCheck(false, Undefined));
    }
  }
}
