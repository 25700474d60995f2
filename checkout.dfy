/**
 * `POST /api/payments/checkout`: validates the amount, prices the platform fee, opens a checkout
 * session and marks the request as awaiting payment.
 */
module Checkout {
  import opened Basics
  import opened Numbers
  import opened Json
  import opened Http
  import opened RowStore
  import opened PaymentStatus

  /** Accepted amounts in cents: AUD 5 to AUD 300, both inclusive. */
  const MinCents := 500
  const MaxCents := 30000

  const MissingFields := "requestId and amountAud are required"
  const AmountOutOfRange := "Amount must be between AUD 5 and AUD 300"
  const SessionFailed := "Failed to create checkout session"

  /** `Math.round(base * 0.1)`: the nearest whole cent to a tenth of the base, halves rounding up. */
  function PlatformFee(base: nat): (fee: nat)
    ensures 10 * fee - 5 <= base < 10 * fee + 5
  {
    (base + 5) / 10
  }

  predicate AmountAccepted(base: Number) {
    base.Int? && MinCents <= base.i <= MaxCents
  }

  /** `!requestId || !amountAud` fails. */
  predicate HasRequiredFields(body: Option<Record>) {
    Truthy(Get(OrEmpty(body), "requestId")) && Truthy(Get(OrEmpty(body), "amountAud"))
  }

  /** The request headers the origin is built from: `x-forwarded-proto`, `x-forwarded-host` and `host`. */
  datatype Headers = Headers(forwardedProto: Value, forwardedHost: Value, host: Value)

  /** `${proto}://${host}` from the forwarded headers, falling back to https and the Host header. */
  function ToOrigin(h: Headers): (origin: string)
    ensures var host := TemplateText(if Truthy(h.forwardedHost) then h.forwardedHost else h.host);
      (Truthy(h.forwardedProto) ==> origin == AsText(h.forwardedProto) + "://" + host) &&
      (!Truthy(h.forwardedProto) ==> origin == "https://" + host)
  {
    OrText(h.forwardedProto, "https") + "://" + TemplateText(if Truthy(h.forwardedHost) then h.forwardedHost else h.host)
  }

  /** What the handler asks the payment provider for: one line item priced at base plus fee. */
  datatype SessionSpec = SessionSpec(
    clientReferenceId: Value,
    productName: string,
    description: string,
    unitAmount: int,
    quantity: int,
    metadataRequestId: Value,
    metadataBase: string,
    metadataFee: string,
    successUrl: string,
    cancelUrl: string)

  datatype Plan = Reject(response: Response) | Proceed(session: SessionSpec)

  /**
   * The validation before any call to the provider. `roundedCents` stands for
   * `Math.round(Number(amountAud) * 100)`, which the model takes from the caller.
   */
  function PlanCheckout(verb: string, body: Option<Record>, roundedCents: Number, headers: Headers): (p: Plan)
    ensures verb != "POST" ==> p == Reject(MethodNotAllowed)
    ensures verb == "POST" && !HasRequiredFields(body) ==> p == Reject(Response(400, Error(MissingFields)))
    ensures verb == "POST" && HasRequiredFields(body) && !AmountAccepted(roundedCents) ==>
      p == Reject(Response(400, Error(AmountOutOfRange)))
    ensures p.Proceed? <==> verb == "POST" && HasRequiredFields(body) && AmountAccepted(roundedCents)
    ensures p.Proceed? ==>
      var s := p.session;
      s.unitAmount == roundedCents.i + PlatformFee(roundedCents.i) && s.quantity == 1 &&
      s.clientReferenceId == Get(OrEmpty(body), "requestId") && s.metadataRequestId == s.clientReferenceId &&
      ParseNumber(s.metadataBase) == roundedCents && ParseNumber(s.metadataFee) == Int(PlatformFee(roundedCents.i)) &&
      s.successUrl == ToOrigin(headers) + "/?payment=success&session_id={CHECKOUT_SESSION_ID}" &&
      s.cancelUrl == ToOrigin(headers) + "/?payment=cancel" &&
      s.productName == "Jala Music Request — " + OrText(Get(OrEmpty(body), "committee"), "Community Request") &&
      s.description == OrText(Get(OrEmpty(body), "needs"), "Feast / Holy Day music support")
  {
    var b := OrEmpty(body);
    var requestId := Get(b, "requestId");
    if verb != "POST" then Reject(MethodNotAllowed)
    else if !Truthy(requestId) || !Truthy(Get(b, "amountAud")) then Reject(Response(400, Error(MissingFields)))
    else if !AmountAccepted(roundedCents) then Reject(Response(400, Error(AmountOutOfRange)))
    else
      var base := roundedCents.i;
      var fee := PlatformFee(base);
      var origin := ToOrigin(headers);
      ParseRoundTrip(Int(base));
      ParseRoundTrip(Int(fee));
      Proceed(SessionSpec(
        requestId,
        "Jala Music Request — " + OrText(Get(b, "committee"), "Community Request"),
        OrText(Get(b, "needs"), "Feast / Holy Day music support"),
        base + fee,
        1,
        requestId,
        NumberToString(Int(base)),
        NumberToString(Int(fee)),
        origin + "/?payment=success&session_id={CHECKOUT_SESSION_ID}",
        origin + "/?payment=cancel"))
  }

  /**
   * The response and the status write for a plan, given what the provider answered: the session URL or
   * the message of the error it threw.
   */
  function CheckoutEffect(plan: Plan, created: Result<string, string>): (e: (Response, Option<StatusWrite>))
    ensures plan.Reject? ==> e == (plan.response, None)
    ensures plan.Proceed? && created.Failure? ==>
      e.1.None? && e.0.status == 500 && e.0.body == Error(if created.error != "" then created.error else SessionFailed)
    ensures e.1.Some? <==> plan.Proceed? && created.Success?
    ensures e.1.Some? ==>
      e.1.value == StatusWrite(plan.session.clientReferenceId, AwaitingPayment) &&
      e.0 == Response(200, CheckoutUrl(created.value))
  {
    match plan
    case Reject(resp) => (resp, None)
    case Proceed(session) =>
      match created
      case Failure(message) => (Response(500, Error(ErrorText(message, SessionFailed))), None)
      case Success(url) => (Response(200, CheckoutUrl(url)), Some(StatusWrite(session.clientReferenceId, AwaitingPayment)))
  }

  /** The checkout handler: the status write happens only once the session exists. */
  method HandleCheckout(requests: Table, verb: string, body: Option<Record>, roundedCents: Number, headers: Headers,
                        created: Result<string, string>) returns (resp: Response)
    requires requests.name == "requests"
    modifies requests
    ensures var e := CheckoutEffect(PlanCheckout(verb, body, roundedCents, headers), created);
      resp == e.0 && requests.rows == Written(old(requests.rows), e.1)
  {
    var plan := PlanCheckout(verb, body, roundedCents, headers);
    if plan.Reject? {
      return plan.response;
    }
    if created.Failure? {
      return Response(500, Error(ErrorText(created.error, SessionFailed)));
    }
    ApplyWrite(requests, Some(StatusWrite(plan.session.clientReferenceId, AwaitingPayment)));
    resp := Response(200, CheckoutUrl(created.value));
  }

  // ---------------------------------------------------------------- properties

  /** For every accepted base the fee is between 50 and 3000 cents and the total covers the base. */
  lemma FeeBounds(base: nat)
    requires MinCents <= base <= MaxCents
    ensures 50 <= PlatformFee(base) <= 3000
    ensures base + PlatformFee(base) >= base
  {
  }

  /** AUD 100.00 carries a fee of AUD 10.00 and a total of AUD 110.00. */
  lemma FeeExample()
    ensures PlatformFee(10000) == 1000 && 10000 + PlatformFee(10000) == 11000
  {
  }

  /** Both bounds are inclusive; one cent outside either, or a non-numeric amount, is refused. */
  lemma AmountBoundaries()
    ensures AmountAccepted(Int(500)) && AmountAccepted(Int(30000))
    ensures !AmountAccepted(Int(499)) && !AmountAccepted(Int(30001)) && !AmountAccepted(NaN)
  {
  }

  /** A refused request never reaches the provider, so it writes no status whatever the provider would say. */
  lemma RejectedWritesNothing(verb: string, body: Option<Record>, roundedCents: Number, headers: Headers,
                              created: Result<string, string>)
    requires !AmountAccepted(roundedCents) || verb != "POST"
    ensures CheckoutEffect(PlanCheckout(verb, body, roundedCents, headers), created).1.None?
    ensures CheckoutEffect(PlanCheckout(verb, body, roundedCents, headers), created).0.status in {400, 405}
  {
  }
}
