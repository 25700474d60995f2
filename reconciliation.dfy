/** How the webhook and verify handlers, which may both see one session, combine on the requests table. */
module Reconciliation {
  import opened Basics
  import opened Json
  import opened PaymentStatus
  import opened Webhook
  import opened Verify

  /** For a completed session, the webhook and verify handlers decide on exactly the same write. */
  lemma {:induction false} WebhookAgreesWithVerify(session: Session)
    ensures WebhookWrite(Event(Completed, session)) == VerifyWrite(session)
  {
    assert Completed != Expired;
  }

  /** Whichever of the two arrives first, and whether one or both arrive, a paid session ends the same way. */
  lemma {:induction false} PaidConverges(rows: seq<Record>, session: Session)
    ensures var byHook := WebhookWrite(Event(Completed, session));
      var byVerify := VerifyWrite(session);
      Written(Written(rows, byHook), byVerify) == Written(rows, byVerify) &&
      Written(Written(rows, byVerify), byHook) == Written(rows, byHook)
  {
    WebhookAgreesWithVerify(session);
    WriteIdempotent(rows, VerifyWrite(session));
  }

  /** Verifying an unpaid session after the expiry event leaves the request expired. */
  lemma {:induction false} UnpaidVerifyKeepsExpiry(rows: seq<Record>, session: Session)
    requires !PaidSession(session)
    ensures var expired := Written(rows, WebhookWrite(Event(Expired, session)));
      Written(expired, VerifyWrite(session)) == expired
  {
  }

  /** The expiry event does not look at the current status: arriving after payment, it overwrites Paid. */
  lemma {:induction false} LateExpiryOverwritesPaid(rows: seq<Record>, session: Session)
    requires PaidSession(session)
    ensures Written(Written(rows, VerifyWrite(session)), WebhookWrite(Event(Expired, session))) ==
            Written(rows, Some(StatusWrite(session.metadataRequestId, PaymentExpired)))
  {
    LaterWriteWins(rows, session.metadataRequestId, Paid, PaymentExpired);
  }
}
