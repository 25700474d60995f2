/** Responses of the serverless handlers: a status code and a JSON body. */
module Http {
  import opened Basics
  import opened Json

  /** `req.body || {}`: a missing body reads as the empty object. */
  function OrEmpty(body: Option<Record>): Record {
    if body.Some? then body.value else map[]
  }

  datatype Body =
    | Error(message: string)                    // { error }
    | Rows(rows: seq<Record>)                   // a listed collection
    | Row(row: Record)                          // one record
    | OkTrue                                    // { ok: true }
    | ReceivedTrue                              // { received: true }
    | CheckoutUrl(url: string)                  // { url }
    | PaymentCheck(paid: bool, requestId: Value) // { ok: true, paid, requestId? }

  datatype Response = Response(status: int, body: Body)

  /** What running a handler body did: it sent a response, or it threw. */
  datatype Outcome = Returned(response: Response) | Threw(message: string)

  /** `error.message || fallback`. */
  function ErrorText(message: string, fallback: string): string {
    if message != "" then message else fallback
  }

  const MethodNotAllowed := Response(405, Error("Method not allowed"))

  /**
   * The shared shape of both storage adapters' `withErrorHandling`: missing configuration answers 500
   * without looking at the handler body, a thrown error answers 500 with its message.
   */
  function Guard(configPresent: bool, missingMessage: string, outcome: Outcome): (r: Response)
    ensures !configPresent ==> r == Response(500, Error(missingMessage))
    ensures configPresent && outcome.Returned? ==> r == outcome.response
    ensures configPresent && outcome.Threw? ==>
      r == Response(500, Error(if outcome.message != "" then outcome.message else "Unexpected server error"))
  {
    if !configPresent then Response(500, Error(missingMessage))
    else match outcome
      case Returned(resp) => resp
      case Threw(message) => Response(500, Error(ErrorText(message, "Unexpected server error")))
  }
}
