/**
 * The data state of the browser client: the collections it shows and the request-to-musician map of
 * confirmed matches. The App component and the `useJalaData` hook each hold one and update it the same
 * way, except for how a confirmation decides whether a match already exists.
 */
module ClientState {
  import opened Basics
  import opened Numbers
  import opened Json
  import opened Entities

  /** The four collections as the data API returned them. */
  datatype Fetched = Fetched(musicians: seq<Musician>, requests: seq<Request>, responses: seq<Reply>,
                             matches: seq<Match>)

  datatype Samples = Samples(musicians: seq<Musician>, requests: seq<Request>, responses: seq<Reply>)

  /** A call `acceptMusician` makes on the data API. */
  datatype ApiCall =
    | CreateMatch(id: string, requestId: string, musicianId: string)
    | PatchMatch(id: string, requestId: string, musicianId: string)
    | PatchRequestStatus(id: string, status: string)

  /**
   * How a confirmation tests for an existing match: the App component looks for the key among the
   * map's entries, the hook asks whether the stored musician id is truthy.
   */
  datatype MatchRule = KeyPresent | ValueTruthy

  predicate HasExistingMatch(rule: MatchRule, accepted: map<string, string>, requestId: string) {
    match rule
    case KeyPresent => requestId in accepted
    case ValueTruthy => requestId in accepted && accepted[requestId] != ""
  }

  /** The match call for a confirmation: patch an existing match, create one otherwise. */
  function MatchCall(rule: MatchRule, accepted: map<string, string>, requestId: string, musicianId: string)
    : (call: ApiCall)
    ensures call.PatchMatch? <==> HasExistingMatch(rule, accepted, requestId)
    ensures call.PatchMatch? || call.CreateMatch?
    ensures call.id == requestId && call.requestId == requestId && call.musicianId == musicianId
  {
    if HasExistingMatch(rule, accepted, requestId) then PatchMatch(requestId, requestId, musicianId)
    else CreateMatch(requestId, requestId, musicianId)
  }

  /** The two rules disagree exactly on a request mapped to an empty musician id. */
  lemma RulesDiverge(accepted: map<string, string>, requestId: string, musicianId: string)
    ensures MatchCall(KeyPresent, accepted, requestId, musicianId) != MatchCall(ValueTruthy, accepted, requestId, musicianId)
      <==> requestId in accepted && accepted[requestId] == ""
  {
  }

  /** The checkout body for a newly stored request: its id, committee and needs, and the form's amount. */
  function CheckoutRequest(created: Request, payload: Record): (body: Record)
    ensures body.Keys == {"requestId", "committee", "needs", "amountAud"}
    ensures body["requestId"] == Str(created.id) && body["amountAud"] == Get(payload, "amountAud")
    ensures body["committee"] == Str(created.committee) && body["needs"] == Str(created.needs)
  {
    map["requestId" := Str(created.id), "committee" := Str(created.committee), "needs" := Str(created.needs),
        "amountAud" := Get(payload, "amountAud")]
  }

  class DataState {
    var musicians: seq<Musician>
    var requests: seq<Request>
    var responses: seq<Reply>
    var acceptedByRequest: map<string, string>

    constructor ()
      ensures musicians == [] && requests == [] && responses == [] && acceptedByRequest == map[]
    {
      musicians, requests, responses, acceptedByRequest := [], [], [], map[];
    }

    /**
     * The initial load: `fetched` is the four collections, or none when any of the calls failed, in
     * which case the samples are shown and the match map is left as it was.
     */
    method Load(fetched: Option<Fetched>, samples: Samples)
      modifies this
      ensures fetched.Some? ==>
        musicians == WithFallback(fetched.value.musicians, samples.musicians) &&
        requests == WithFallback(fetched.value.requests, samples.requests) &&
        responses == WithFallback(fetched.value.responses, samples.responses) &&
        acceptedByRequest == MatchMap(fetched.value.matches)
      ensures fetched.None? ==>
        musicians == samples.musicians && requests == samples.requests && responses == samples.responses &&
        acceptedByRequest == old(acceptedByRequest)
    {
      if fetched.None? {
        musicians, requests, responses := samples.musicians, samples.requests, samples.responses;
        return;
      }
      var data := fetched.value;
      musicians := WithFallback(data.musicians, samples.musicians);
      requests := WithFallback(data.requests, samples.requests);
      responses := WithFallback(data.responses, samples.responses);
      acceptedByRequest := MatchesByRequest(data.matches);
    }

    /**
     * `addMusician`: sends the form with `performances: 0`; `created` is the stored musician, or none
     * when the call failed. A new musician goes to the front of the list.
     */
    method AddMusician(payload: Record, created: Option<Musician>) returns (sent: Record)
      modifies this
      ensures sent == payload["performances" := Num(Int(0))]
      ensures created.Some? ==> musicians == [created.value] + old(musicians)
      ensures created.None? ==> musicians == old(musicians)
      ensures requests == old(requests) && responses == old(responses) && acceptedByRequest == old(acceptedByRequest)
    {
      sent := payload["performances" := Num(Int(0))];
      if created.Some? {
        musicians := [created.value] + musicians;
      }
    }

    /**
     * `addRequest`: sends the form as an open request and puts the stored request at the front. The
     * hook then asks for a checkout session for it (`startCheckout`); the App component does not.
     */
    method AddRequest(payload: Record, created: Option<Request>, startCheckout: bool)
      returns (sent: Record, checkout: Option<Record>)
      modifies this
      ensures sent == payload["status" := Str("Open")]
      ensures created.Some? ==> requests == [created.value] + old(requests)
      ensures created.None? ==> requests == old(requests)
      ensures checkout.Some? <==> created.Some? && startCheckout
      ensures checkout.Some? ==> checkout.value == CheckoutRequest(created.value, payload)
      ensures musicians == old(musicians) && responses == old(responses) && acceptedByRequest == old(acceptedByRequest)
    {
      sent := payload["status" := Str("Open")];
      checkout := None;
      if created.Some? {
        requests := [created.value] + requests;
        if startCheckout {
          checkout := Some(CheckoutRequest(created.value, payload));
        }
      }
    }

    /** The hook's reaction to the verify answer: a paid result marks that one request Paid. */
    method ApplyVerifyResult(paid: bool, requestId: Value)
      modifies this
      ensures paid && requestId.Str? ==> requests == WithStatus(old(requests), requestId.text, "Paid")
      ensures !(paid && requestId.Str?) ==> requests == old(requests)
      ensures musicians == old(musicians) && responses == old(responses) && acceptedByRequest == old(acceptedByRequest)
    {
      if paid && requestId.Str? {
        requests := WithStatus(requests, requestId.text, "Paid");
      }
    }

    /**
     * `acceptMusician`: the match call, then the request's status call. `matchOk` and `statusOk` say
     * whether each call succeeded; the state changes only once both have.
     */
    method AcceptMusician(rule: MatchRule, requestId: string, musicianId: string, matchOk: bool, statusOk: bool)
      returns (calls: seq<ApiCall>)
      modifies this
      ensures |calls| == if matchOk then 2 else 1
      ensures calls[0] == MatchCall(rule, old(acceptedByRequest), requestId, musicianId)
      ensures matchOk ==> calls[1] == PatchRequestStatus(requestId, "Confirmed")
      ensures matchOk && statusOk ==>
        acceptedByRequest == old(acceptedByRequest)[requestId := musicianId] &&
        requests == WithStatus(old(requests), requestId, "Confirmed")
      ensures !(matchOk && statusOk) ==> acceptedByRequest == old(acceptedByRequest) && requests == old(requests)
      ensures musicians == old(musicians) && responses == old(responses)
    {
      calls := [MatchCall(rule, acceptedByRequest, requestId, musicianId)];
      if !matchOk {
        return;
      }
      calls := calls + [PatchRequestStatus(requestId, "Confirmed")];
      if !statusOk {
        return;
      }
      acceptedByRequest := acceptedByRequest[requestId := musicianId];
      requests := WithStatus(requests, requestId, "Confirmed");
    }
  }
}
