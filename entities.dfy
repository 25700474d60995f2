/** The records the browser client holds, and the pure updates both of its state holders share. */
module Entities {
  import opened Basics

  datatype Musician = Musician(
    id: string, name: string, community: string, instrument: Option<string>, contact: Option<string>,
    available: bool)

  datatype Request = Request(
    id: string, committee: string, community: string, date: string, needs: string, notes: string, status: string)

  /** One musician's answer to a request (an element of the `responses` collection). */
  datatype Reply = Reply(id: string, requestId: string, musicianId: string, message: string, status: string)

  datatype Match = Match(id: string, requestId: string, musicianId: string)

  /** `fetched.length ? fetched : sample`: an empty collection from the API shows the sample instead. */
  function WithFallback<T>(fetched: seq<T>, sample: seq<T>): (r: seq<T>)
    ensures r == fetched || r == sample
    ensures |r| == 0 ==> |fetched| == 0 && |sample| == 0
    ensures |fetched| > 0 ==> r == fetched
  {
    if |fetched| > 0 then fetched else sample
  }

  /** `prev.map((r) => (r.id === id ? { ...r, status } : r))`. */
  function WithStatus(requests: seq<Request>, id: string, status: string): (r: seq<Request>)
    ensures |r| == |requests|
    ensures forall i :: 0 <= i < |r| ==> r[i].id == requests[i].id
    ensures forall i :: 0 <= i < |r| && requests[i].id == id ==> r[i] == requests[i].(status := status)
    ensures forall i :: 0 <= i < |r| && requests[i].id != id ==> r[i] == requests[i]
  {
    seq(|requests|, i requires 0 <= i < |requests| =>
      if requests[i].id == id then requests[i].(status := status) else requests[i])
  }

  /** Setting a status twice is setting it once. */
  lemma WithStatusIdempotent(requests: seq<Request>, id: string, status: string)
    ensures WithStatus(WithStatus(requests, id, status), id, status) == WithStatus(requests, id, status)
  {
    var once := WithStatus(requests, id, status);
    var twice := WithStatus(once, id, status);
    assert forall i :: 0 <= i < |once| ==> twice[i] == once[i];
  }

  /** The request-to-musician map the loop `next[match.requestId] = match.musicianId` builds. */
  function MatchMap(matches: seq<Match>): (m: map<string, string>)
    ensures m.Keys == set i | 0 <= i < |matches| :: matches[i].requestId
  {
    if matches == [] then map[]
    else
      var last := matches[|matches| - 1];
      var m := MatchMap(matches[..|matches| - 1]);
      assert forall i :: 0 <= i < |matches| - 1 ==> matches[..|matches| - 1][i] == matches[i];
      m[last.requestId := last.musicianId]
  }

  /** The index of the last match for `requestId`, or -1. */
  function LastMatchFor(matches: seq<Match>, requestId: string): (k: int)
    ensures -1 <= k < |matches|
    ensures k >= 0 ==> matches[k].requestId == requestId
    ensures forall j :: k < j < |matches| ==> matches[j].requestId != requestId
  {
    if matches == [] then -1
    else if matches[|matches| - 1].requestId == requestId then |matches| - 1
    else LastMatchFor(matches[..|matches| - 1], requestId)
  }

  /** For duplicate request ids the later match wins. */
  lemma {:induction false} MatchMapLastWins(matches: seq<Match>, requestId: string)
    requires requestId in MatchMap(matches)
    ensures LastMatchFor(matches, requestId) >= 0
    ensures MatchMap(matches)[requestId] == matches[LastMatchFor(matches, requestId)].musicianId
  {
    var n := |matches|;
    if matches[n - 1].requestId != requestId {
      MatchMapLastWins(matches[..n - 1], requestId);
    }
  }

  /** `const next = {}; for (const match of matches) next[match.requestId] = match.musicianId`. */
  method MatchesByRequest(matches: seq<Match>) returns (next: map<string, string>)
    ensures next == MatchMap(matches)
  {
    next := map[];
    var i := 0;
    while i < |matches|
      invariant 0 <= i <= |matches|
      invariant next == MatchMap(matches[..i])
    {
      assert matches[..i + 1][..i] == matches[..i];
      next := next[matches[i].requestId := matches[i].musicianId];
      i := i + 1;
    }
    assert matches[..i] == matches;
  }
}
