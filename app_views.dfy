/** Views the App component derives from its state: counts, suggestions, filters and groupings. */
module AppViews {
  import opened Basics
  import opened Text
  import opened Entities

  function IsAvailable(): Musician -> bool {
    (m: Musician) => m.available
  }

  /** The number of available musicians, counted from the back of the list one musician at a time. */
  function AvailableCount(musicians: seq<Musician>): nat {
    if musicians == [] then 0
    else AvailableCount(musicians[..|musicians| - 1]) + (if musicians[|musicians| - 1].available then 1 else 0)
  }

  /** Filtering and counting agree: the kept musicians are as many as the available ones. */
  lemma {:induction false} FilterCountsAvailable(musicians: seq<Musician>)
    ensures |Filter(musicians, IsAvailable())| == AvailableCount(musicians)
    decreases |musicians|
  {
    if musicians != [] {
      var init := musicians[..|musicians| - 1];
      var last := musicians[|musicians| - 1];
      assert musicians == init + [last];
      FilterAppend(init, [last], IsAvailable());
      FilterCountsAvailable(init);
      assert Filter([last], IsAvailable()) == (if last.available then [last] else []) + Filter([last][1..], IsAvailable());
    }
  }

  /** `musicians.filter((m) => m.available).length`. */
  function ActiveMusicians(musicians: seq<Musician>): (n: nat)
    ensures n == AvailableCount(musicians)
    ensures n <= |musicians|
    ensures n == |musicians| <==> forall i :: 0 <= i < |musicians| ==> musicians[i].available
    ensures n == 0 <==> forall i :: 0 <= i < |musicians| ==> !musicians[i].available
  {
    CountAvailable(musicians);
    FilterCountsAvailable(musicians);
    |Filter(musicians, IsAvailable())|
  }

  lemma {:induction false} CountAvailable(musicians: seq<Musician>)
    ensures |Filter(musicians, IsAvailable())| == |musicians| <==> forall i :: 0 <= i < |musicians| ==> musicians[i].available
    ensures |Filter(musicians, IsAvailable())| == 0 <==> forall i :: 0 <= i < |musicians| ==> !musicians[i].available
  {
    if musicians != [] {
      CountAvailable(musicians[1..]);
      assert forall i :: 1 <= i < |musicians| ==> musicians[i] == musicians[1..][i - 1];
      if !musicians[0].available {
        assert |Filter(musicians[1..], IsAvailable())| <= |musicians[1..]|;
      }
    }
  }

  /** Same community, compared after lower-casing both names. */
  function SameCommunity(request: Request): Musician -> bool {
    (m: Musician) => ToLower(m.community) == ToLower(request.community)
  }

  /**
   * `findSuggestedMusicians`: up to three available musicians, taken from the request's own community
   * when any available musician belongs to it and from all available musicians otherwise.
   */
  function SuggestedMusicians(musicians: seq<Musician>, request: Request): (r: seq<Musician>)
    ensures |r| <= 3
    ensures forall m :: m in r ==> m in musicians && m.available
    ensures (exists m :: m in musicians && m.available && SameCommunity(request)(m)) ==>
      r == Take(Filter(Filter(musicians, IsAvailable()), SameCommunity(request)), 3) &&
      forall m :: m in r ==> SameCommunity(request)(m)
    ensures (forall m :: m in musicians && m.available ==> !SameCommunity(request)(m)) ==>
      r == Take(Filter(musicians, IsAvailable()), 3)
  {
    var available := Filter(musicians, IsAvailable());
    var exactCommunity := Filter(available, SameCommunity(request));
    if |exactCommunity| > 0 then
      assert exactCommunity[0] in exactCommunity;
      Take(exactCommunity, 3)
    else
      Take(available, 3)
  }

  function CommunityContains(filter: string): Request -> bool {
    (r: Request) => Contains(ToLower(r.community), ToLower(filter))
  }

  /**
   * `filteredRequests`: every request when the filter is empty; otherwise, in order, the requests whose
   * community contains the filter, ignoring case.
   */
  function FilteredRequests(requests: seq<Request>, filter: string): (r: seq<Request>)
    ensures filter == "" ==> r == requests
    ensures filter != "" ==> forall q :: q in r <==> q in requests && Contains(ToLower(q.community), ToLower(filter))
    ensures IsSubsequence(r, requests)
    ensures filter != "" ==>
      forall q :: multiset(r)[q] == (if Contains(ToLower(q.community), ToLower(filter)) then multiset(requests)[q] else 0)
  {
    if filter == "" then
      SubsequenceOfItself(requests);
      requests
    else
      FilterIsSubsequence(requests, CommunityContains(filter));
      FilterMultiset(requests, CommunityContains(filter));
      Filter(requests, CommunityContains(filter))
  }

  lemma {:induction false} SubsequenceOfItself<T>(s: seq<T>)
    ensures IsSubsequence(s, s)
  {
    if s != [] {
      SubsequenceOfItself(s[1..]);
    }
  }

  function ForRequest(requestId: string): Reply -> bool {
    (x: Reply) => x.requestId == requestId
  }

  /**
   * `responsesByRequest`: one group per request id that occurs, holding that request's responses in
   * list order.
   */
  method ResponsesByRequest(responses: seq<Reply>) returns (grouped: map<string, seq<Reply>>)
    ensures grouped.Keys == set i | 0 <= i < |responses| :: responses[i].requestId
    ensures forall k :: k in grouped ==> grouped[k] == Filter(responses, ForRequest(k))
  {
    grouped := map[];
    for i := 0 to |responses|
      invariant grouped.Keys == set j | 0 <= j < i :: responses[j].requestId
      invariant forall k :: k in grouped ==> grouped[k] == Filter(responses[..i], ForRequest(k))
    {
      var x := responses[i];
      var prefix := responses[..i];
      assert responses[..i + 1] == prefix + [x];
      forall k
        ensures Filter(prefix + [x], ForRequest(k)) == Filter(prefix, ForRequest(k)) + (if x.requestId == k then [x] else [])
      {
        FilterAppend(prefix, [x], ForRequest(k));
        assert Filter([x], ForRequest(k)) == (if x.requestId == k then [x] else []) + Filter([x][1..], ForRequest(k));
      }
      if x.requestId !in grouped {
        assert forall j :: 0 <= j < i ==> responses[j].requestId != x.requestId;
        NoneForRequest(prefix, x.requestId);
      }
      var group := if x.requestId in grouped then grouped[x.requestId] else [];
      grouped := grouped[x.requestId := group + [x]];
    }
    assert responses[..|responses|] == responses;
  }

  lemma {:induction false} NoneForRequest(s: seq<Reply>, requestId: string)
    requires forall j :: 0 <= j < |s| ==> s[j].requestId != requestId
    ensures Filter(s, ForRequest(requestId)) == []
  {
    if s != [] {
      NoneForRequest(s[1..], requestId);
    }
  }
}
