/**
 * The song-request moderation dashboard (src/app/request-dashboard/page.tsx),
 * which works on a fixed list of mock requests held in the page: a
 * case-insensitive search, approve and archive by id, the pending and approved
 * views, and a local accepting switch.
 */
module RequestDashboard {
  import opened Js
  import opened Lists

  datatype Status = Pending | Approved | Archived

  /** A mock request; `requestedAt` is a timestamp in milliseconds. */
  datatype MockRequest = MockRequest(
    id: string,
    artistName: string,
    songTitle: string,
    requesterName: string,
    requestedAt: int,
    status: Status)

  /** The search filter's test: artist, title or requester contains the term, ignoring case. */
  predicate Matches(r: MockRequest, term: string) {
    var t := ToLower(term);
    Includes(ToLower(r.artistName), t) || Includes(ToLower(r.songTitle), t) || Includes(ToLower(r.requesterName), t)
  }

  function MatchesTerm(term: string): MockRequest -> bool {
    r => Matches(r, term)
  }

  /** The filter effect: the requests that match, each as often as listed, in list order. */
  function FilterRequests(requests: seq<MockRequest>, term: string): (r: seq<MockRequest>)
    ensures forall x :: x in r <==> x in requests && Matches(x, term)
    ensures |r| <= |requests|
    ensures forall x :: multiset(r)[x] == if Matches(x, term) then multiset(requests)[x] else 0
    ensures IsSubsequence(r, requests)
  {
    FilterKeepsCountsAndOrder(requests, MatchesTerm(term));
    Filter(requests, MatchesTerm(term))
  }

  /** Every string contains the empty string. */
  lemma {:induction false} IncludesEmpty(s: string)
    ensures Includes(s, "")
  {
    assert StartsWith(s, "");
  }

  /** An empty search term keeps every request, in order. */
  lemma EmptyTermKeepsAll(requests: seq<MockRequest>)
    ensures FilterRequests(requests, "") == requests
  {
    forall x | x in requests ensures MatchesTerm("")(x) {
      IncludesEmpty(ToLower(x.artistName));
    }
    FilterAll(requests, MatchesTerm(""));
  }

  /** `prev.map(req => req.id === id ? { ...req, status } : req)` */
  function SetStatus(requests: seq<MockRequest>, id: string, status: Status): (r: seq<MockRequest>)
    ensures |r| == |requests|
    ensures forall i :: 0 <= i < |r| ==> r[i].(status := requests[i].status) == requests[i]
    ensures forall i :: 0 <= i < |r| ==> r[i].status == if requests[i].id == id then status else requests[i].status
  {
    seq(|requests|, i requires 0 <= i < |requests| =>
      if requests[i].id == id then requests[i].(status := status) else requests[i])
  }

  predicate IsPending(r: MockRequest) {
    r.status == Pending
  }

  predicate IsApproved(r: MockRequest) {
    r.status == Approved
  }

  /** `pendingRequests`: the pending ones among the filtered, each as often as there, in their order. */
  function PendingView(filtered: seq<MockRequest>): (r: seq<MockRequest>)
    ensures forall x :: x in r <==> x in filtered && x.status == Pending
    ensures forall x :: multiset(r)[x] == if x.status == Pending then multiset(filtered)[x] else 0
    ensures IsSubsequence(r, filtered)
  {
    FilterKeepsCountsAndOrder(filtered, IsPending);
    Filter(filtered, IsPending)
  }

  /** `approvedRequests`: the approved ones among the filtered, each as often as there, in their order. */
  function ApprovedView(filtered: seq<MockRequest>): (r: seq<MockRequest>)
    ensures forall x :: x in r <==> x in filtered && x.status == Approved
    ensures forall x :: multiset(r)[x] == if x.status == Approved then multiset(filtered)[x] else 0
    ensures IsSubsequence(r, filtered)
  {
    FilterKeepsCountsAndOrder(filtered, IsApproved);
    Filter(filtered, IsApproved)
  }

  /** The two views never share a request and never show an archived one. */
  lemma ViewsDisjoint(filtered: seq<MockRequest>)
    ensures forall x :: x in PendingView(filtered) ==> x !in ApprovedView(filtered) && x.status != Archived
    ensures forall x :: x in ApprovedView(filtered) ==> x.status != Archived
  {
  }

  /** After archiving an id, neither view shows a request with that id, whatever the search term. */
  lemma {:induction false} ArchivedIdLeavesViews(requests: seq<MockRequest>, term: string, id: string)
    ensures var filtered := FilterRequests(SetStatus(requests, id, Archived), term);
      forall x :: x in PendingView(filtered) + ApprovedView(filtered) ==> x.id != id
  {
    var updated := SetStatus(requests, id, Archived);
    var filtered := FilterRequests(updated, term);
    forall x | x in PendingView(filtered) + ApprovedView(filtered) ensures x.id != id {
      assert x in updated && x.status != Archived;
      var i :| 0 <= i < |updated| && updated[i] == x;
      assert updated[i].(status := requests[i].status) == requests[i];
    }
  }

  /** `new Set(requests.map(r => r.requesterName))` */
  function Requesters(requests: seq<MockRequest>): set<string> {
    set i | 0 <= i < |requests| :: requests[i].requesterName
  }

  /** The unique-requester count is at most the number of requests, and positive when there is one. */
  lemma {:induction false} RequestersBounded(requests: seq<MockRequest>)
    ensures |Requesters(requests)| <= |requests|
    ensures requests != [] ==> |Requesters(requests)| >= 1
  {
    if requests != [] {
      var rest := requests[1..];
      RequestersBounded(rest);
      assert Requesters(requests) == {requests[0].requesterName} + Requesters(rest) by {
        forall n | n in Requesters(requests) ensures n in {requests[0].requesterName} + Requesters(rest) {
          var i :| 0 <= i < |requests| && requests[i].requesterName == n;
          if i > 0 { assert rest[i - 1].requesterName == n; }
        }
        forall n | n in Requesters(rest) ensures n in Requesters(requests) {
          var i :| 0 <= i < |rest| && rest[i].requesterName == n;
          assert requests[i + 1].requesterName == n;
        }
      }
      assert requests[0].requesterName in Requesters(requests);
    }
  }

  class RequestDashboardPage {
    var requests: seq<MockRequest>
    var filteredRequests: seq<MockRequest>
    var searchTerm: string
    var acceptingRequests: bool
    var loading: bool

    /** The filter effect has run since the last change to the requests or the term. */
    ghost predicate Settled()
      reads this
    {
      filteredRequests == FilterRequests(requests, searchTerm)
    }

    constructor ()
      ensures requests == [] && searchTerm == "" && acceptingRequests && loading
      ensures Settled()
    {
      requests := [];
      filteredRequests := [];
      searchTerm := "";
      acceptingRequests := true;
      loading := true;
    }

    /** The timer that installs the mock list; the filter effect follows. */
    method Load(mock: seq<MockRequest>)
      modifies this`requests, this`filteredRequests, this`loading
      ensures requests == mock && !loading && Settled()
      ensures old(searchTerm) == "" ==> filteredRequests == mock
    {
      requests := mock;
      filteredRequests := mock;
      loading := false;
      filteredRequests := FilterRequests(requests, searchTerm);
      if searchTerm == "" {
        EmptyTermKeepsAll(mock);
      }
    }

    /** Typing in the search box; the filter effect follows. */
    method SetSearchTerm(term: string)
      modifies this`searchTerm, this`filteredRequests
      ensures searchTerm == term && Settled()
    {
      searchTerm := term;
      filteredRequests := FilterRequests(requests, searchTerm);
    }

    /** `handleApprove`; the filter effect follows. */
    method HandleApprove(id: string)
      modifies this`requests, this`filteredRequests
      ensures requests == SetStatus(old(requests), id, Approved) && Settled()
    {
      requests := SetStatus(requests, id, Approved);
      filteredRequests := FilterRequests(requests, searchTerm);
    }

    /** `handleArchive`; the filter effect follows. */
    method HandleArchive(id: string)
      modifies this`requests, this`filteredRequests
      ensures requests == SetStatus(old(requests), id, Archived) && Settled()
    {
      requests := SetStatus(requests, id, Archived);
      filteredRequests := FilterRequests(requests, searchTerm);
    }

    /** `toggleAcceptingRequests`, returning the toast it shows (chosen from the value before the switch). */
    method ToggleAcceptingRequests() returns (message: string)
      modifies this`acceptingRequests
      ensures acceptingRequests == !old(acceptingRequests)
      ensures message == if old(acceptingRequests) then "No longer accepting requests" else "Now accepting requests"
    {
      message := if acceptingRequests then "No longer accepting requests" else "Now accepting requests";
      acceptingRequests := !acceptingRequests;
    }
  }
}
