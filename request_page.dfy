/**
 * The guest song-request page (src/app/request/page.tsx). The page's state
 * variables are the fields of `RequestPage`; every fetch it makes is a parameter
 * holding what came back (`None` when the fetch or its JSON parsing threw).
 */
module RequestPage {
  import opened Wrappers
  import opened Js
  import opened Lists
  import opened Types
  import opened SearchRoute

  const PlaceholderAlbum: string := "/placeholder-album.svg"

  /** `hits.map((hit) => hit.result)` */
  function HitResults(hits: seq<Hit>): (r: seq<HitResult>)
    ensures |r| == |hits|
    ensures forall i :: 0 <= i < |hits| ==> r[i] == hits[i].result
  {
    seq(|hits|, i requires 0 <= i < |hits| => hits[i].result)
  }

  /**
   * The search results after `searchSongs` finishes, from the results before it
   * and what the search fetch gave. A thrown fetch or a non-ok status keeps the
   * results; an ok body with `response.hits` gives the hits' records; an ok body
   * without them gives none; a `hits` that is truthy but not an array makes
   * `.map` throw, which keeps the results.
   */
  function ResultsAfterSearch(current: seq<HitResult>, outcome: Option<Response<SearchBody>>): (r: seq<HitResult>)
    ensures outcome.None? || !outcome.value.Ok() ==> r == current
    ensures outcome.Some? && outcome.value.Ok() && outcome.value.Failure? ==> r == []
    ensures outcome.Some? && outcome.value.Reply? && outcome.value.Ok() ==>
      var body := outcome.value.body;
      && (body.response.None? ==> r == [])
      && (body.response.Some? && body.response.value.hits.HitsArray? ==> r == HitResults(body.response.value.hits.hits))
      && (body.response.Some? && body.response.value.hits.NoHits? ==> r == [])
      && (body.response.Some? && body.response.value.hits.HitsOther? ==>
            r == if body.response.value.hits.truthy then current else [])
  {
    match outcome
    case None => current
    case Some(reply) =>
      if !reply.Ok() then current
      else match reply
        case Failure(_, _) => []
        case Reply(_, body) =>
          match body.response
          case None => []
          case Some(resp) =>
            match resp.hits
            case HitsArray(hits) => HitResults(hits)
            case NoHits => []
            case HitsOther(truthy) => if truthy then current else []
  }

  /** What the page holds after loading the recent-request list. */
  function RecentAfterLoad(current: seq<SongRequest>, outcome: Option<Response<seq<SongRequest>>>): (r: seq<SongRequest>)
    ensures outcome.None? ==> r == current
    ensures outcome.Some? && outcome.value.Reply? ==> r == outcome.value.body
    ensures outcome.Some? && outcome.value.Failure? ==> r == []
  {
    match outcome
    case None => current
    case Some(Reply(_, rows)) => rows
    case Some(Failure(_, _)) => []
  }

  /** An album image source: the url, or the placeholder when it is empty. */
  function ImageSrc(url: string): (r: string)
    ensures r != []
    ensures url != [] ==> r == url
    ensures url == [] ==> r == PlaceholderAlbum
  {
    Or(Str(url), Str(PlaceholderAlbum)).s
  }

  /** What a request submission gave: the POST threw, answered not ok, or answered ok followed by a refresh of the list. */
  datatype SubmitOutcome = PostThrew | PostNotOk | PostOk(refresh: Option<Response<seq<SongRequest>>>)

  /**
   * A route reply that passed every guard shows exactly the hits it carries,
   * in their order.
   */
  lemma {:induction false} RouteReplyShowsItsHits(q: Option<string>, token: Option<string>, u: Upstream, current: seq<HitResult>)
    requires Search(q, token, u).Reply?
    ensures var body := Search(q, token, u).body;
      ResultsAfterSearch(current, Some(Search(q, token, u))) == HitResults(body.response.value.hits.hits)
  {
    ReplyCarriesHits(q, token, u);
  }

  /** Any failure answer of the search route leaves the results as they were. */
  lemma RouteFailureKeepsResults(q: Option<string>, token: Option<string>, u: Upstream, current: seq<HitResult>)
    requires Search(q, token, u).Failure?
    ensures ResultsAfterSearch(current, Some(Search(q, token, u))) == current
  {
  }

  class RequestPage {
    var searchQuery: string
    var searchResults: seq<HitResult>
    var isSearching: bool
    var isSubmitting: bool
    var acceptingRequests: bool
    var recentRequests: seq<SongRequest>

    /** The initial state: requests are taken to be closed until the setting is loaded. */
    constructor ()
      ensures searchQuery == "" && searchResults == [] && recentRequests == []
      ensures !isSearching && !isSubmitting && !acceptingRequests
      ensures ShowsClosedView()
    {
      searchQuery := "";
      searchResults := [];
      isSearching := false;
      isSubmitting := false;
      acceptingRequests := false;
      recentRequests := [];
    }

    /** The page renders only the "not being accepted" card while the flag is false. */
    predicate ShowsClosedView()
      reads this
    {
      !acceptingRequests
    }

    /** The recent requests on screen: at most the first ten. */
    function RecentShown(): (r: seq<SongRequest>)
      reads this
      ensures |r| <= 10 && r <= recentRequests
      ensures |recentRequests| >= 10 ==> |r| == 10
      ensures |r| == if |recentRequests| < 10 then |recentRequests| else 10
    {
      Take(recentRequests, 10)
    }

    /**
     * The setting fetch on mount: `data.acceptingRequests` from the reply. An
     * error body has no such field, which leaves the flag falsy.
     */
    method LoadSetting(outcome: Option<Response<bool>>)
      modifies this`acceptingRequests
      ensures outcome.None? ==> acceptingRequests == old(acceptingRequests)
      ensures outcome.Some? ==> (acceptingRequests <==> outcome.value.Reply? && outcome.value.body)
    {
      match outcome {
        case None =>
        case Some(Reply(_, accepting)) => acceptingRequests := accepting;
        case Some(Failure(_, _)) => acceptingRequests := false;
      }
    }

    /** The recent-request fetch on mount. */
    method LoadRecent(outcome: Option<Response<seq<SongRequest>>>)
      modifies this`recentRequests
      ensures recentRequests == RecentAfterLoad(old(recentRequests), outcome)
    {
      recentRequests := RecentAfterLoad(recentRequests, outcome);
    }

    /** Typing in the search box. */
    method SetSearchQuery(q: string)
      modifies this`searchQuery
      ensures searchQuery == q
    {
      searchQuery := q;
    }

    /** The start of `searchSongs`: a blank query stops here and changes nothing. */
    method StartSearch() returns (started: bool)
      modifies this`isSearching
      ensures started <==> Trim(searchQuery) != []
      ensures started ==> isSearching
      ensures !started ==> isSearching == old(isSearching)
    {
      if Trim(searchQuery) == [] {
        return false;
      }
      isSearching := true;
      started := true;
    }

    /** The end of `searchSongs`, once the fetch has settled: results from the outcome, and never still searching. */
    method FinishSearch(outcome: Option<Response<SearchBody>>)
      modifies this`searchResults, this`isSearching
      ensures searchResults == ResultsAfterSearch(old(searchResults), outcome)
      ensures !isSearching
    {
      searchResults := ResultsAfterSearch(searchResults, outcome);
      isSearching := false;
    }

    /** `searchSongs` as one call. */
    method SearchSongs(outcome: Option<Response<SearchBody>>) returns (searched: bool)
      modifies this`searchResults, this`isSearching
      ensures searched <==> Trim(searchQuery) != []
      ensures !searched ==> searchResults == old(searchResults) && isSearching == old(isSearching)
      ensures searched ==> searchResults == ResultsAfterSearch(old(searchResults), outcome) && !isSearching
    {
      searched := StartSearch();
      if searched {
        FinishSearch(outcome);
      }
    }

    /** The start of `submitRequest`: nothing is sent while requests are closed. */
    method StartSubmit() returns (sent: bool)
      modifies this`isSubmitting
      ensures sent <==> acceptingRequests
      ensures sent ==> isSubmitting
      ensures !sent ==> isSubmitting == old(isSubmitting)
    {
      if !acceptingRequests {
        return false;
      }
      isSubmitting := true;
      sent := true;
    }

    /**
     * The end of `submitRequest`: an ok POST clears the query and results and
     * replaces the recent list with the refresh; anything else leaves them.
     */
    method FinishSubmit(outcome: SubmitOutcome)
      modifies this`searchQuery, this`searchResults, this`recentRequests, this`isSubmitting
      ensures !isSubmitting
      ensures outcome.PostOk? ==> searchQuery == "" && searchResults == []
                                  && recentRequests == RecentAfterLoad(old(recentRequests), outcome.refresh)
      ensures !outcome.PostOk? ==> searchQuery == old(searchQuery) && searchResults == old(searchResults)
                                   && recentRequests == old(recentRequests)
    {
      if outcome.PostOk? {
        searchQuery := "";
        searchResults := [];
        recentRequests := RecentAfterLoad(recentRequests, outcome.refresh);
      }
      isSubmitting := false;
    }

    /** `submitRequest` as one call. */
    method SubmitRequest(outcome: SubmitOutcome) returns (sent: bool)
      modifies this`searchQuery, this`searchResults, this`recentRequests, this`isSubmitting
      ensures sent <==> acceptingRequests
      ensures !sent ==> searchQuery == old(searchQuery) && searchResults == old(searchResults)
                        && recentRequests == old(recentRequests) && isSubmitting == old(isSubmitting)
      ensures sent ==> !isSubmitting
      ensures sent && outcome.PostOk? ==> searchQuery == "" && searchResults == []
                                          && recentRequests == RecentAfterLoad(old(recentRequests), outcome.refresh)
      ensures sent && !outcome.PostOk? ==> searchQuery == old(searchQuery) && searchResults == old(searchResults)
                                           && recentRequests == old(recentRequests)
    {
      sent := StartSubmit();
      if sent {
        FinishSubmit(outcome);
      }
    }
  }
}
