/**
 * The song search route (src/app/api/search/route.ts): a chain of guards, each
 * with its own status, in front of one call to the lyrics service. The service's
 * answer is a parameter.
 */
module SearchRoute {
  import opened Wrappers
  import opened Types

  /** `response.hits` in the service's JSON: absent, an array of hits, or some other value. */
  datatype HitsField = NoHits | HitsArray(hits: seq<Hit>) | HitsOther(truthy: bool)

  /** `data.response`, when it is a (truthy) object. */
  datatype ServiceResponse = ServiceResponse(hits: HitsField)

  /** The parsed JSON body; `response` is `None` when it is absent or falsy. */
  datatype SearchBody = SearchBody(response: Option<ServiceResponse>)

  /** What the call to the service gives: it throws, or answers with a status and a body that parses (or not). */
  datatype Upstream = FetchThrew | Answered(status: int, json: Option<SearchBody>)

  /** `!data.response || !Array.isArray(data.response.hits)` is false. */
  predicate WellShaped(body: SearchBody) {
    body.response.Some? && body.response.value.hits.HitsArray?
  }

  predicate Blank(s: Option<string>) {
    s.None? || s.value == ""
  }

  /**
   * GET with `q` = the query parameter and `token` = the access token from the
   * environment. `upstream` is consulted only when both are present.
   */
  function Search(q: Option<string>, token: Option<string>, upstream: Upstream): (r: Response<SearchBody>)
    ensures r == Failure(400, "Query parameter is required") <==> Blank(q)
    ensures r == Failure(500, "Genius API token not configured") <==> !Blank(q) && Blank(token)
    ensures r == Failure(500, "Failed to search songs") <==>
      !Blank(q) && !Blank(token) &&
      (upstream.FetchThrew? || !(200 <= upstream.status <= 299) || upstream.json.None?)
    ensures r == Failure(502, "Invalid response from music search service") <==>
      !Blank(q) && !Blank(token) && upstream.Answered? && 200 <= upstream.status <= 299 &&
      upstream.json.Some? && !WellShaped(upstream.json.value)
    ensures r.Reply? <==>
      !Blank(q) && !Blank(token) && upstream.Answered? && 200 <= upstream.status <= 299 &&
      upstream.json.Some? && WellShaped(upstream.json.value)
    ensures r.Reply? ==> r == Reply(200, upstream.json.value)
  {
    if Blank(q) then Failure(400, "Query parameter is required")
    else if Blank(token) then Failure(500, "Genius API token not configured")
    else match upstream
      case FetchThrew => Failure(500, "Failed to search songs")
      case Answered(status, json) =>
        if !(200 <= status <= 299) then Failure(500, "Failed to search songs")
        else if json.None? then Failure(500, "Failed to search songs")
        else if !WellShaped(json.value) then Failure(502, "Invalid response from music search service")
        else Reply(200, json.value)
  }

  /** Without a query, or without a token, the service's answer makes no difference: it is never called. */
  lemma UpstreamUnusedWhenGuardFails(q: Option<string>, token: Option<string>, u1: Upstream, u2: Upstream)
    requires Blank(q) || Blank(token)
    ensures Search(q, token, u1) == Search(q, token, u2)
  {
  }

  /** A successful reply always carries an array of hits. */
  lemma ReplyCarriesHits(q: Option<string>, token: Option<string>, u: Upstream)
    requires Search(q, token, u).Reply?
    ensures Search(q, token, u).body.response.Some?
    ensures Search(q, token, u).body.response.value.hits.HitsArray?
  {
  }
}
