/** The artist search route `GET /search`, wrapped in the response cache, and
    the error middleware behind it. `getArtistStats` is not part of the
    client as modelled; it is the parameter `getArtistStats`. */
module ArtistRoutes {
  import opened Wrappers
  import opened Errors
  import opened Schemas
  import opened ErrorHandler
  import opened ResponseNormalizer
  import opened KeyValueStore
  import opened Http
  import opened CacheMiddleware
  import opened Spotify

  const QueryRequiredMessage := "Search query is required"
  const NoResultsMessage := "No artists found matching the search query"
  const SearchCacheTtl := "5m"

  /** `!q || typeof q !== 'string'` fails: `q` is a non-empty string. */
  predicate QueryUsable(q: Param)
  {
    q.Text? && q.s != ""
  }

  /** `Promise.all(artists.map(getArtistStats))`: one result per artist, in
      the artists' order, or the first failure in that order. */
  function CollectStats(artists: seq<Artist>, getArtistStats: Artist -> Result<ArtistStats, Thrown>)
    : (r: Result<seq<ArtistStats>, Thrown>)
    ensures r.Success? <==> forall i :: 0 <= i < |artists| ==> getArtistStats(artists[i]).Success?
    ensures r.Success? ==> |r.value| == |artists|
                           && forall i :: 0 <= i < |artists| ==> r.value[i] == getArtistStats(artists[i]).value
    ensures r.Failure? ==> exists i :: 0 <= i < |artists| && getArtistStats(artists[i]) == Failure(r.error)
                                       && forall j :: 0 <= j < i ==> getArtistStats(artists[j]).Success?
    decreases |artists|
  {
    if artists == [] then Success([])
    else match getArtistStats(artists[0])
         case Failure(t) => Failure(t)
         case Success(s) =>
           match CollectStats(artists[1..], getArtistStats)
           case Failure(t) =>
             assert forall j :: 1 <= j <= |artists| - 1 ==> artists[1..][j - 1] == artists[j];
             Failure(t)
           case Success(rest) =>
             assert forall j :: 1 <= j <= |artists| - 1 ==> artists[1..][j - 1] == artists[j];
             Success([s] + rest)
  }

  /** What the handler makes of a settled search once the query passed its
      check: a failed search propagates; an undefined or empty result is a
      NotFoundError with the fixed message; otherwise the stats of every
      result, one per result and in the same order, unless a lookup fails. */
  function SearchResponse(artists: Result<Option<seq<Artist>>, Thrown>,
                          getArtistStats: Artist -> Result<ArtistStats, Thrown>): (r: Result<seq<ArtistStats>, Thrown>)
    ensures artists.Failure? ==> r == Failure(artists.error)
    ensures artists.Success? && (artists.value.None? || artists.value.value == []) ==>
              r == Failure(Raised(NotFoundError(Some(NoResultsMessage))))
    ensures r.Success? ==> && artists.Success? && artists.value.Some?
                           && |r.value| == |artists.value.value| > 0
                           && forall i :: 0 <= i < |r.value| ==>
                                && getArtistStats(artists.value.value[i]).Success?
                                && r.value[i] == getArtistStats(artists.value.value[i]).value
    ensures artists.Success? && artists.value.Some? && artists.value.value != [] ==>
              (r.Success? <==> forall i :: 0 <= i < |artists.value.value| ==> getArtistStats(artists.value.value[i]).Success?)
    ensures artists.Success? && artists.value.Some? && artists.value.value != [] && r.Failure? ==>
              exists i :: 0 <= i < |artists.value.value| && getArtistStats(artists.value.value[i]) == Failure(r.error)
                          && forall j :: 0 <= j < i ==> getArtistStats(artists.value.value[j]).Success?
  {
    match artists
    case Failure(t) => Failure(t)
    case Success(None) => Failure(Raised(NotFoundError(Some(NoResultsMessage))))
    case Success(Some(items)) =>
      if items == [] then Failure(Raised(NotFoundError(Some(NoResultsMessage))))
      else CollectStats(items, getArtistStats)
  }

  /** The outcome of the `/search` handler body for a client in token state
      `s`: the stats list it sends, or the error it passes to `next`. A
      missing, empty or non-string query is rejected with a BadRequestError
      before the provider is asked; a success is never an empty list and
      holds one record per artist the search found. */
  function RouteOutcome(q: Param, s: TokenState,
                        first: Result<Option<seq<Artist>>, Thrown>, second: Result<Option<seq<Artist>>, Thrown>,
                        now: int, grant: Result<Grant, Thrown>,
                        getArtistStats: Artist -> Result<ArtistStats, Thrown>): (r: Result<seq<ArtistStats>, Thrown>)
    ensures !QueryUsable(q) ==> r == Failure(Raised(BadRequestError(Some(QueryRequiredMessage))))
    ensures r.Success? ==>
              var found := SearchOutcome(s, first, second, now, grant);
              && QueryUsable(q) && found.Success? && found.value.Some?
              && |r.value| == |found.value.value| > 0
              && forall i :: 0 <= i < |found.value.value| ==> getArtistStats(found.value.value[i]).Success?
    ensures var found := SearchOutcome(s, first, second, now, grant);
            (&& QueryUsable(q) && found.Success? && found.value.Some? && found.value.value != []
             && forall i :: 0 <= i < |found.value.value| ==> getArtistStats(found.value.value[i]).Success?)
            ==> r.Success?
  {
    if !QueryUsable(q) then Failure(Raised(BadRequestError(Some(QueryRequiredMessage))))
    else SearchResponse(SearchOutcome(s, first, second, now, grant), getArtistStats)
  }

  /** The response sent for a handler outcome: the stats list with 200, or
      the error middleware's body. Only a success carries a list; an error
      body always has status "error" and a non-empty message; a NotFoundError
      answers 404, a BadRequestError 400 and a thrown non-Error 500. */
  function ResponseFor(outcome: Result<seq<ArtistStats>, Thrown>, stack: string, nodeEnv: Option<string>): (r: Emission)
    ensures r.body.ArtistList? <==> outcome.Success?
    ensures outcome.Success? ==> r == Emission(200, ArtistList(outcome.value))
    ensures outcome.Failure? ==> r.body.ErrorJson? && r.body.error.status == "error" && r.body.error.message != ""
    ensures (outcome.Failure? && outcome.error.Raised? && outcome.error.err.IsNotFoundError()
             && outcome.error.err.statusCode == Some(404)) ==> r.status == 404
    ensures (outcome.Failure? && outcome.error.Raised? && outcome.error.err.IsBadRequestError()
             && outcome.error.err.statusCode == Some(400)) ==> r.status == 400
    ensures outcome.Failure? && outcome.error.NonError? ==> r.status == 500
  {
    match outcome
    case Success(stats) => Emission(200, ArtistList(stats))
    case Failure(t) =>
      var resp := HandleError(t, stack, nodeEnv);
      Emission(resp.statusCode, ErrorJson(resp.body))
  }

  /** `GET /search?q=` is answered 400 with `{status: "error", message:
      "Search query is required"}`, and no stack outside development. */
  lemma EmptyQueryScenario(s: TokenState,
                           first: Result<Option<seq<Artist>>, Thrown>, second: Result<Option<seq<Artist>>, Thrown>,
                           now: int, grant: Result<Grant, Thrown>,
                           getArtistStats: Artist -> Result<ArtistStats, Thrown>, stack: string, nodeEnv: Option<string>)
    requires nodeEnv != Some("development")
    ensures ResponseFor(RouteOutcome(Text(""), s, first, second, now, grant, getArtistStats), stack, nodeEnv)
            == Emission(400, ErrorJson(ErrorBody("error", QueryRequiredMessage, None)))
  {
  }

  /** A search whose first request is answered with an empty list is
      answered 404 with `{status: "error", message: "No artists found
      matching the search query"}`, and no stack outside development. */
  lemma NoResultsScenario(q: string, s: TokenState, second: Result<Option<seq<Artist>>, Thrown>,
                          now: int, grant: Result<Grant, Thrown>,
                          getArtistStats: Artist -> Result<ArtistStats, Thrown>, stack: string, nodeEnv: Option<string>)
    requires q != "" && nodeEnv != Some("development")
    ensures ResponseFor(RouteOutcome(Text(q), s, Success(Some([])), second, now, grant, getArtistStats),
                        stack, nodeEnv)
            == Emission(404, ErrorJson(ErrorBody("error", NoResultsMessage, None)))
  {
  }

  /** A search whose first request finds one artist, whose stats lookup
      succeeds, is answered 200 with a one-element list holding those stats. */
  lemma OneResultScenario(q: string, s: TokenState, a: Artist, st: ArtistStats,
                          second: Result<Option<seq<Artist>>, Thrown>, now: int, grant: Result<Grant, Thrown>,
                          getArtistStats: Artist -> Result<ArtistStats, Thrown>, stack: string, nodeEnv: Option<string>)
    requires q != "" && getArtistStats(a) == Success(st)
    ensures ResponseFor(RouteOutcome(Text(q), s, Success(Some([a])), second, now, grant, getArtistStats), stack, nodeEnv)
            == Emission(200, ArtistList([st]))
  {
  }

  /** The `/search` handler. `first`, `second`, `now` and `grant` feed the
      client's search; `writeFault` decides whether the cache writes made
      while sending reach the store. */
  method SearchHandler(service: SpotifyService, ex: Exchange, store: Store,
                       first: Result<Option<seq<Artist>>, Thrown>, second: Result<Option<seq<Artist>>, Thrown>,
                       now: int, grant: Result<Grant, Thrown>,
                       getArtistStats: Artist -> Result<ArtistStats, Thrown>, writeFault: Option<AppError>)
    modifies service, ex, store
    ensures ex.hooks == old(ex.hooks) && ex.statusCode == old(ex.statusCode)
    ensures !QueryUsable(ex.q) ==> service.calls == old(service.calls) && service.State() == old(service.State())
    ensures QueryUsable(ex.q) ==>
              && service.State() == SearchState(old(service.State()), first, now, grant)
              && service.calls == old(service.calls) + SearchCalls(ex.q.s, old(service.State()), first, now, grant)
    ensures match RouteOutcome(ex.q, old(service.State()), first, second, now, grant, getArtistStats)
            case Failure(t) =>
              && ex.nextCalls == old(ex.nextCalls) + [Some(t)]
              && ex.sent == old(ex.sent) && store.entries == old(store.entries)
            case Success(stats) =>
              && ex.nextCalls == old(ex.nextCalls)
              && ex.sent == old(ex.sent) + [Emission(old(ex.statusCode), ArtistList(stats))]
              && store.entries == if writeFault.None? then WriteAll(old(store.entries), ex.hooks, ArtistList(stats))
                                  else old(store.entries)
  {
    if !QueryUsable(ex.q) {
      ex.Next(Some(Raised(BadRequestError(Some(QueryRequiredMessage)))));
      return;
    }
    var artists := service.SearchArtist(ex.q.s, first, second, now, grant);
    match SearchResponse(artists, getArtistStats)
    case Failure(t) =>
      ex.Next(Some(t));
    case Success(stats) =>
      ex.Json(ArtistList(stats), store, writeFault);
  }

  /** The error middleware sending its response for `err`. */
  method SendError(ex: Exchange, store: Store, err: Thrown, stack: string, nodeEnv: Option<string>,
                   writeFault: Option<AppError>)
    modifies ex, store
    ensures var resp := HandleError(err, stack, nodeEnv);
            && ex.statusCode == resp.statusCode
            && ex.sent == old(ex.sent) + [Emission(resp.statusCode, ErrorJson(resp.body))]
            && store.entries == if writeFault.None? then WriteAll(old(store.entries), ex.hooks, ErrorJson(resp.body))
                                else old(store.entries)
    ensures ex.hooks == old(ex.hooks) && ex.nextCalls == old(ex.nextCalls)
  {
    var resp := HandleError(err, stack, nodeEnv);
    ex.Status(resp.statusCode);
    ex.Json(ErrorJson(resp.body), store, writeFault);
  }

  /** One fresh `GET /search` request through `cache('5m')`, the handler and
      the error middleware. Exactly one response is sent. On a hit the body
      is the stored one and the client is not used. On a miss the response
      is the one the handler outcome calls for, and whatever body is sent,
      error bodies included, is written to the cache under the request's key
      with TTL "5m". */
  method SearchEndpoint(service: SpotifyService, ex: Exchange, store: Store, codec: Codec,
                        getFault: Option<AppError>, writeFault: Option<AppError>,
                        first: Result<Option<seq<Artist>>, Thrown>, second: Result<Option<seq<Artist>>, Thrown>,
                        now: int, grant: Result<Grant, Thrown>,
                        getArtistStats: Artist -> Result<ArtistStats, Thrown>,
                        stack: string, nodeEnv: Option<string>)
    requires ex.statusCode == 200 && ex.sent == [] && ex.hooks == [] && ex.nextCalls == []
    modifies service, ex, store
    ensures |ex.sent| == 1
    ensures var key := CacheKey(ex.originalUrl);
            match Decide(old(store.Reply(key, getFault)), codec)
            case Serve(b) =>
              && ex.sent == [Emission(200, b)]
              && service.calls == old(service.calls) && service.State() == old(service.State())
              && store.entries == old(store.entries)
            case Forward(e) =>
              && ex.sent == [ResponseFor(Failure(e), stack, nodeEnv)]
              && service.calls == old(service.calls) && service.State() == old(service.State())
              && store.entries == old(store.entries)
            case Miss =>
              && ex.sent == [ResponseFor(RouteOutcome(ex.q, old(service.State()), first, second, now, grant,
                                                      getArtistStats), stack, nodeEnv)]
              && (!QueryUsable(ex.q) ==> service.calls == old(service.calls) && service.State() == old(service.State()))
              && (QueryUsable(ex.q) ==>
                    && service.State() == SearchState(old(service.State()), first, now, grant)
                    && service.calls == old(service.calls) + SearchCalls(ex.q.s, old(service.State()), first, now, grant))
              && (writeFault.None? ==> store.entries == old(store.entries)[key := Entry(codec.serialise(ex.sent[0].body), Some(SearchCacheTtl))])
              && (writeFault.Some? ==> store.entries == old(store.entries))
  {
    Cache(SearchCacheTtl, ex, store, codec, getFault, writeFault);
    if ex.nextCalls == [] {
      return;
    }
    match ex.nextCalls[0]
    case Some(e) =>
      SendError(ex, store, e, stack, nodeEnv, writeFault);
    case None =>
      SearchHandler(service, ex, store, first, second, now, grant, getArtistStats, writeFault);
      if |ex.nextCalls| > 1 {
        var err := ex.nextCalls[1];
        if err.Some? {
          SendError(ex, store, err.value, stack, nodeEnv, writeFault);
        }
      }
  }
}
