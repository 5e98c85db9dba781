/** The music-metadata client: a client-credentials token with a local
    expiry time, one retry on an expired token, and the wrapping of provider
    failures into ApiErrors. The provider's answers, the clock and the grant
    are parameters. */
module Spotify {
  import opened Wrappers
  import opened Errors
  import opened ResponseNormalizer

  /** An artist object as the provider returns it; only its identity is
      modelled. */
  datatype Artist = Artist(id: string, name: string)

  /** The body of a successful client-credentials grant. */
  datatype Grant = Grant(accessToken: string, expiresIn: int)

  /** The requests the client sends to the provider. */
  datatype ProviderCall =
    | CredentialsGrant
    | SearchArtists(query: string, limit: int, token: Option<string>)
    | GetArtist(id: string)
    | GetArtistTopTracks(id: string, market: string)
    | GetArtistRelatedArtists(id: string)

  /** What `getArtistDetails` resolves to. */
  datatype ArtistDetails = ArtistDetails(artist: Artist, topTracks: seq<TopTrack>, relatedArtists: seq<Artist>)

  const SafetyMarginSeconds := 60
  const SearchLimit := 5
  const Market := "US"
  const ExpirySignal := "token expired"
  const SearchFailurePrefix := "Failed to search artists"
  const DetailsFailurePrefix := "Failed to fetch artist details"

  // ---------------------------------------------------------------------
  // Token lifecycle

  /** The client's token and the local time (ms) after which it is renewed. */
  datatype TokenState = TokenState(accessToken: Option<string>, expiresAt: int)

  /** The state of a newly constructed client. */
  const Initial := TokenState(None, 0)

  /** `Date.now() > this.tokenExpirationTime` */
  predicate NeedsRefresh(s: TokenState, now: int)
  {
    now > s.expiresAt
  }

  /** `refreshAccessToken()` as a state transition: a grant is requested only
      when the local expiry has passed; a successful grant installs its token
      and sets the expiry `expires_in - 60` seconds from now; a failed grant
      changes nothing and propagates. */
  function Refreshed(s: TokenState, now: int, grant: Result<Grant, Thrown>): (r: Result<TokenState, Thrown>)
    ensures !NeedsRefresh(s, now) ==> r == Success(s)
    ensures NeedsRefresh(s, now) && grant.Failure? ==> r == Failure(grant.error)
    ensures NeedsRefresh(s, now) && grant.Success? ==>
              && r.Success?
              && r.value.accessToken == Some(grant.value.accessToken)
              && r.value.expiresAt == now + (grant.value.expiresIn - SafetyMarginSeconds) * 1000
  {
    if !NeedsRefresh(s, now) then Success(s)
    else match grant
         case Failure(t) => Failure(t)
         case Success(g) => Success(TokenState(Some(g.accessToken), now + (g.expiresIn - SafetyMarginSeconds) * 1000))
  }

  /** The expiry starts at 0, so the first refresh at any positive clock
      reading asks for a grant. */
  lemma FirstRefreshGrants(now: int, grant: Result<Grant, Thrown>)
    requires now > 0
    ensures NeedsRefresh(Initial, now)
    ensures grant.Success? ==> Refreshed(Initial, now, grant).Success?
                               && Refreshed(Initial, now, grant).value.accessToken == Some(grant.value.accessToken)
  {
  }

  /** After a successful grant at `now`, a later refresh asks for another
      grant exactly when the clock has passed `now + (expires_in - 60) s`. */
  lemma GrantedTokenLifetime(s: TokenState, now: int, g: Grant, later: int)
    requires NeedsRefresh(s, now)
    ensures var r := Refreshed(s, now, Success(g));
            r.Success? && (NeedsRefresh(r.value, later) <==> later > now + (g.expiresIn - SafetyMarginSeconds) * 1000)
  {
  }

  /** Refreshing twice at the same instant performs at most one grant when the
      provider's lifetime covers the safety margin; with a shorter lifetime
      the new token is already considered expired. */
  lemma RefreshAtSameInstant(s: TokenState, now: int, g: Grant)
    requires NeedsRefresh(s, now)
    ensures var r := Refreshed(s, now, Success(g)).value;
            NeedsRefresh(r, now) <==> g.expiresIn < SafetyMarginSeconds
  {
    var r := Refreshed(s, now, Success(g)).value;
    if g.expiresIn < SafetyMarginSeconds {
      assert (g.expiresIn - SafetyMarginSeconds) * 1000 < 0;
    } else {
      assert (g.expiresIn - SafetyMarginSeconds) * 1000 >= 0;
    }
  }

  // ---------------------------------------------------------------------
  // Messages

  /** `sub` occurs in `s` starting at index `i`. */
  predicate OccursAt(s: string, sub: string, i: int)
  {
    0 <= i <= |s| - |sub| && s[i..i + |sub|] == sub
  }

  /** `s.includes(sub)` */
  predicate Contains(s: string, sub: string)
  {
    exists i :: 0 <= i <= |s| - |sub| && OccursAt(s, sub, i)
  }

  /** The retry condition: an `Error` whose message mentions an expired token. */
  predicate SignalsExpiredToken(t: Thrown)
  {
    t.Raised? && Contains(t.err.message, ExpirySignal)
  }

  lemma ContainsAfterPrefix(p: string, s: string, sub: string)
    requires Contains(s, sub)
    ensures Contains(p + s, sub)
  {
    var i :| 0 <= i <= |s| - |sub| && OccursAt(s, sub, i);
    assert (p + s)[|p| + i..|p| + i + |sub|] == s[i..i + |sub|];
    assert OccursAt(p + s, sub, |p| + i);
  }

  /** No occurrence of the expiry signal begins inside the search failure
      prefix "Failed to search artists: ": its only "t"s are followed by
      "o ", "i" and "s". */
  lemma NoSignalStartsInSearchPrefix(m: string, i: int)
    requires 0 <= i < |SearchFailurePrefix + ": "| && i + |ExpirySignal| <= |SearchFailurePrefix + ": " + m|
    ensures (SearchFailurePrefix + ": " + m)[i..i + |ExpirySignal|] != ExpirySignal
  {
    var p := SearchFailurePrefix + ": ";
    var w := (p + m)[i..i + |ExpirySignal|];
    assert p == "Failed to search artists: ";
    if i == 7 {
      assert w[2] == p[9] == ' ';
    } else if i == 19 || i == 22 {
      assert w[1] == p[i + 1] != 'o';
    } else {
      assert w[0] == p[i] != 't';
    }
  }

  /** The search wrapper's message mentions an expired token exactly when the
      original message does. */
  lemma SearchMessageKeepsSignal(m: string)
    ensures Contains(SearchFailurePrefix + ": " + m, ExpirySignal) <==> Contains(m, ExpirySignal)
  {
    var p := SearchFailurePrefix + ": ";
    var n := |ExpirySignal|;
    if Contains(m, ExpirySignal) {
      ContainsAfterPrefix(p, m, ExpirySignal);
    }
    forall i | 0 <= i <= |p + m| - n
      ensures OccursAt(p + m, ExpirySignal, i) ==> i >= |p| && OccursAt(m, ExpirySignal, i - |p|)
    {
      if i < |p| {
        NoSignalStartsInSearchPrefix(m, i);
      } else {
        assert m[i - |p|..i - |p| + n] == (p + m)[i..i + n];
      }
    }
    if Contains(p + m, ExpirySignal) {
      var i :| 0 <= i <= |p + m| - n && OccursAt(p + m, ExpirySignal, i);
      assert OccursAt(m, ExpirySignal, i - |p|);
    }
  }

  /** The message used when a non-Error value was thrown does not mention an
      expired token. */
  lemma NoSignalInBareSearchMessage()
    ensures !Contains(SearchFailurePrefix, ExpirySignal)
  {
    var n := |ExpirySignal|;
    forall i | 0 <= i <= |SearchFailurePrefix| - n
      ensures !OccursAt(SearchFailurePrefix, ExpirySignal, i)
    {
      assert (SearchFailurePrefix + ": " + "")[i..i + n] == SearchFailurePrefix[i..i + n];
      NoSignalStartsInSearchPrefix("", i);
    }
  }

  // ---------------------------------------------------------------------
  // Search

  /** The catch clause of the search operation: every failure becomes an
      ApiError with status 500. */
  function SearchFailure(t: Thrown): (e: AppError)
    ensures e.IsApiError() && !e.IsNotFoundError() && e.statusCode == Some(500)
    ensures t.Raised? ==> e.message == SearchFailurePrefix + ": " + t.err.message
    ensures t.NonError? ==> e.message == SearchFailurePrefix
  {
    match t
    case Raised(err) => ApiError(SearchFailurePrefix + ": " + err.message, 500)
    case NonError => ApiError(SearchFailurePrefix, 500)
  }

  /** One run of the search operation on the provider's `reply`: the
      `artists.items` of the body, or the wrapped failure. */
  function SearchAttempt(reply: Result<Option<seq<Artist>>, Thrown>): (r: Result<Option<seq<Artist>>, Thrown>)
    ensures reply.Success? ==> r == reply
    ensures reply.Failure? ==> r == Failure(Raised(SearchFailure(reply.error)))
  {
    match reply
    case Success(items) => Success(items)
    case Failure(t) => Failure(Raised(SearchFailure(t)))
  }

  /** A wrapped search failure is retried exactly when the provider's own
      error mentions an expired token; a thrown non-Error never is. */
  lemma SearchRetryCondition(reply: Result<Option<seq<Artist>>, Thrown>)
    requires reply.Failure?
    ensures SignalsExpiredToken(SearchAttempt(reply).error) <==> SignalsExpiredToken(reply.error)
  {
    match reply.error
    case Raised(err) => SearchMessageKeepsSignal(err.message);
    case NonError => NoSignalInBareSearchMessage();
  }

  /** How `searchArtist(query)` settles for a client in token state `s`.
      A successful first request is final and a failure without an
      expired-token message is not retried; a success is always one of the
      two replies' items; a failure is a 500 ApiError prefixed "Failed to
      search artists", or the grant's own error when the refresh before the
      retry fails. */
  function SearchOutcome(s: TokenState, first: Result<Option<seq<Artist>>, Thrown>,
                         second: Result<Option<seq<Artist>>, Thrown>,
                         now: int, grant: Result<Grant, Thrown>): (r: Result<Option<seq<Artist>>, Thrown>)
    ensures first.Success? ==> r == first
    ensures first.Failure? && !SignalsExpiredToken(first.error) ==> r == Failure(Raised(SearchFailure(first.error)))
    ensures r.Success? ==> r == first || r == second
    ensures r.Failure? ==>
              || (grant.Failure? && r.error == grant.error)
              || (r.error.Raised? && r.error.err.IsApiError() && r.error.err.statusCode == Some(500)
                  && |r.error.err.message| >= |SearchFailurePrefix|
                  && r.error.err.message[..|SearchFailurePrefix|] == SearchFailurePrefix)
  {
    if !(first.Failure? && SignalsExpiredToken(first.error)) then SearchAttempt(first)
    else match Refreshed(s, now, grant)
         case Failure(t) => Failure(t)
         case Success(_) => SearchAttempt(second)
  }

  /** The token state a search leaves behind: it changes only when the first
      request failed with an expired-token message and the refresh that
      followed succeeded. */
  function SearchState(s: TokenState, first: Result<Option<seq<Artist>>, Thrown>,
                       now: int, grant: Result<Grant, Thrown>): (r: TokenState)
    ensures r != s ==> first.Failure? && SignalsExpiredToken(first.error) && NeedsRefresh(s, now) && grant.Success?
    ensures r != s ==> r.accessToken == Some(grant.value.accessToken)
  {
    if !(first.Failure? && SignalsExpiredToken(first.error)) then s
    else match Refreshed(s, now, grant)
         case Failure(_) => s
         case Success(next) => next
  }

  /** The requests a search sends to the provider: the search under the
      current token; on an expired-token failure, a grant when one is due and,
      when the refresh succeeds, the same search under the token it left. */
  function SearchCalls(query: string, s: TokenState, first: Result<Option<seq<Artist>>, Thrown>,
                       now: int, grant: Result<Grant, Thrown>): (r: seq<ProviderCall>)
    ensures 1 <= |r| <= 3 && r[0] == SearchArtists(query, SearchLimit, s.accessToken)
    ensures |r| == 3 ==> grant.Success? && r[1] == CredentialsGrant && r[2] == SearchArtists(query, SearchLimit, Some(grant.value.accessToken))
    ensures |r| > 1 <==> first.Failure? && SignalsExpiredToken(first.error)
  {
    var asked := [SearchArtists(query, SearchLimit, s.accessToken)];
    if !(first.Failure? && SignalsExpiredToken(first.error)) then asked
    else
      var grants := if NeedsRefresh(s, now) then [CredentialsGrant] else [];
      match Refreshed(s, now, grant)
      case Failure(_) => asked + grants
      case Success(next) => asked + grants + [SearchArtists(query, SearchLimit, next.accessToken)]
  }

  // ---------------------------------------------------------------------
  // Artist details

  /** The catch clause of `getArtistDetails`: a NotFoundError is rethrown
      unchanged, every other failure becomes an ApiError with status 500. */
  function DetailsFailure(t: Thrown): (r: Thrown)
    ensures r.Raised? && r.err.IsApiError()
    ensures t.Raised? && t.err.IsNotFoundError() ==> r == t
    ensures !(t.Raised? && t.err.IsNotFoundError()) ==>
              && r.err.statusCode == Some(500) && !r.err.IsNotFoundError()
              && r.err.message == if t.Raised? then DetailsFailurePrefix + ": " + t.err.message else DetailsFailurePrefix
  {
    if t.Raised? && t.err.IsNotFoundError() then t
    else if t.Raised? then Raised(ApiError(DetailsFailurePrefix + ": " + t.err.message, 500))
    else Raised(ApiError(DetailsFailurePrefix, 500))
  }

  /** The message of the NotFoundError for a missing artist body. */
  function MissingArtistMessage(artistId: string): string
  {
    "Artist with ID " + artistId + " not found"
  }

  /** The three lookups `getArtistDetails` awaits together, once the token is
      fresh: the first failure in array order wins; an empty artist body is
      a NotFoundError; both go through the catch clause. */
  function DetailsOf(artistId: string,
                     artistReply: Result<Option<Artist>, Thrown>,
                     tracksReply: Result<seq<TopTrack>, Thrown>,
                     relatedReply: Result<seq<Artist>, Thrown>): (r: Result<ArtistDetails, Thrown>)
    ensures r.Success? <==> artistReply.Success? && artistReply.value.Some?
                            && tracksReply.Success? && relatedReply.Success?
    ensures r.Success? ==> r.value == ArtistDetails(artistReply.value.value, tracksReply.value, relatedReply.value)
    ensures r.Failure? ==> r.error.Raised? && r.error.err.IsApiError()
    ensures artistReply.Failure? ==> r == Failure(DetailsFailure(artistReply.error))
    ensures artistReply.Success? && tracksReply.Failure? ==> r == Failure(DetailsFailure(tracksReply.error))
    ensures artistReply.Success? && tracksReply.Success? && relatedReply.Failure? ==>
              r == Failure(DetailsFailure(relatedReply.error))
    ensures artistReply.Success? && artistReply.value.None? && tracksReply.Success? && relatedReply.Success? ==>
              r == Failure(Raised(NotFoundError(Some(MissingArtistMessage(artistId)))))
  {
    if artistReply.Failure? then Failure(DetailsFailure(artistReply.error))
    else if tracksReply.Failure? then Failure(DetailsFailure(tracksReply.error))
    else if relatedReply.Failure? then Failure(DetailsFailure(relatedReply.error))
    else if artistReply.value.None? then
      Failure(DetailsFailure(Raised(NotFoundError(Some(MissingArtistMessage(artistId))))))
    else Success(ArtistDetails(artistReply.value.value, tracksReply.value, relatedReply.value))
  }

  // ---------------------------------------------------------------------
  // The client

  class SpotifyService {
    /** The access token installed on the provider client. */
    var accessToken: Option<string>
    /** `tokenExpirationTime` (ms). */
    var tokenExpirationTime: int
    /** Every request sent to the provider, in order. */
    var calls: seq<ProviderCall>

    function State(): TokenState
      reads this
    {
      TokenState(accessToken, tokenExpirationTime)
    }

    constructor ()
      ensures State() == Initial && calls == []
    {
      accessToken := None;
      tokenExpirationTime := 0;
      calls := [];
    }

    /** `refreshAccessToken()` at clock reading `now`; `grant` is how the
        credentials grant would settle if requested. */
    method RefreshAccessToken(now: int, grant: Result<Grant, Thrown>) returns (r: Outcome<Thrown>)
      modifies this
      ensures var next := Refreshed(old(State()), now, grant);
              && (next.Success? ==> r.Pass? && State() == next.value)
              && (next.Failure? ==> r == Fail(next.error) && State() == old(State()))
      ensures calls == old(calls) + if NeedsRefresh(old(State()), now) then [CredentialsGrant] else []
    {
      r := Pass;
      if now > tokenExpirationTime {
        calls := calls + [CredentialsGrant];
        match grant
        case Failure(t) =>
          r := Fail(t);
        case Success(g) =>
          accessToken := Some(g.accessToken);
          tokenExpirationTime := now + (g.expiresIn - SafetyMarginSeconds) * 1000;
      }
    }

    /** `retryWithNewToken(operation)`: `attempt(k)` is how the k-th run of
        the operation settles. A second run happens only after a first run
        that failed with an expired-token message and a refresh that
        succeeded; its outcome is final. `runs` counts the runs made. */
    method RetryWithNewToken<T>(attempt: nat -> Result<T, Thrown>, now: int, grant: Result<Grant, Thrown>)
      returns (r: Result<T, Thrown>, runs: nat)
      modifies this
      ensures var first := attempt(0);
              var retry := first.Failure? && SignalsExpiredToken(first.error);
              var next := Refreshed(old(State()), now, grant);
              && (!retry ==> runs == 1 && r == first && State() == old(State()) && calls == old(calls))
              && (retry ==> calls == old(calls) + if NeedsRefresh(old(State()), now) then [CredentialsGrant] else [])
              && (retry && next.Failure? ==> runs == 1 && r == Failure(next.error) && State() == old(State()))
              && (retry && next.Success? ==> runs == 2 && r == attempt(1) && State() == next.value)
    {
      r := attempt(0);
      runs := 1;
      if r.Failure? && SignalsExpiredToken(r.error) {
        var refreshed := RefreshAccessToken(now, grant);
        if refreshed.Fail? {
          r := Failure(refreshed.error);
        } else {
          r := attempt(1);
          runs := 2;
        }
      }
    }

    /** `searchArtist(query)`: no refresh before the first request; `first`
        and `second` are the provider's answers to the first request and to
        the retried one. */
    method SearchArtist(query: string, first: Result<Option<seq<Artist>>, Thrown>,
                        second: Result<Option<seq<Artist>>, Thrown>,
                        now: int, grant: Result<Grant, Thrown>)
      returns (r: Result<Option<seq<Artist>>, Thrown>)
      modifies this
      ensures r == SearchOutcome(old(State()), first, second, now, grant)
      ensures var a := SearchAttempt(first);
              var asked := [SearchArtists(query, SearchLimit, old(accessToken))];
              var next := Refreshed(old(State()), now, grant);
              var grants := if NeedsRefresh(old(State()), now) then [CredentialsGrant] else [];
              if !(first.Failure? && SignalsExpiredToken(first.error)) then
                r == a && State() == old(State()) && calls == old(calls) + asked
              else if next.Failure? then
                r == Failure(next.error) && State() == old(State()) && calls == old(calls) + asked + grants
              else
                && r == SearchAttempt(second) && State() == next.value
                && calls == old(calls) + asked + grants + [SearchArtists(query, SearchLimit, next.value.accessToken)]
      ensures State() == SearchState(old(State()), first, now, grant)
      ensures calls == old(calls) + SearchCalls(query, old(State()), first, now, grant)
    {
      calls := calls + [SearchArtists(query, SearchLimit, accessToken)];
      if first.Failure? {
        SearchRetryCondition(first);
      }
      var runs;
      r, runs := RetryWithNewToken((k: nat) => SearchAttempt(if k == 0 then first else second), now, grant);
      if runs == 2 {
        calls := calls + [SearchArtists(query, SearchLimit, accessToken)];
      }
    }

    /** `getArtistDetails(artistId)`: refresh first, then the three lookups. */
    method GetArtistDetails(artistId: string, now: int, grant: Result<Grant, Thrown>,
                            artistReply: Result<Option<Artist>, Thrown>,
                            tracksReply: Result<seq<TopTrack>, Thrown>,
                            relatedReply: Result<seq<Artist>, Thrown>)
      returns (r: Result<ArtistDetails, Thrown>)
      modifies this
      ensures var next := Refreshed(old(State()), now, grant);
              var grants := if NeedsRefresh(old(State()), now) then [CredentialsGrant] else [];
              if next.Failure? then
                r == Failure(DetailsFailure(next.error)) && State() == old(State()) && calls == old(calls) + grants
              else
                && r == DetailsOf(artistId, artistReply, tracksReply, relatedReply)
                && State() == next.value
                && calls == old(calls) + grants
                           + [GetArtist(artistId), GetArtistTopTracks(artistId, Market), GetArtistRelatedArtists(artistId)]
      ensures r.Failure? ==> r.error.Raised? && r.error.err.IsApiError()
    {
      var refreshed := RefreshAccessToken(now, grant);
      if refreshed.Fail? {
        r := Failure(DetailsFailure(refreshed.error));
        return;
      }
      calls := calls + [GetArtist(artistId), GetArtistTopTracks(artistId, Market), GetArtistRelatedArtists(artistId)];
      r := DetailsOf(artistId, artistReply, tracksReply, relatedReply);
    }
  }
}
