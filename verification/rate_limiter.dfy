/** The fixed-limit request counter per client address: `rateLimiter(requests,
    window)`. */
module RateLimiter {
  import opened Wrappers
  import opened Errors
  import opened JsNumbers
  import opened KeyValueStore
  import opened Http

  const KeyPrefix := "ratelimit:"
  const TooManyMessage := "Too many requests, please try again later"

  /** The counter key: the prefix followed by `req.ip` as a template literal
      renders it, so every request without an address shares one counter. */
  function RateKey(ip: Option<string>): (k: string)
    ensures |k| >= |KeyPrefix| && k[..|KeyPrefix|] == KeyPrefix
    ensures ip.Some? ==> k[|KeyPrefix|..] == ip.value
    ensures ip.None? ==> k[|KeyPrefix|..] == "undefined"
  {
    KeyPrefix + if ip.Some? then ip.value else "undefined"
  }

  /** `current ? parseInt(current) : 0`: an absent or empty counter reads as 0. */
  function CountOf(current: Option<string>): (c: JsNumber)
    ensures current.None? || current.value == "" ==> c == Finite(0)
    ensures current.Some? && current.value != "" ==> c == ParseInt(current.value)
  {
    if current.Some? && current.value != "" then ParseInt(current.value) else Finite(0)
  }

  /** `count >= requests`; a NaN count compares false and is never limited. */
  predicate Limited(count: JsNumber, requests: int)
  {
    count.Finite? && count.n >= requests
  }

  /** The decision on a settled counter read: reject, or let the request
      through and store the given new counter text. */
  datatype Verdict = Reject | Allow(counter: string)

  function Decide(current: Option<string>, requests: int): (v: Verdict)
    ensures v.Reject? <==> Limited(CountOf(current), requests)
    ensures v.Allow? ==> CountOf(Some(v.counter)) == Increment(CountOf(current))
  {
    if Limited(CountOf(current), requests) then Reject
    else
      var next := Increment(CountOf(current));
      ParseIntOfToDecimal(next);
      assert ToDecimal(next) != "" by {
        if next.Finite? && next.n >= 0 { assert |Digits(next.n)| > 0; }
      }
      Allow(ToDecimal(next))
  }

  /** `rateLimiter(requests, window)(req, res, next)`. `getFault` decides
      whether the counter read reaches the store. `setFault` decides whether
      the writes after it do: the counter write on an admitted request, and
      on a rejected one the writes of any cache wrappers installed before
      this middleware when the 429 body is sent. */
  method RateLimit(requests: int, window: string, ex: Exchange, store: Store,
                   getFault: Option<AppError>, setFault: Option<AppError>)
    modifies ex, store
    ensures var key := RateKey(ex.ip);
            match old(store.Reply(key, getFault))
            case Failure(e) =>
              && ex.nextCalls == old(ex.nextCalls) + [Some(e)]
              && ex.sent == old(ex.sent) && ex.statusCode == old(ex.statusCode)
              && store.entries == old(store.entries)
            case Success(current) =>
              match Decide(current, requests)
              case Reject =>
                && ex.statusCode == 429
                && ex.sent == old(ex.sent) + [Emission(429, LimitExceeded(TooManyMessage))]
                && ex.nextCalls == old(ex.nextCalls)
                && store.entries == (if setFault.None? then WriteAll(old(store.entries), ex.hooks, LimitExceeded(TooManyMessage))
                                     else old(store.entries))
              case Allow(counter) =>
                && ex.sent == old(ex.sent) && ex.statusCode == old(ex.statusCode)
                && (setFault.None? ==>
                      && store.entries == old(store.entries)[key := Entry(counter, TtlOf(window))]
                      && ex.nextCalls == old(ex.nextCalls) + [None])
                && (setFault.Some? ==>
                      && store.entries == old(store.entries)
                      && ex.nextCalls == old(ex.nextCalls) + [Some(Raised(setFault.value))])
    ensures ex.hooks == old(ex.hooks)
  {
    var key := RateKey(ex.ip);
    var current := store.Get(key, getFault);
    match current
    case Failure(e) =>
      ex.Next(Some(e));
    case Success(cur) =>
      match Decide(cur, requests)
      case Reject =>
        ex.Status(429);
        ex.Json(LimitExceeded(TooManyMessage), store, setFault);
      case Allow(counter) =>
        var written := store.Set(key, counter, window, setFault);
        if written.Fail? {
          ex.Next(Some(written.error));
        } else {
          ex.Next(None);
        }
  }

  /** The counter never climbs past the limit: if it starts at or below
      `requests` (or is NaN), it is still so after any request. */
  lemma CounterStaysBounded(current: Option<string>, requests: int)
    requires CountOf(current).NaN? || CountOf(current).n <= requests
    ensures match Decide(current, requests)
            case Reject => true
            case Allow(counter) => CountOf(Some(counter)).NaN? || CountOf(Some(counter)).n <= requests
  {
  }

  /** The counter text after one request, when the counter read succeeds. */
  function After(current: Option<string>, requests: int): Option<string>
  {
    match Decide(current, requests)
    case Reject => current
    case Allow(counter) => Some(counter)
  }

  /** How many of `n` consecutive requests from one address, all within one
      window and with a reachable store, are let through. */
  function AllowedOf(current: Option<string>, requests: int, n: nat): nat
    decreases n
  {
    if n == 0 then 0
    else (if Decide(current, requests).Allow? then 1 else 0) + AllowedOf(After(current, requests), requests, n - 1)
  }

  /** Below the limit a request passes and the counter then reads `c + 1`. */
  lemma AllowStep(current: Option<string>, c: nat, requests: int)
    requires CountOf(current) == Finite(c) && c < requests
    ensures Decide(current, requests).Allow?
    ensures CountOf(After(current, requests)) == Finite(c + 1)
  {
    var d := Decide(current, requests);
    assert d.Allow?;
    assert After(current, requests) == Some(d.counter);
  }

  /** At the limit a request is rejected and the counter is left as it is. */
  lemma RejectStep(current: Option<string>, c: nat, requests: int)
    requires CountOf(current) == Finite(c) && c >= requests
    ensures Decide(current, requests).Reject?
    ensures After(current, requests) == current
  {
  }

  /** From a counter that reads as `c` (at most the limit), exactly
      `min(n, requests - c)` of the next `n` requests pass. */
  lemma {:induction false} AllowedFrom(current: Option<string>, c: nat, requests: int, n: nat)
    requires CountOf(current) == Finite(c) && c <= requests
    ensures AllowedOf(current, requests, n) == if n <= requests - c then n else requests - c
    decreases n
  {
    if n > 0 {
      var next := After(current, requests);
      if c < requests {
        AllowStep(current, c, requests);
        AllowedFrom(next, c + 1, requests, n - 1);
        assert AllowedOf(current, requests, n) == 1 + AllowedOf(next, requests, n - 1);
      } else {
        RejectStep(current, c, requests);
        AllowedFrom(next, c, requests, n - 1);
        assert AllowedOf(current, requests, n) == AllowedOf(next, requests, n - 1);
      }
    }
  }

  /** A fresh address (no counter yet) gets exactly `min(n, requests)` of `n`
      requests through in one window. */
  lemma FreshAddress(requests: nat, n: nat)
    ensures AllowedOf(None, requests, n) == if n <= requests then n else requests
  {
    AllowedFrom(None, 0, requests, n);
  }

  /** A counter that no longer parses as a number (NaN) disables the limit for
      that address: every request passes and the counter written back is
      "NaN", which again reads as NaN. */
  lemma NaNCounterNeverLimits(current: Option<string>, requests: int)
    requires CountOf(current).NaN?
    ensures Decide(current, requests) == Allow("NaN")
    ensures CountOf(Some("NaN")).NaN?
  {
    ParseIntOfToDecimal(NaN);
  }
}
