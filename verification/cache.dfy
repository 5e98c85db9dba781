/** The read-through / write-through response cache placed in front of a
    route: `cache(ttl)`. */
module CacheMiddleware {
  import opened Wrappers
  import opened Errors
  import opened KeyValueStore
  import opened Http

  const KeyPrefix := "cache:"

  /** The store key of a request: the prefix followed by the original URL
      verbatim (path and query string, no reordering of parameters). */
  function CacheKey(originalUrl: string): (k: string)
    ensures |k| == |KeyPrefix| + |originalUrl|
    ensures k[..|KeyPrefix|] == KeyPrefix && k[|KeyPrefix|..] == originalUrl
  {
    KeyPrefix + originalUrl
  }

  /** Distinct URLs get distinct keys, so two URLs that differ only in the
      order of their query parameters are cached separately. */
  lemma CacheKeyInjective(a: string, b: string)
    ensures CacheKey(a) == CacheKey(b) <==> a == b
  {
    if CacheKey(a) == CacheKey(b) {
      assert a == CacheKey(a)[|KeyPrefix|..];
    }
  }

  /** What the middleware does once the lookup has settled. */
  datatype Step =
    | Serve(body: Body)       // hit: send the parsed value, skip the handler
    | Forward(error: Thrown)  // lookup or parse failed: `next(error)`
    | Miss                    // wrap `res.json`, then `next()`

  /** The decision taken on the settled lookup: a stored value counts as a hit
      only when it is truthy, i.e. present and non-empty. */
  function Decide(lookup: Result<Option<string>, Thrown>, codec: Codec): (s: Step)
    ensures s.Miss? <==> lookup.Success? && (lookup.value.None? || lookup.value.value == "")
    ensures lookup.Failure? ==> s == Forward(lookup.error)
    ensures s.Serve? ==> lookup.Success? && lookup.value.Some?
                         && codec.parse(lookup.value.value) == Success(s.body)
    ensures lookup.Success? && lookup.value.Some? && lookup.value.value != "" ==>
              (codec.parse(lookup.value.value).Success? <==> s.Serve?)
    ensures (lookup.Success? && lookup.value.Some? && lookup.value.value != ""
             && codec.parse(lookup.value.value).Failure?) ==> s == Forward(codec.parse(lookup.value.value).error)
  {
    match lookup
    case Failure(e) => Forward(e)
    case Success(None) => Miss
    case Success(Some(v)) =>
      if v == "" then Miss
      else match codec.parse(v)
           case Success(b) => Serve(b)
           case Failure(e) => Forward(e)
  }

  /** `cache(ttl)(req, res, next)`. `getFault` decides whether the lookup
      reaches the store, `writeFault` whether a write made on a hit by an
      earlier wrapper does. */
  method Cache(ttl: string, ex: Exchange, store: Store, codec: Codec,
               getFault: Option<AppError>, writeFault: Option<AppError>)
    modifies ex, store
    ensures var key := CacheKey(ex.originalUrl);
            match Decide(old(store.Reply(key, getFault)), codec)
            case Serve(b) =>
              && ex.sent == old(ex.sent) + [Emission(old(ex.statusCode), b)]
              && ex.nextCalls == old(ex.nextCalls) && ex.hooks == old(ex.hooks)
              && store.entries == (if writeFault.None? then WriteAll(old(store.entries), ex.hooks, b)
                                   else old(store.entries))
            case Forward(e) =>
              && ex.nextCalls == old(ex.nextCalls) + [Some(e)]
              && ex.sent == old(ex.sent) && ex.hooks == old(ex.hooks)
              && store.entries == old(store.entries)
            case Miss =>
              && ex.hooks == old(ex.hooks) + [WriteThrough(key, ttl, codec.serialise)]
              && ex.nextCalls == old(ex.nextCalls) + [None]
              && ex.sent == old(ex.sent)
              && store.entries == old(store.entries)
    ensures ex.statusCode == old(ex.statusCode)
  {
    var key := CacheKey(ex.originalUrl);
    var cached := store.Get(key, getFault);
    match Decide(cached, codec)
    case Serve(b) =>
      ex.Json(b, store, writeFault);
    case Forward(e) =>
      ex.Next(Some(e));
    case Miss =>
      ex.hooks := ex.hooks + [WriteThrough(key, ttl, codec.serialise)];
      ex.Next(None);
  }

  /** An empty stored string is falsy: it is treated as a miss. */
  lemma EmptyValueIsMiss(codec: Codec)
    ensures Decide(Success(Some("")), codec) == Miss
  {
  }

  /** With a faithful codec, a body written through by the wrapper a miss
      installed is, on the next lookup of the same URL, served back unchanged
      without reaching the handler. */
  lemma WriteThroughThenHit(codec: Codec, entries: map<string, Entry>, url: string, ttl: string, b: Body)
    requires Faithful(codec)
    ensures var key := CacheKey(url);
            var after := WriteAll(entries, [WriteThrough(key, ttl, codec.serialise)], b);
            && key in after
            && after[key] == Entry(codec.serialise(b), TtlOf(ttl))
            && Decide(Success(Some(after[key].value)), codec) == Serve(b)
  {
    var s := codec.serialise(b);
    assert s != "" && codec.parse(s) == Success(b);
  }
}
