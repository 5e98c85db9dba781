/** One request/response exchange as the middleware sees it: the request
    fields that are read, the response status, the JSON bodies that reached
    the client, the wrappers installed around `res.json`, and the calls made
    to `next`. */
module Http {
  import opened Wrappers
  import opened Errors
  import opened Schemas
  import opened ErrorHandler
  import opened ResponseNormalizer
  import opened KeyValueStore

  /** The JSON documents this service emits. */
  datatype Body =
    | ArtistList(stats: seq<ArtistStats>)
    | ErrorJson(error: ErrorBody)
    | LimitExceeded(message: string)

  /** `JSON.stringify` / `JSON.parse`, kept abstract; `parse` fails with a
      SyntaxError on text that is not a document. */
  datatype Codec = Codec(serialise: Body -> string, parse: string -> Result<Body, Thrown>)

  /** What the round trip through the store needs of the codec: serialised
      text is never empty and parses back to the same document. */
  ghost predicate Faithful(codec: Codec)
  {
    forall b :: codec.serialise(b) != "" && codec.parse(codec.serialise(b)) == Success(b)
  }

  /** A wrapper the cache installed around `res.json`: on every call it writes
      the serialised body under `key` with `ttl`, then calls the emitter it
      replaced. */
  datatype WriteThrough = WriteThrough(key: string, ttl: string, serialise: Body -> string)

  /** A body reaching the client, with the status it was sent with. */
  datatype Emission = Emission(status: int, body: Body)

  /** The store after emitting `b` through the wrappers `hooks` when every
      write succeeds. The wrappers are installed in this order, so the most
      recent one runs first and issues its write first; the oldest one,
      `hooks[0]`, writes last and its value is the one that stays. Keys no
      wrapper writes keep their values. */
  function WriteAll(entries: map<string, Entry>, hooks: seq<WriteThrough>, b: Body): (r: map<string, Entry>)
    ensures r.Keys == entries.Keys + set h | h in hooks :: h.key
    ensures hooks != [] ==> r[hooks[0].key] == Entry(hooks[0].serialise(b), TtlOf(hooks[0].ttl))
    ensures forall k :: k in entries && (forall i :: 0 <= i < |hooks| ==> hooks[i].key != k) ==> r[k] == entries[k]
    decreases |hooks|
  {
    if hooks == [] then entries
    else
      var h := hooks[|hooks| - 1];
      WriteAll(entries[h.key := Entry(h.serialise(b), TtlOf(h.ttl))], hooks[..|hooks| - 1], b)
  }

  class Exchange {
    /** `req.originalUrl`: path and query string, verbatim. */
    const originalUrl: string
    /** `req.ip`, which Express may leave undefined. */
    const ip: Option<string>
    /** `req.query.q` */
    const q: Param

    /** `res.statusCode` */
    var statusCode: int
    /** Every body the underlying emitter sent, in order. */
    var sent: seq<Emission>
    /** The wrappers around `res.json`, oldest first. */
    var hooks: seq<WriteThrough>
    /** The arguments of the calls to `next`, in order; None is `next()`. */
    var nextCalls: seq<Option<Thrown>>

    constructor (originalUrl: string, ip: Option<string>, q: Param)
      ensures this.originalUrl == originalUrl && this.ip == ip && this.q == q
      ensures statusCode == 200 && sent == [] && hooks == [] && nextCalls == []
    {
      this.originalUrl := originalUrl;
      this.ip := ip;
      this.q := q;
      statusCode := 200;
      sent := [];
      hooks := [];
      nextCalls := [];
    }

    /** `res.status(code)` */
    method Status(code: int)
      modifies this
      ensures statusCode == code
      ensures sent == old(sent) && hooks == old(hooks) && nextCalls == old(nextCalls)
    {
      statusCode := code;
    }

    /** `next()` or `next(err)` */
    method Next(err: Option<Thrown>)
      modifies this
      ensures nextCalls == old(nextCalls) + [err]
      ensures statusCode == old(statusCode) && sent == old(sent) && hooks == old(hooks)
    {
      nextCalls := nextCalls + [err];
    }

    /** `res.json(b)`: the body goes through every installed wrapper, each of
        which starts a store write, and is then sent once. The writes are
        never awaited, so one that fails (`writeFault`) leaves the store as
        it was and does not stop the response. */
    method Json(b: Body, store: Store, writeFault: Option<AppError>)
      modifies this, store
      ensures sent == old(sent) + [Emission(old(statusCode), b)]
      ensures statusCode == old(statusCode) && hooks == old(hooks) && nextCalls == old(nextCalls)
      ensures store.entries == if writeFault.None? then WriteAll(old(store.entries), hooks, b)
                               else old(store.entries)
    {
      assert hooks[..|hooks|] == hooks;
      CallWrapper(|hooks|, b, store, writeFault);
    }

    /** The emitter that the `depth`-th wrapper (counting from the original
        emitter, depth 0) presents as `res.json`. */
    method CallWrapper(depth: nat, b: Body, store: Store, writeFault: Option<AppError>)
      requires depth <= |hooks|
      modifies this, store
      ensures sent == old(sent) + [Emission(old(statusCode), b)]
      ensures statusCode == old(statusCode) && hooks == old(hooks) && nextCalls == old(nextCalls)
      ensures store.entries == if writeFault.None? then WriteAll(old(store.entries), hooks[..depth], b)
                               else old(store.entries)
      decreases depth
    {
      if depth == 0 {
        sent := sent + [Emission(statusCode, b)];
      } else {
        var h := hooks[depth - 1];
        var _ := store.Set(h.key, h.serialise(b), h.ttl, writeFault);
        CallWrapper(depth - 1, b, store, writeFault);
        assert hooks[..depth][..depth - 1] == hooks[..depth - 1];
      }
    }
  }
}
