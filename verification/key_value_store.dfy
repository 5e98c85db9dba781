/** The key-value store behind the cache and the rate limiter, reduced to a
    map from keys to values with the TTL each write carried. Whether a
    command reaches the store is decided by the environment and passed to
    each command as `fault`. Expiry itself, reconnection and the connection
    events are not modelled. */
module KeyValueStore {
  import opened Wrappers
  import opened Errors

  /** A stored value and the TTL it was written with (None: no expiry). */
  datatype Entry = Entry(value: string, ttl: Option<string>)

  /** The TTL a write records: an empty TTL means "no expiry". */
  function TtlOf(ttl: string): (r: Option<string>)
    ensures r.None? <==> ttl == ""
    ensures r.Some? ==> r.value == ttl
  {
    if ttl == "" then None else Some(ttl)
  }

  class Store {
    /** The stored entries. */
    var entries: map<string, Entry>

    constructor ()
      ensures entries == map[]
    {
      entries := map[];
    }

    /** The value stored under `key`, if any. */
    function Lookup(key: string): (r: Option<string>)
      reads this
      ensures r.Some? <==> key in entries
      ensures r.Some? ==> r.value == entries[key].value
    {
      if key in entries then Some(entries[key].value) else None
    }

    /** How `get(key)` settles: it rejects with the connection error `fault`
        when there is one, and resolves to the stored value otherwise. */
    function Reply(key: string, fault: Option<AppError>): (r: Result<Option<string>, Thrown>)
      reads this
      ensures r.Failure? <==> fault.Some?
      ensures r.Failure? ==> r.error == Raised(fault.value)
      ensures r.Success? ==> r.value == Lookup(key)
    {
      if fault.Some? then Failure(Raised(fault.value)) else Success(Lookup(key))
    }

    /** `get(key)` */
    method Get(key: string, fault: Option<AppError>) returns (r: Result<Option<string>, Thrown>)
      ensures r == Reply(key, fault)
    {
      if fault.Some? {
        r := Failure(Raised(fault.value));
      } else {
        r := Success(Lookup(key));
      }
    }

    /** `set(key, value, ttl)` */
    method Set(key: string, value: string, ttl: string, fault: Option<AppError>) returns (r: Outcome<Thrown>)
      modifies this
      ensures r.Fail? <==> fault.Some?
      ensures r.Fail? ==> r.error == Raised(fault.value) && entries == old(entries)
      ensures r.Pass? ==> entries == old(entries)[key := Entry(value, TtlOf(ttl))]
    {
      if fault.Some? {
        r := Fail(Raised(fault.value));
      } else {
        entries := entries[key := Entry(value, TtlOf(ttl))];
        r := Pass;
      }
    }

    /** `del(key)` */
    method Del(key: string, fault: Option<AppError>) returns (r: Outcome<Thrown>)
      modifies this
      ensures r.Fail? <==> fault.Some?
      ensures r.Fail? ==> entries == old(entries)
      ensures r.Pass? ==> entries == old(entries) - {key}
    {
      if fault.Some? {
        r := Fail(Raised(fault.value));
      } else {
        entries := entries - {key};
        r := Pass;
      }
    }
  }
}
