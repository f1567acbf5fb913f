/**
 * The certificate API client: a module-level response cache with a five-minute time to live,
 * three cached reads and three writes that invalidate every cached read.
 *
 * The clock is a parameter (`now` when the cache is consulted, `storedAt` when a fetched
 * body is stored, after the request has completed), and every network request is an input
 * `Fetch` outcome that is consulted only when the call actually fetches.
 */
module ApiServices {
  import opened Wrappers
  import opened JsText
  import opened Records

  /** Five minutes, in milliseconds. */
  const CACHE_TTL: int := 5 * 60 * 1000

  const ALL_SERVICES_KEY: string := "getAllServices"

  /** The cache key of `searchServiceByName(search)`. */
  function NameKey(search: string): string {
    "searchByName:" + search
  }

  /** The cache key of `searchServiceBySerialNumber(search)`. */
  function SerialKey(search: string): string {
    "searchBySerial:" + search
  }

  /** The keys `/^(getAllServices|searchByName|searchBySerial)/` matches. */
  predicate IsReadKey(key: string) {
    || StartsWith(key, "getAllServices")
    || StartsWith(key, "searchByName")
    || StartsWith(key, "searchBySerial")
  }

  /** The argument of `cache.invalidate`: a RegExp (given by its `test`), a string key, or anything else. */
  datatype KeyPattern = Pattern(test: string -> bool) | Key(key: string) | Other

  /** The pattern every successful write invalidates with. */
  const ReadKeys: KeyPattern := Pattern(IsReadKey)

  /** The values of the `data` and `timestamps` maps. */
  datatype CacheState = CacheState(data: map<string, Body>, timestamps: map<string, int>) {
    /** Both maps hold the same keys. */
    predicate Valid() {
      data.Keys == timestamps.Keys
    }
  }

  const Empty: CacheState := CacheState(map[], map[])

  /** `cache.set(key, value)` at time `now`: `value` is stored under `key`, stamped with `now`. */
  function AfterSet(s: CacheState, key: string, value: Body, now: int): (t: CacheState)
    ensures s.Valid() ==> t.Valid()
  {
    CacheState(s.data[key := value], s.timestamps[key := now])
  }

  /** An entry stamped `storedAt` has expired at `now` once more than the time to live has passed. */
  predicate IsExpired(storedAt: int, now: int) {
    now - storedAt > CACHE_TTL
  }

  datatype LookupResult = LookupResult(state: CacheState, value: Option<Body>)

  /**
   * `cache.get(key)` at time `now`. A missing or zero (falsy) timestamp reads as absent; an
   * expired entry is deleted from both maps and reads as absent; otherwise the stored value
   * is returned and nothing changes.
   */
  function Lookup(s: CacheState, key: string, now: int): (l: LookupResult)
    ensures s.Valid() ==> l.state.Valid()
    ensures l.value.Some? ==> key in s.data && l.value.value == s.data[key] && l.state == s
    ensures l.state == s || l.state == CacheState(s.data - {key}, s.timestamps - {key})
  {
    if key !in s.timestamps || s.timestamps[key] == 0 then
      LookupResult(s, None)
    else if IsExpired(s.timestamps[key], now) then
      LookupResult(CacheState(s.data - {key}, s.timestamps - {key}), None)
    else if key in s.data then
      LookupResult(s, Some(s.data[key]))
    else
      LookupResult(s, None)
  }

  function Matching(keys: set<string>, test: string -> bool): set<string> {
    set k | k in keys && test(k)
  }

  /** `cache.invalidate(pattern)` */
  function Invalidated(s: CacheState, pattern: KeyPattern): (t: CacheState)
    ensures s.Valid() ==> t.Valid()
    ensures pattern.Pattern? ==> forall k :: k in t.data <==> k in s.data && !pattern.test(k)
    ensures pattern.Key? ==> t.data.Keys == s.data.Keys - {pattern.key}
    ensures pattern.Other? ==> t == Empty
    ensures forall k | k in t.data :: k in s.data && t.data[k] == s.data[k]
    ensures forall k | k in t.timestamps :: k in s.timestamps && t.timestamps[k] == s.timestamps[k]
  {
    match pattern
    case Pattern(test) =>
      var gone := Matching(s.data.Keys, test);
      CacheState(s.data - gone, s.timestamps - gone)
    case Key(key) =>
      CacheState(s.data - {key}, s.timestamps - {key})
    case Other =>
      Empty
  }

  /**
   * The body normalisation of both searches: the array of a `$values` envelope, `[obj]` for
   * any other object, an array as it is, `[]` for null and the other falsy bodies; a truthy
   * scalar falls through `data || []` unchanged.
   */
  function Normalize(b: Body): (r: Body)
    ensures Truthy(r)
    ensures b.Scalar? ==> r == b
    ensures !b.Scalar? ==> r.Array?
    ensures b.Array? ==> r == b
    ensures b.Object? ==> r == Array(if b.values.Items? then b.values.items else [b.record])
    ensures !Truthy(b) ==> r == Array([])
  {
    match b
    case Object(record, values) =>
      if values.Items? then Array(values.items) else Array([record])
    case Array(_) => b
    case Scalar => b
    case _ => Array([])
  }

  /** Normalising is idempotent: a cached search result normalises to itself. */
  lemma NormalizeIdempotent(b: Body)
    ensures Normalize(Normalize(b)) == Normalize(b)
  {
  }

  /** `getAllServices` stores the raw body; the two searches normalise it and answer a timeout with `[]`. */
  datatype ReadKind = Raw | Search

  datatype ReadOutcome = ReadOutcome(state: CacheState, result: Result<Body, ApiError>, fetched: bool)

  /**
   * One cached read. A truthy cached value is returned without fetching. Otherwise the
   * response decides: an ok body is stored (normalised for a search) at `storedAt` and
   * returned; every failure rejects without storing, except that a search answers a timeout
   * with `[]`.
   */
  function Read(s: CacheState, key: string, kind: ReadKind, now: int, response: Fetch, storedAt: int): (o: ReadOutcome)
    ensures s.Valid() ==> o.state.Valid()
    ensures !o.fetched ==> o.state == s && key in s.data && o.result == Success(s.data[key]) && Truthy(s.data[key])
    ensures o.fetched <==> !(Lookup(s, key, now).value.Some? && Truthy(Lookup(s, key, now).value.value))
    ensures o.fetched && o.result.Success? && response.Ok? ==>
              key in o.state.data && o.state.data[key] == o.result.value
              && key in o.state.timestamps && o.state.timestamps[key] == storedAt
    ensures o.fetched && response.Ok? ==> o.result == Success(if kind == Search then Normalize(response.body) else response.body)
    ensures o.fetched && response.Ok? ==>
              o.result.Success? && o.state == AfterSet(Lookup(s, key, now).state, key, o.result.value, storedAt)
    ensures o.fetched && !response.Ok? ==> o.state == Lookup(s, key, now).state
    ensures o.fetched && response.NotOk? ==> o.result == Failure(HttpStatus(response.status))
    ensures o.fetched && (response.OkMalformed? || response.NetworkDown? || (response.TimedOut? && kind == Raw)) ==>
              o.result.Failure?
    ensures o.fetched && response.TimedOut? && kind == Search ==> o.result == Success(Array([]))
  {
    var l := Lookup(s, key, now);
    if l.value.Some? && Truthy(l.value.value) then
      ReadOutcome(l.state, Success(l.value.value), false)
    else
      match response
      case Ok(body) =>
        var v := if kind == Search then Normalize(body) else body;
        ReadOutcome(AfterSet(l.state, key, v, storedAt), Success(v), true)
      case OkMalformed => ReadOutcome(l.state, Failure(MalformedJson), true)
      case NotOk(status) => ReadOutcome(l.state, Failure(HttpStatus(status)), true)
      case TimedOut =>
        if kind == Search then ReadOutcome(l.state, Success(Array([])), true)
        else ReadOutcome(l.state, Failure(Aborted), true)
      case NetworkDown => ReadOutcome(l.state, Failure(NetworkFailure), true)
  }

  /** What a write resolves to: the parsed body (create, update) or `true` (delete). */
  datatype Reply = Parsed(body: Body) | Done

  datatype WriteOutcome = WriteOutcome(state: CacheState, result: Result<Reply, ApiError>)

  /**
   * One write. Only an ok response touches the cache, and then every read key is
   * invalidated before the body is parsed, so a malformed body still leaves the cache
   * invalidated. `parsesBody` is false for delete, which resolves to `true` without reading
   * the body.
   */
  function Write(s: CacheState, response: Fetch, parsesBody: bool): (o: WriteOutcome)
    ensures (response.Ok? || response.OkMalformed?) ==> o.state == Invalidated(s, ReadKeys)
    ensures !(response.Ok? || response.OkMalformed?) ==> o.state == s && o.result.Failure?
    ensures o.result.Success? <==> response.Ok? || (response.OkMalformed? && !parsesBody)
    ensures response.Ok? ==> o.result == Success(if parsesBody then Parsed(response.body) else Done)
    ensures response.OkMalformed? && !parsesBody ==> o.result == Success(Done)
    ensures response.NotOk? ==> o.result == Failure(HttpStatus(response.status))
  {
    match response
    case Ok(body) => WriteOutcome(Invalidated(s, ReadKeys), Success(if parsesBody then Parsed(body) else Done))
    case OkMalformed =>
      WriteOutcome(Invalidated(s, ReadKeys), if parsesBody then Failure(MalformedJson) else Success(Done))
    case NotOk(status) => WriteOutcome(s, Failure(HttpStatus(status)))
    case TimedOut => WriteOutcome(s, Failure(Aborted))
    case NetworkDown => WriteOutcome(s, Failure(NetworkFailure))
  }

  // ---------------------------------------------------------------------------------------
  // The timeout branch of the two searches, as written

  /**
   * The `name` of the error `fetch` rejects with when the request's `AbortSignal.timeout(5000)`
   * fires: the DOM Standard's `AbortSignal.timeout()` aborts with a "TimeoutError"
   * DOMException, and `fetch` rejects with the signal's abort reason.
   */
  const TIMEOUT_ERROR_NAME := "TimeoutError"

  /** The searches' `catch` as written: only an error named "AbortError" becomes `[]`; any other is rethrown. */
  function SearchCatchAsWritten(errorName: string, error: ApiError): (r: Result<Body, ApiError>)
    ensures r == Success(Array([])) <==> errorName == "AbortError"
    ensures r.Failure? ==> r.error == error
  {
    if errorName == "AbortError" then Success(Array([])) else Failure(error)
  }

  /** As written, a search whose five-second timeout fires rejects instead of resolving to `[]`. */
  lemma SearchTimeoutRejectsAsWritten()
    ensures SearchCatchAsWritten(TIMEOUT_ERROR_NAME, Aborted) == Failure(Aborted)
  {
    assert TIMEOUT_ERROR_NAME[0] != "AbortError"[0];
  }

  // ---------------------------------------------------------------------------------------
  // Properties of the cache and of the reads and writes built on it

  /** A value stored at a non-zero time is returned, unchanged, for as long as the time to live has not passed. */
  lemma StoredValueIsServedWithinTtl(s: CacheState, key: string, v: Body, t: int, now: int)
    requires t != 0 && now - t <= CACHE_TTL
    ensures Lookup(AfterSet(s, key, v, t), key, now) == LookupResult(AfterSet(s, key, v, t), Some(v))
  {
  }

  /** Past the time to live, `get` returns null and removes just that key from both maps. */
  lemma ExpiredEntryIsRemoved(s: CacheState, key: string, now: int)
    requires key in s.timestamps && s.timestamps[key] != 0 && IsExpired(s.timestamps[key], now)
    ensures Lookup(s, key, now).value == None
    ensures key !in Lookup(s, key, now).state.data && key !in Lookup(s, key, now).state.timestamps
    ensures forall k | k in s.data && k != key :: k in Lookup(s, key, now).state.data
  {
  }

  /** The three read functions use pairwise distinct keys, and each search key determines its term. */
  lemma ReadKeysAreDistinct(a: string, b: string)
    ensures NameKey(a) != SerialKey(b)
    ensures NameKey(a) != ALL_SERVICES_KEY && SerialKey(a) != ALL_SERVICES_KEY
    ensures NameKey(a) == NameKey(b) ==> a == b
    ensures SerialKey(a) == SerialKey(b) ==> a == b
  {
    assert NameKey(a)[8] == 'N' && SerialKey(b)[8] == 'S';
    assert NameKey(a)[13..] == a && NameKey(b)[13..] == b;
    assert SerialKey(a)[15..] == a && SerialKey(b)[15..] == b;
    assert |ALL_SERVICES_KEY| == 14 && ALL_SERVICES_KEY[0] == 'g' && NameKey(a)[0] == 's';
  }

  /** Every key a read function uses matches the invalidation pattern of the writes. */
  lemma ReadKeysMatchPattern(search: string)
    ensures IsReadKey(ALL_SERVICES_KEY)
    ensures IsReadKey(NameKey(search))
    ensures IsReadKey(SerialKey(search))
  {
    assert ALL_SERVICES_KEY[..14] == "getAllServices";
    assert NameKey(search)[..12] == "searchByName";
    assert SerialKey(search)[..14] == "searchBySerial";
  }

  /** A cache hit returns the stored value whatever the network would have answered, and fetches nothing. */
  lemma HitDoesNotFetch(s: CacheState, key: string, kind: ReadKind, now: int, r1: Fetch, r2: Fetch, t1: int, t2: int)
    requires Lookup(s, key, now).value.Some? && Truthy(Lookup(s, key, now).value.value)
    ensures Read(s, key, kind, now, r1, t1) == Read(s, key, kind, now, r2, t2)
    ensures !Read(s, key, kind, now, r1, t1).fetched
  {
  }

  /**
   * Reading the same key twice within the time to live, with no write in between, gives the
   * same value, and the second read fetches nothing, whatever the network then answers.
   * (For `getAllServices` this needs a truthy body: a stored `null` is a miss.)
   */
  lemma SecondReadWithinTtlHits(
    s: CacheState, key: string, kind: ReadKind, now1: int, body: Body, t1: int,
    now2: int, response2: Fetch, t2: int)
    requires t1 != 0 && now2 - t1 <= CACHE_TTL
    requires kind == Search || Truthy(body)
    ensures var first := Read(s, key, kind, now1, Ok(body), t1);
            var second := Read(first.state, key, kind, now2, response2, t2);
            first.fetched ==> second == ReadOutcome(first.state, first.result, false)
  {
    var first := Read(s, key, kind, now1, Ok(body), t1);
    if first.fetched {
      var v := if kind == Search then Normalize(body) else body;
      assert first.state == AfterSet(Lookup(s, key, now1).state, key, v, t1);
      StoredValueIsServedWithinTtl(Lookup(s, key, now1).state, key, v, t1, now2);
    }
  }

  /** A `getAllServices` body of `null` is stored as it is, and the next read misses and fetches again. */
  lemma NullBodyIsCachedButMisses(s: CacheState, now1: int, t1: int, now2: int, response2: Fetch, t2: int)
    ensures var first := Read(s, ALL_SERVICES_KEY, Raw, now1, Ok(Null), t1);
            first.fetched ==>
              && first.state.data[ALL_SERVICES_KEY] == Null
              && Read(first.state, ALL_SERVICES_KEY, Raw, now2, response2, t2).fetched
  {
    var first := Read(s, ALL_SERVICES_KEY, Raw, now1, Ok(Null), t1);
    var l := Lookup(first.state, ALL_SERVICES_KEY, now2);
    if first.fetched {
      assert l.value.Some? ==> l.value.value == Null;
    }
  }

  /** An expired entry is fetched again, and an ok response restamps it with the new time. */
  lemma ExpiredReadRefetches(s: CacheState, key: string, kind: ReadKind, now: int, body: Body, storedAt: int)
    requires key in s.timestamps && s.timestamps[key] != 0 && IsExpired(s.timestamps[key], now)
    ensures Read(s, key, kind, now, Ok(body), storedAt).fetched
    ensures Read(s, key, kind, now, Ok(body), storedAt).state.timestamps[key] == storedAt
  {
  }

  /** A search that times out resolves to `[]` and stores nothing; at most an expired entry was dropped. */
  lemma SearchTimeoutStoresNothing(s: CacheState, key: string, now: int, storedAt: int)
    ensures var o := Read(s, key, Search, now, TimedOut, storedAt);
            o.fetched ==> o.result == Success(Array([])) && o.state == Lookup(s, key, now).state
  {
  }

  /** A search caches its normalised body; `getAllServices` caches the raw body. */
  lemma FetchedBodyIsStored(s: CacheState, key: string, kind: ReadKind, now: int, body: Body, storedAt: int)
    ensures var o := Read(s, key, kind, now, Ok(body), storedAt);
            o.fetched ==> o.state.data[key] == (if kind == Search then Normalize(body) else body)
  {
  }

  /**
   * After a successful write no read function can be answered from the cache: the next
   * `getAllServices`, `searchServiceByName(t)` or `searchServiceBySerialNumber(t)` fetches.
   */
  lemma SuccessfulWriteForcesRefetch(
    s: CacheState, response: Fetch, parsesBody: bool, search: string, kind: ReadKind,
    now: int, next: Fetch, storedAt: int)
    requires response.Ok? || response.OkMalformed?
    ensures var after := Write(s, response, parsesBody).state;
            && Read(after, ALL_SERVICES_KEY, kind, now, next, storedAt).fetched
            && Read(after, NameKey(search), kind, now, next, storedAt).fetched
            && Read(after, SerialKey(search), kind, now, next, storedAt).fetched
  {
    var after := Write(s, response, parsesBody).state;
    ReadKeysMatchPattern(search);
    assert ALL_SERVICES_KEY !in after.data;
    assert NameKey(search) !in after.data;
    assert SerialKey(search) !in after.data;
  }

  /** A successful write keeps every entry whose key is not a read key. */
  lemma SuccessfulWriteKeepsOtherKeys(s: CacheState, response: Fetch, parsesBody: bool, key: string)
    requires response.Ok? || response.OkMalformed?
    requires key in s.data && !IsReadKey(key)
    ensures var after := Write(s, response, parsesBody).state;
            key in after.data && after.data[key] == s.data[key]
  {
  }

  // ---------------------------------------------------------------------------------------
  // The module-level cache object

  class Cache {
    var data: map<string, Body>
    var timestamps: map<string, int>

    function State(): CacheState
      reads this
    {
      CacheState(data, timestamps)
    }

    constructor ()
      ensures State() == Empty
    {
      data := map[];
      timestamps := map[];
    }

    /** `cache.set(key, data)`: stores, stamps with `now`, and returns the value it stored. */
    method Set(key: string, value: Body, now: int) returns (r: Body)
      modifies this
      ensures State() == AfterSet(old(State()), key, value, now)
      ensures r == value
    {
      data := data[key := value];
      timestamps := timestamps[key := now];
      r := value;
    }

    /** `cache.get(key)` at time `now`. */
    method Get(key: string, now: int) returns (r: Option<Body>)
      modifies this
      ensures LookupResult(State(), r) == Lookup(old(State()), key, now)
    {
      if key !in timestamps || timestamps[key] == 0 {
        return None;
      }
      var timestamp := timestamps[key];
      if now - timestamp > CACHE_TTL {
        data := data - {key};
        timestamps := timestamps - {key};
        return None;
      }
      r := if key in data then Some(data[key]) else None;
    }

    /** `cache.invalidate(pattern)`; a RegExp is tested against a snapshot of the keys of `data`. */
    method Invalidate(pattern: KeyPattern)
      modifies this
      ensures State() == Invalidated(old(State()), pattern)
    {
      match pattern
      case Pattern(test) =>
        var keys := data.Keys;
        ghost var done: set<string> := {};
        while keys != {}
          invariant keys + done == old(data).Keys && keys !! done
          invariant data == old(data) - Matching(done, test)
          invariant timestamps == old(timestamps) - Matching(done, test)
          decreases keys
        {
          var key :| key in keys;
          if test(key) {
            data := data - {key};
            timestamps := timestamps - {key};
          }
          assert Matching(done + {key}, test) == Matching(done, test) + (if test(key) then {key} else {});
          keys := keys - {key};
          done := done + {key};
        }
      case Key(key) =>
        data := data - {key};
        timestamps := timestamps - {key};
      case Other =>
        data := map[];
        timestamps := map[];
    }
  }

  // ---------------------------------------------------------------------------------------
  // The exported API functions

  /** The cached-read shape shared by the three read functions. */
  method CachedRead(cache: Cache, key: string, kind: ReadKind, now: int, response: Fetch, storedAt: int)
    returns (r: Result<Body, ApiError>, fetched: bool)
    modifies cache
    ensures ReadOutcome(cache.State(), r, fetched) == Read(old(cache.State()), key, kind, now, response, storedAt)
  {
    var cached := cache.Get(key, now);
    if cached.Some? && Truthy(cached.value) {
      return Success(cached.value), false;
    }
    fetched := true;
    match response
    case Ok(body) =>
      var result := if kind == Search then Normalize(body) else body;
      var stored := cache.Set(key, result, storedAt);
      r := Success(stored);
    case OkMalformed =>
      r := Failure(MalformedJson);
    case NotOk(status) =>
      r := Failure(HttpStatus(status));
    case TimedOut =>
      r := if kind == Search then Success(Array([])) else Failure(Aborted);
    case NetworkDown =>
      r := Failure(NetworkFailure);
  }

  /** `getAllServices()` */
  method GetAllServices(cache: Cache, now: int, response: Fetch, storedAt: int)
    returns (r: Result<Body, ApiError>, fetched: bool)
    modifies cache
    ensures ReadOutcome(cache.State(), r, fetched) == Read(old(cache.State()), ALL_SERVICES_KEY, Raw, now, response, storedAt)
  {
    r, fetched := CachedRead(cache, ALL_SERVICES_KEY, Raw, now, response, storedAt);
  }

  /** `searchServiceByName(search)` */
  method SearchServiceByName(cache: Cache, search: string, now: int, response: Fetch, storedAt: int)
    returns (r: Result<Body, ApiError>, fetched: bool)
    modifies cache
    ensures ReadOutcome(cache.State(), r, fetched) == Read(old(cache.State()), NameKey(search), Search, now, response, storedAt)
  {
    r, fetched := CachedRead(cache, NameKey(search), Search, now, response, storedAt);
  }

  /** `searchServiceBySerialNumber(search)` */
  method SearchServiceBySerialNumber(cache: Cache, search: string, now: int, response: Fetch, storedAt: int)
    returns (r: Result<Body, ApiError>, fetched: bool)
    modifies cache
    ensures ReadOutcome(cache.State(), r, fetched) == Read(old(cache.State()), SerialKey(search), Search, now, response, storedAt)
  {
    r, fetched := CachedRead(cache, SerialKey(search), Search, now, response, storedAt);
  }

  /** The write shape shared by create, update and delete. */
  method CachedWrite(cache: Cache, response: Fetch, parsesBody: bool) returns (r: Result<Reply, ApiError>)
    modifies cache
    ensures WriteOutcome(cache.State(), r) == Write(old(cache.State()), response, parsesBody)
  {
    match response
    case NotOk(status) =>
      r := Failure(HttpStatus(status));
    case TimedOut =>
      r := Failure(Aborted);
    case NetworkDown =>
      r := Failure(NetworkFailure);
    case Ok(body) =>
      cache.Invalidate(ReadKeys);
      r := if parsesBody then Success(Parsed(body)) else Success(Done);
    case OkMalformed =>
      cache.Invalidate(ReadKeys);
      r := if parsesBody then Failure(MalformedJson) else Success(Done);
  }

  /** `createService(serviceData)` */
  method CreateService(cache: Cache, response: Fetch) returns (r: Result<Reply, ApiError>)
    modifies cache
    ensures WriteOutcome(cache.State(), r) == Write(old(cache.State()), response, true)
  {
    r := CachedWrite(cache, response, true);
  }

  /** `updateService(id, serviceData)` */
  method UpdateService(cache: Cache, id: int, response: Fetch) returns (r: Result<Reply, ApiError>)
    modifies cache
    ensures WriteOutcome(cache.State(), r) == Write(old(cache.State()), response, true)
  {
    r := CachedWrite(cache, response, true);
  }

  /** `deleteService(id)` */
  method DeleteService(cache: Cache, id: string, response: Fetch) returns (r: Result<Reply, ApiError>)
    modifies cache
    ensures WriteOutcome(cache.State(), r) == Write(old(cache.State()), response, false)
  {
    r := CachedWrite(cache, response, false);
  }
}
