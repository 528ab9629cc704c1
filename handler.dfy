/** The read-through engine: a Getter says how one entity is fetched from the
  * relational store and the search index and how the cached payload is shaped;
  * `sync_data` runs a Getter and writes the payload to the cache; every
  * single-key facade reads the cache first and falls back to `sync_data`. */
module Handler {
  import opened Json
  import opened Cache

  /** A Getter over store results of type `D`: the store lookup, the Python
    * truthiness of its result, the search-index lookup (which is given the store
    * result as `db_data`), and the payload shaper. */
  datatype Getter<!D> = Getter(
    fromSql: Kwargs -> D,
    found: D -> bool,
    fromSearch: (Kwargs, D) -> Json,
    prepare: (D, Json, Kwargs) -> Json)

  /** The search lookup a Getter inherits when it does not override it. */
  function NoSearch<D>(): (Kwargs, D) -> Json {
    (kw: Kwargs, d: D) => JNull
  }

  /** The search lookup of a Getter that overrides it to return `{}`. */
  function EmptySearch<D>(): (Kwargs, D) -> Json {
    (kw: Kwargs, d: D) => Empty
  }

  /** `kwargs.get(name)`. */
  function Kw(kw: Kwargs, name: string): Json {
    if name in kw && kw[name].Value? then kw[name].v else JNull
  }

  /** The base `Getter`: every lookup and the shaper return None. */
  function BaseGetter(): Getter<Json> {
    Getter((kw: Kwargs) => JNull, (d: Json) => Truthy(d), NoSearch(), (d: Json, es: Json, kw: Kwargs) => JNull)
  }

  /** The keyword arguments `prepare_sync_payload` receives. */
  function WithHandles(kw: Kwargs): Kwargs {
    kw["db_session" := DbSession]["cache_conn" := CacheConnection]
  }

  /** `kwargs.get("redis_key_expire_time")`, None when absent. */
  function ExpireTime(kw: Kwargs): Json {
    if "redis_key_expire_time" in kw && kw["redis_key_expire_time"].Value? then kw["redis_key_expire_time"].v
    else JNull
  }

  /** The command `_set_data_in_cache` issues for a value. */
  function WriteCall(key: string, value: Json): (c: CacheCall)
    ensures c.StrSet? <==> IsScalar(value)
    ensures (c.StrSet? || c.JsonSet?) && c.key == key && c.value == value
  {
    if IsScalar(value) then StrSet(key, value) else JsonSet(key, value)
  }

  /** The entry `_set_data_in_cache` leaves for a payload: its text for a str or int,
    * the document otherwise. */
  function WrittenEntry(p: Json): CacheValue {
    if IsScalar(p) then Scalar(Stored(p)) else Document(p)
  }

  /** What a read of the payload's own kind gives back after the write. */
  function ReadBack(p: Json): Json {
    if IsScalar(p) then Stored(p) else p
  }

  /** What one call of `sync_data` returns and the calls it makes, in order. */
  datatype Sync = Sync(result: Json, events: seq<Event>)

  /** What a step that may raise returns, and the calls it made before returning or raising. */
  datatype Outcome = Outcome(result: Result<Json>, events: seq<Event>)

  function SyncSpec<D>(g: Getter<D>, key: string, kw: Kwargs): Sync {
    var data := g.fromSql(kw);
    var es := g.fromSearch(kw, data);
    var queries := [StoreQuery(kw), SearchQuery(kw)];
    if !g.found(data) && !Truthy(es) then Sync(Empty, queries)
    else
      var payload := g.prepare(data, es, WithHandles(kw));
      var write := [CacheOp(WriteCall(key, payload))];
      var expire := if Truthy(ExpireTime(kw)) then [CacheOp(Expire(key, ExpireTime(kw)))] else [];
      Sync(payload, queries + write + expire)
  }

  /** Nothing found in either source: `{}` is returned and the cache is not touched. */
  lemma SyncNotFound<D>(g: Getter<D>, key: string, kw: Kwargs)
    requires !g.found(g.fromSql(kw)) && !Truthy(g.fromSearch(kw, g.fromSql(kw)))
    ensures SyncSpec(g, key, kw) == Sync(Empty, [StoreQuery(kw), SearchQuery(kw)])
    ensures forall i :: 0 <= i < |SyncSpec(g, key, kw).events| ==> !IsCacheCall(SyncSpec(g, key, kw).events[i])
  {
  }

  /** The store is asked first and the search index second, and every later call
    * goes to the cache; the cache is touched exactly when something was found. */
  lemma SyncOrder<D>(g: Getter<D>, key: string, kw: Kwargs)
    ensures var evs := SyncSpec(g, key, kw).events;
      |evs| >= 2 && evs[0] == StoreQuery(kw) && evs[1] == SearchQuery(kw)
      && (forall i :: 2 <= i < |evs| ==> IsCacheCall(evs[i]))
      && (|evs| > 2 <==> g.found(g.fromSql(kw)) || Truthy(g.fromSearch(kw, g.fromSql(kw))))
  {
  }

  /** Something was found: the payload shaped from both results, with the handles
    * added to the arguments, is written once under `key` and returned; the expiry
    * follows the write, on the same key, exactly when an expiry time was given. */
  lemma SyncFound<D>(g: Getter<D>, key: string, kw: Kwargs)
    requires g.found(g.fromSql(kw)) || Truthy(g.fromSearch(kw, g.fromSql(kw)))
    ensures var s := SyncSpec(g, key, kw);
      var data := g.fromSql(kw);
      s.result == g.prepare(data, g.fromSearch(kw, data), WithHandles(kw))
      && s.events[2] == CacheOp(WriteCall(key, s.result))
      && (forall i :: 0 <= i < |s.events| && i != 2 ==> !IsWrite(s.events[i]))
      && (Truthy(ExpireTime(kw)) ==> |s.events| == 4 && s.events[3] == CacheOp(Expire(key, ExpireTime(kw))))
      && (!Truthy(ExpireTime(kw)) ==> |s.events| == 3)
  {
  }

  /** After a fill, the key holds the payload, as a string entry holding its text
    * exactly when the payload is a str or int, and no other key changed. */
  lemma {:induction false} SyncReadBack<D>(e: Entries, g: Getter<D>, key: string, kw: Kwargs)
    requires g.found(g.fromSql(kw)) || Truthy(g.fromSearch(kw, g.fromSql(kw)))
    ensures var s := SyncSpec(g, key, kw);
      Run(e, s.events) == e[key := WrittenEntry(s.result)]
  {
    var s := SyncSpec(g, key, kw);
    var queries := [StoreQuery(kw), SearchQuery(kw)];
    var w := CacheOp(WriteCall(key, s.result));
    var rest := s.events[3..];
    assert s.events == queries + ([w] + rest);
    RunAppend(e, queries, [w] + rest);
    RunSnoc(e, [StoreQuery(kw)], SearchQuery(kw));
    RunOne(e, StoreQuery(kw));
    assert [StoreQuery(kw)] + [SearchQuery(kw)] == queries;
    assert Run(e, queries) == e;
    RunAppend(e, [w], rest);
    RunOne(e, w);
    assert forall i :: 0 <= i < |rest| ==> rest[i].CacheOp? && rest[i].call.Expire?;
    RunWithoutWrites(Step(e, w), rest);
    assert Run(e, s.events) == Step(e, w);
    assert Step(e, w) == e[key := WrittenEntry(s.result)];
  }

  /** The base Getter never finds anything, so syncing with it returns `{}` and writes nothing. */
  lemma BaseGetterSyncsNothing(key: string, kw: Kwargs)
    ensures SyncSpec(BaseGetter(), key, kw) == Sync(Empty, [StoreQuery(kw), SearchQuery(kw)])
  {
  }

  /** `_set_data_in_cache`. */
  method SetDataInCache(net: Network, key: string, value: Json) returns (r: Json)
    modifies net
    ensures r == value
    ensures net.entries == Step(old(net.entries), CacheOp(WriteCall(key, value)))
    ensures net.trace == old(net.trace) + [CacheOp(WriteCall(key, value))]
  {
    if IsScalar(value) {
      net.Perform(CacheOp(StrSet(key, value)));
    } else {
      net.Perform(CacheOp(JsonSet(key, value)));
    }
    r := value;
  }

  /** `_set_redis_key_expire`. */
  method SetRedisKeyExpire(net: Network, key: string, seconds: Json)
    modifies net
    ensures net.entries == old(net.entries)
    ensures net.trace == old(net.trace) + [CacheOp(Expire(key, seconds))]
  {
    net.Perform(CacheOp(Expire(key, seconds)));
  }

  /** `SyncDataHandler.sync_data`. */
  method SyncData<D>(net: Network, g: Getter<D>, key: string, kw: Kwargs) returns (r: Json)
    modifies net
    ensures r == SyncSpec(g, key, kw).result
    ensures net.trace == old(net.trace) + SyncSpec(g, key, kw).events
    ensures net.entries == Run(old(net.entries), SyncSpec(g, key, kw).events)
  {
    ghost var e0 := net.entries;
    ghost var t0 := net.trace;
    var data := g.fromSql(kw);
    net.Perform(StoreQuery(kw));
    var es := g.fromSearch(kw, data);
    net.Perform(SearchQuery(kw));
    ghost var done := [StoreQuery(kw), SearchQuery(kw)];
    RunSnoc(e0, [StoreQuery(kw)], SearchQuery(kw));
    RunOne(e0, StoreQuery(kw));
    assert [StoreQuery(kw)] + [SearchQuery(kw)] == done;
    AppendAssoc(t0, [StoreQuery(kw)], [SearchQuery(kw)]);
    assert net.entries == Run(e0, done);
    assert net.trace == t0 + done;
    if !g.found(data) && !Truthy(es) {
      return Empty;
    }
    var args := WithHandles(kw);
    var payload := g.prepare(data, es, args);
    r := SetDataInCache(net, key, payload);
    RunSnoc(e0, done, CacheOp(WriteCall(key, payload)));
    AppendAssoc(t0, done, [CacheOp(WriteCall(key, payload))]);
    done := done + [CacheOp(WriteCall(key, payload))];
    var expireTime := ExpireTime(kw);
    if Truthy(expireTime) {
      SetRedisKeyExpire(net, key, expireTime);
      RunSnoc(e0, done, CacheOp(Expire(key, expireTime)));
      AppendAssoc(t0, done, [CacheOp(Expire(key, expireTime))]);
      done := done + [CacheOp(Expire(key, expireTime))];
    }
    assert done == SyncSpec(g, key, kw).events;
  }

  /** How a facade reads its key: GET for string entries, GET_JSON for documents. */
  datatype ReadKind = StringRead | JsonRead

  function ReadCall(kind: ReadKind, key: string): CacheCall {
    if kind == StringRead then StrGet(key) else JsonGet(key)
  }

  function Read(e: Entries, kind: ReadKind, key: string): Json {
    if kind == StringRead then ReadScalar(e, key) else ReadJson(e, key)
  }

  /** The kind of read under which a written payload is found again. */
  function ReadKindOf(payload: Json): ReadKind {
    if IsScalar(payload) then StringRead else JsonRead
  }

  /** A single-key facade: a truthy cache value is returned as is; otherwise
    * the Getter is synced under the same key. */
  function ReadThroughSpec<D>(e: Entries, kind: ReadKind, key: string, g: Getter<D>, kw: Kwargs): Sync {
    var cached := Read(e, kind, key);
    if Truthy(cached) then Sync(cached, [CacheOp(ReadCall(kind, key))])
    else
      var s := SyncSpec(g, key, kw);
      Sync(s.result, [CacheOp(ReadCall(kind, key))] + s.events)
  }

  /** A hit is returned unchanged, with no store or search call and no write. */
  lemma ReadThroughHit<D>(e: Entries, kind: ReadKind, key: string, g: Getter<D>, kw: Kwargs)
    requires Truthy(Read(e, kind, key))
    ensures ReadThroughSpec(e, kind, key, g, kw) == Sync(Read(e, kind, key), [CacheOp(ReadCall(kind, key))])
  {
  }

  /** A miss returns exactly what `sync_data` returns for the facade's key,
    * after the one cache read. */
  lemma ReadThroughMiss<D>(e: Entries, kind: ReadKind, key: string, g: Getter<D>, kw: Kwargs)
    requires !Truthy(Read(e, kind, key))
    ensures ReadThroughSpec(e, kind, key, g, kw).result == SyncSpec(g, key, kw).result
    ensures ReadThroughSpec(e, kind, key, g, kw).events == [CacheOp(ReadCall(kind, key))] + SyncSpec(g, key, kw).events
  {
  }

  /** A miss that fills the cache with a payload of the kind the facade reads, whose
    * read-back is truthy, makes the next call a hit on that read-back (the payload
    * itself for a document, its text for a str or int), with no store call. */
  lemma {:induction false} ReadThroughFillThenHit<D>(e: Entries, kind: ReadKind, key: string, g: Getter<D>, kw: Kwargs)
    requires !Truthy(Read(e, kind, key))
    requires g.found(g.fromSql(kw)) || Truthy(g.fromSearch(kw, g.fromSql(kw)))
    requires var p := SyncSpec(g, key, kw).result; Truthy(ReadBack(p)) && ReadKindOf(p) == kind
    ensures var first := ReadThroughSpec(e, kind, key, g, kw);
      ReadThroughSpec(Run(e, first.events), kind, key, g, kw) == Sync(ReadBack(first.result), [CacheOp(ReadCall(kind, key))])
  {
    var s := SyncSpec(g, key, kw);
    var first := ReadThroughSpec(e, kind, key, g, kw);
    RunAppend(e, [CacheOp(ReadCall(kind, key))], s.events);
    RunOne(e, CacheOp(ReadCall(kind, key)));
    SyncReadBack(e, g, key, kw);
  }

  /** A shaped payload whose read-back is falsy, or that is written with one kind and
    * read with the other, is never found again: every call goes back to the store. */
  lemma {:induction false} ReadThroughNeverHits<D>(e: Entries, kind: ReadKind, key: string, g: Getter<D>, kw: Kwargs)
    requires !Truthy(Read(e, kind, key))
    requires g.found(g.fromSql(kw)) || Truthy(g.fromSearch(kw, g.fromSql(kw)))
    requires var p := SyncSpec(g, key, kw).result; !Truthy(ReadBack(p)) || ReadKindOf(p) != kind
    ensures var first := ReadThroughSpec(e, kind, key, g, kw);
      !Truthy(Read(Run(e, first.events), kind, key))
  {
    var s := SyncSpec(g, key, kw);
    RunAppend(e, [CacheOp(ReadCall(kind, key))], s.events);
    RunOne(e, CacheOp(ReadCall(kind, key)));
    SyncReadBack(e, g, key, kw);
  }

  method ReadThrough<D>(net: Network, kind: ReadKind, key: string, g: Getter<D>, kw: Kwargs) returns (r: Json)
    modifies net
    ensures r == ReadThroughSpec(old(net.entries), kind, key, g, kw).result
    ensures net.trace == old(net.trace) + ReadThroughSpec(old(net.entries), kind, key, g, kw).events
    ensures net.entries == Run(old(net.entries), ReadThroughSpec(old(net.entries), kind, key, g, kw).events)
  {
    ghost var e0 := net.entries;
    ghost var t0 := net.trace;
    ghost var read := CacheOp(ReadCall(kind, key));
    RunOne(e0, read);
    if kind == StringRead {
      r := net.Get(key);
    } else {
      r := net.GetJson(key);
    }
    assert r == Read(e0, kind, key);
    if !Truthy(r) {
      ghost var s := SyncSpec(g, key, kw);
      r := SyncData(net, g, key, kw);
      RunAppend(e0, [read], s.events);
      AppendAssoc(t0, [read], s.events);
      assert ReadThroughSpec(e0, kind, key, g, kw) == Sync(s.result, [read] + s.events);
    }
  }

  // ---------------------------------------------------------------------------
  // Getters that raise

  /** A Getter whose store lookup or payload shaper may raise: `sqlError` is the
    * exception `get_data_from_sql` raises for the arguments, `shapeError` the one
    * `prepare_sync_payload` raises for its inputs, None when they return. */
  datatype Raising<!D> = Raising(g: Getter<D>, sqlError: Kwargs -> Option<string>,
                                 shapeError: (D, Json, Kwargs) -> Option<string>)

  /** `sync_data` with such a Getter: an exception of the store lookup ends the call
    * after the store query, one of the shaper after both queries; otherwise it is the
    * sync of the Getter. */
  function SyncOutcome<D>(r: Raising<D>, key: string, kw: Kwargs): Outcome {
    if r.sqlError(kw).Some? then Outcome(Failure(r.sqlError(kw).value), [StoreQuery(kw)])
    else
      var data := r.g.fromSql(kw);
      var es := r.g.fromSearch(kw, data);
      var err := r.shapeError(data, es, WithHandles(kw));
      if (r.g.found(data) || Truthy(es)) && err.Some? then
        Outcome(Failure(err.value), [StoreQuery(kw), SearchQuery(kw)])
      else
        var s := SyncSpec(r.g, key, kw);
        Outcome(Ok(s.result), s.events)
  }

  /** The call raises exactly when the store lookup raises, or something was found and
    * shaping it raises; a raising call makes no cache call, and a returning one is the
    * sync of the Getter. */
  lemma SyncRaises<D>(r: Raising<D>, key: string, kw: Kwargs)
    ensures var o := SyncOutcome(r, key, kw);
      var data := r.g.fromSql(kw);
      var es := r.g.fromSearch(kw, data);
      (o.result.Failure? <==>
         (r.sqlError(kw).Some?
          || ((r.g.found(data) || Truthy(es)) && r.shapeError(data, es, WithHandles(kw)).Some?)))
      && (o.result.Failure? ==> forall i :: 0 <= i < |o.events| ==> !IsCacheCall(o.events[i]))
      && (o.result.Ok? ==> o == Outcome(Ok(SyncSpec(r.g, key, kw).result), SyncSpec(r.g, key, kw).events))
  {
  }

  /** `SyncDataHandler.sync_data` with a Getter that may raise. */
  method SyncDataOutcome<D>(net: Network, r: Raising<D>, key: string, kw: Kwargs) returns (res: Result<Json>)
    modifies net
    ensures res == SyncOutcome(r, key, kw).result
    ensures net.trace == old(net.trace) + SyncOutcome(r, key, kw).events
    ensures net.entries == Run(old(net.entries), SyncOutcome(r, key, kw).events)
  {
    ghost var e0 := net.entries;
    var err := r.sqlError(kw);
    if err.Some? {
      net.Perform(StoreQuery(kw));
      RunOne(e0, StoreQuery(kw));
      return Failure(err.value);
    }
    var data := r.g.fromSql(kw);
    var es := r.g.fromSearch(kw, data);
    var shapeErr := r.shapeError(data, es, WithHandles(kw));
    if (r.g.found(data) || Truthy(es)) && shapeErr.Some? {
      ghost var t0 := net.trace;
      net.Perform(StoreQuery(kw));
      net.Perform(SearchQuery(kw));
      AppendAssoc(t0, [StoreQuery(kw)], [SearchQuery(kw)]);
      RunWithoutWrites(e0, [StoreQuery(kw), SearchQuery(kw)]);
      return Failure(shapeErr.value);
    }
    var v := SyncData(net, r.g, key, kw);
    res := Ok(v);
  }

  /** A single-key facade over a Getter that may raise. */
  function ReadThroughOutcome<D>(e: Entries, kind: ReadKind, key: string, r: Raising<D>, kw: Kwargs): Outcome {
    var cached := Read(e, kind, key);
    if Truthy(cached) then Outcome(Ok(cached), [CacheOp(ReadCall(kind, key))])
    else
      var o := SyncOutcome(r, key, kw);
      Outcome(o.result, [CacheOp(ReadCall(kind, key))] + o.events)
  }

  /** A facade call that raises leaves the cache as it was; one that returns is the
    * read-through of the Getter. */
  lemma {:induction false} ReadThroughRaises<D>(e: Entries, kind: ReadKind, key: string, r: Raising<D>, kw: Kwargs)
    ensures var o := ReadThroughOutcome(e, kind, key, r, kw);
      (o.result.Failure? ==> !Truthy(Read(e, kind, key)) && SyncOutcome(r, key, kw).result.Failure?
                             && Run(e, o.events) == e)
      && (o.result.Ok? ==> o == Outcome(Ok(ReadThroughSpec(e, kind, key, r.g, kw).result),
                                        ReadThroughSpec(e, kind, key, r.g, kw).events))
  {
    var o := ReadThroughOutcome(e, kind, key, r, kw);
    SyncRaises(r, key, kw);
    if o.result.Failure? {
      RunWithoutWrites(e, o.events);
    }
  }

  method ReadThroughRaising<D>(net: Network, kind: ReadKind, key: string, r: Raising<D>, kw: Kwargs) returns (res: Result<Json>)
    modifies net
    ensures res == ReadThroughOutcome(old(net.entries), kind, key, r, kw).result
    ensures net.trace == old(net.trace) + ReadThroughOutcome(old(net.entries), kind, key, r, kw).events
    ensures net.entries == Run(old(net.entries), ReadThroughOutcome(old(net.entries), kind, key, r, kw).events)
  {
    ghost var e0 := net.entries;
    ghost var t0 := net.trace;
    ghost var read := CacheOp(ReadCall(kind, key));
    RunOne(e0, read);
    var cached;
    if kind == StringRead {
      cached := net.Get(key);
    } else {
      cached := net.GetJson(key);
    }
    assert cached == Read(e0, kind, key);
    if Truthy(cached) {
      return Ok(cached);
    }
    ghost var o := SyncOutcome(r, key, kw);
    res := SyncDataOutcome(net, r, key, kw);
    RunAppend(e0, [read], o.events);
    AppendAssoc(t0, [read], o.events);
  }
}
