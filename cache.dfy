/** The connection network the data-access layer works against: the Redis
  * cache (string and RedisJSON entries), and a trace of every call made to
  * the cache, the relational store and the search index, in order. The store
  * and the search index are snapshots given as functions; only the fact and
  * the arguments of each query are traced. */
module Cache {
  import opened Json

  /** A `RedisKeyEnum` key template with one placeholder: `before{}after`. */
  datatype KeyTemplate = KeyTemplate(before: string, after: string)

  /** `template.format(arg)`. */
  function Key(t: KeyTemplate, arg: string): string {
    t.before + arg + t.after
  }

  /** A template maps distinct arguments to distinct keys. */
  lemma KeyInjective(t: KeyTemplate, a: string, b: string)
    ensures Key(t, a) == Key(t, b) <==> a == b
  {
    if Key(t, a) == Key(t, b) {
      assert |a| == |b|;
      assert a == Key(t, a)[|t.before|..|t.before| + |a|];
      assert b == Key(t, b)[|t.before|..|t.before| + |b|];
    }
  }

  /** A cache entry: a plain Redis string written with SET (its text), or a RedisJSON
    * document. */
  datatype CacheValue = Scalar(v: Json) | Document(doc: Json)

  /** The text Redis keeps for a value written with SET: a str as it is, an int as its
    * decimal digits and a bool as `str()` prints it. GET gives that text back, which
    * is why the callers convert a hit with `int()`. */
  function Stored(v: Json): Json {
    match v
    case JInt(i) => JStr(IntStr(i))
    case JBool(b) => JStr(BoolStr(b))
    case _ => v
  }

  /** A str, int or bool is kept as text; an int or bool is never kept as a falsy
    * text, so only the empty str reads back falsy. */
  lemma StoredText(v: Json)
    requires IsScalar(v)
    ensures Stored(v).JStr?
    ensures v.JStr? ==> Stored(v) == v
    ensures Truthy(Stored(v)) <==> v != JStr("")
  {
    if v.JInt? {
      IntStrSign(v.i);
    }
  }

  type Entries = map<string, CacheValue>

  /** A keyword argument of a Getter call: a plain value, or one of the two handles
    * `sync_data` adds before shaping the payload. */
  datatype Arg = Value(v: Json) | DbSession | CacheConnection

  type Kwargs = map<string, Arg>

  /** The Redis commands the cache operations issue. */
  datatype CacheCall =
    | StrGet(key: string)                        // GET
    | JsonGet(key: string)                       // GET_JSON
    | JsonMGet(keys: seq<string>)                // GET_MULTIPLE
    | StrSet(key: string, value: Json)           // SET
    | JsonSet(key: string, value: Json)          // SET_JSON at path "."
    | JsonSetNx(key: string, value: Json)        // SET_JSON_NX at path "."
    | Expire(key: string, seconds: Json)         // SET_EXPIRY_TIME
    | JsonNumIncrBy(key: string, path: string, amount: int)  // INCREMENT_VALUE

  datatype Event =
    | StoreQuery(kw: Kwargs)        // a Getter's get_data_from_sql
    | SearchQuery(kw: Kwargs)       // a Getter's get_data_from_elasticsearch
    | BatchQuery(ids: seq<Json>)    // one batched store query for the missing ids
    | CountQuery(arg: Json)         // a store count, by account
    | CacheOp(call: CacheCall)

  /** GET: the text of a string entry; None for a missing key or a JSON document. */
  function ReadScalar(e: Entries, k: string): Json {
    if k in e && e[k].Scalar? then e[k].v else JNull
  }

  /** JSON.GET at the root: the document; None for a missing key or a string entry. */
  function ReadJson(e: Entries, k: string): Json {
    if k in e && e[k].Document? then e[k].doc else JNull
  }

  /** GET_MULTIPLE: one JSON read per key, in key order. */
  function ReadMany(e: Entries, keys: seq<string>): (r: seq<Json>)
    ensures |r| == |keys|
    ensures forall i :: 0 <= i < |keys| ==> r[i] == ReadJson(e, keys[i])
  {
    seq(|keys|, i requires 0 <= i < |keys| => ReadJson(e, keys[i]))
  }

  /** JSON.NUMINCRBY on an integer field of a document; None when the key, the document
    * or the field is missing or not an integer (the caller sees an exception). */
  function Incremented(e: Entries, k: string, path: string, amount: int): Option<int> {
    if k in e && e[k].Document? && e[k].doc.JObj? && path in e[k].doc.fields
       && e[k].doc.fields[path].JInt?
    then Some(e[k].doc.fields[path].i + amount)
    else None
  }

  /** The effect of one event on the cache; queries and reads change nothing. */
  function Step(e: Entries, ev: Event): Entries {
    match ev
    case CacheOp(StrSet(k, v)) => e[k := Scalar(Stored(v))]
    case CacheOp(JsonSet(k, v)) => e[k := Document(v)]
    case CacheOp(JsonSetNx(k, v)) => if k in e then e else e[k := Document(v)]
    case CacheOp(JsonNumIncrBy(k, path, amount)) =>
      var n := Incremented(e, k, path, amount);
      if n.Some? then e[k := Document(JObj(e[k].doc.fields[path := JInt(n.value)]))] else e
    case _ => e
  }

  /** The cache after a sequence of events, applied in order. */
  function Run(e: Entries, evs: seq<Event>): Entries
    decreases |evs|
  {
    if |evs| == 0 then e else Run(Step(e, evs[0]), evs[1..])
  }

  lemma {:induction false} RunAppend(e: Entries, a: seq<Event>, b: seq<Event>)
    ensures Run(e, a + b) == Run(Run(e, a), b)
    decreases |a|
  {
    if |a| > 0 {
      assert (a + b)[1..] == a[1..] + b;
      RunAppend(Step(e, a[0]), a[1..], b);
    } else {
      assert a + b == b;
    }
  }

  lemma RunOne(e: Entries, ev: Event)
    ensures Run(e, [ev]) == Step(e, ev)
  {
    assert [ev][1..] == [];
  }

  /** Running one more event after a run. */
  lemma RunSnoc(e: Entries, evs: seq<Event>, ev: Event)
    ensures Run(e, evs + [ev]) == Step(Run(e, evs), ev)
  {
    RunAppend(e, evs, [ev]);
    RunOne(Run(e, evs), ev);
  }

  /** Sequence concatenation regroups (a step traces of consecutive calls need). */
  lemma AppendAssoc<T>(a: seq<T>, b: seq<T>, c: seq<T>)
    ensures a + b + c == a + (b + c)
  {
  }

  /** The event changes a cache value (reads, expiries and queries do not). */
  predicate IsWrite(ev: Event) {
    ev.CacheOp? && (ev.call.StrSet? || ev.call.JsonSet? || ev.call.JsonSetNx? || ev.call.JsonNumIncrBy?)
  }

  predicate IsCacheCall(ev: Event) {
    ev.CacheOp?
  }

  predicate IsStoreCall(ev: Event) {
    ev.StoreQuery? || ev.BatchQuery? || ev.CountQuery?
  }

  /** A run of events with no value writes leaves the cache as it was. */
  lemma {:induction false} RunWithoutWrites(e: Entries, evs: seq<Event>)
    requires forall i :: 0 <= i < |evs| ==> !IsWrite(evs[i])
    ensures Run(e, evs) == e
    decreases |evs|
  {
    if |evs| > 0 {
      RunWithoutWrites(e, evs[1..]);
    }
  }

  /** The connection network: the cache's entries and the trace of every call. */
  class Network {
    var entries: Entries
    var trace: seq<Event>

    constructor (initial: Entries)
      ensures entries == initial && trace == []
    {
      entries := initial;
      trace := [];
    }

    method Get(k: string) returns (v: Json)
      modifies this`trace
      ensures v == ReadScalar(entries, k)
      ensures trace == old(trace) + [CacheOp(StrGet(k))]
    {
      v := ReadScalar(entries, k);
      trace := trace + [CacheOp(StrGet(k))];
    }

    method GetJson(k: string) returns (v: Json)
      modifies this`trace
      ensures v == ReadJson(entries, k)
      ensures trace == old(trace) + [CacheOp(JsonGet(k))]
    {
      v := ReadJson(entries, k);
      trace := trace + [CacheOp(JsonGet(k))];
    }

    method GetMultiple(keys: seq<string>) returns (vs: seq<Json>)
      modifies this`trace
      ensures vs == ReadMany(entries, keys)
      ensures trace == old(trace) + [CacheOp(JsonMGet(keys))]
    {
      vs := ReadMany(entries, keys);
      trace := trace + [CacheOp(JsonMGet(keys))];
    }

    /** Any call that writes or only records: the entries follow `Step`. */
    method Perform(ev: Event)
      requires !ev.CacheOp? || ev.call.StrSet? || ev.call.JsonSet? || ev.call.JsonSetNx? || ev.call.Expire?
      modifies this
      ensures entries == Step(old(entries), ev)
      ensures trace == old(trace) + [ev]
    {
      entries := Step(entries, ev);
      trace := trace + [ev];
    }

    method Increment(k: string, path: string, amount: int) returns (n: Option<int>)
      modifies this
      ensures n == Incremented(old(entries), k, path, amount)
      ensures entries == Step(old(entries), CacheOp(JsonNumIncrBy(k, path, amount)))
      ensures trace == old(trace) + [CacheOp(JsonNumIncrBy(k, path, amount))]
    {
      n := Incremented(entries, k, path, amount);
      entries := Step(entries, CacheOp(JsonNumIncrBy(k, path, amount)));
      trace := trace + [CacheOp(JsonNumIncrBy(k, path, amount))];
    }
  }
}
