/** The key-to-id lookups (account key to account id, publish key to bot id): a scalar
  * GET whose hit is converted with `int()`, and whose miss returns the sync result
  * unconverted. */
module KeyMapping {
  import opened Json
  import opened Cache
  import opened Handler

  /** The Getter of such a lookup: the id the store maps the key to when truthy, None
    * otherwise; no search lookup; the payload is the id itself. */
  function IdGetter(idOf: Json -> Json, argName: string): Getter<Json> {
    Getter((kw: Kwargs) => var a := idOf(Kw(kw, argName)); if Truthy(a) then a else JNull,
           (d: Json) => Truthy(d), EmptySearch(), (d: Json, es: Json, kw: Kwargs) => d)
  }

  function LookupArgs(argName: string, keyValue: Json): Kwargs {
    map[argName := Value(keyValue)]
  }

  /** The lookup's result: a truthy cached value converted with `int()` (a failed
    * conversion is the ValueError), otherwise the unconverted sync result. */
  function IdFromKeySpec(e: Entries, key: string, idOf: Json -> Json, argName: string, keyValue: Json): (r: Result<Json>)
    ensures Truthy(ReadScalar(e, key)) ==> (r.Ok? <==> ToInt(ReadScalar(e, key)).Ok?)
    ensures Truthy(ReadScalar(e, key)) && r.Ok? ==> r.value == JInt(ToInt(ReadScalar(e, key)).value)
    ensures !Truthy(ReadScalar(e, key)) ==> r == Ok(SyncSpec(IdGetter(idOf, argName), key, LookupArgs(argName, keyValue)).result)
  {
    var cached := ReadScalar(e, key);
    if Truthy(cached) then
      match ToInt(cached)
      case Ok(n) => Ok(JInt(n))
      case Failure(err) => Failure(err)
    else Ok(SyncSpec(IdGetter(idOf, argName), key, LookupArgs(argName, keyValue)).result)
  }

  /** A key the store does not map is answered `{}` on every call and nothing is written. */
  lemma UnknownKeyNotCached(e: Entries, key: string, idOf: Json -> Json, argName: string, keyValue: Json)
    requires !Truthy(ReadScalar(e, key)) && !Truthy(idOf(keyValue))
    ensures IdFromKeySpec(e, key, idOf, argName, keyValue) == Ok(Empty)
    ensures SyncSpec(IdGetter(idOf, argName), key, LookupArgs(argName, keyValue)).events
      == [StoreQuery(LookupArgs(argName, keyValue)), SearchQuery(LookupArgs(argName, keyValue))]
  {
    assert Kw(LookupArgs(argName, keyValue), argName) == keyValue;
  }

  /** A non-zero integer id is returned as itself both on the miss that caches it and
    * on every later hit, which reads back its decimal text and converts it. */
  lemma {:induction false} IntIdStable(e: Entries, key: string, idOf: Json -> Json, argName: string, keyValue: Json, n: int)
    requires !Truthy(ReadScalar(e, key))
    requires idOf(keyValue) == JInt(n) && n != 0
    ensures var s := SyncSpec(IdGetter(idOf, argName), key, LookupArgs(argName, keyValue));
      IdFromKeySpec(e, key, idOf, argName, keyValue) == Ok(JInt(n))
      && IdFromKeySpec(Run(e, s.events), key, idOf, argName, keyValue) == Ok(JInt(n))
  {
    assert Kw(LookupArgs(argName, keyValue), argName) == keyValue;
    IntStrSign(n);
    SyncReadBack(e, IdGetter(idOf, argName), key, LookupArgs(argName, keyValue));
    ParseIntStr(n);
  }

  /** An id the store holds as a decimal string is returned as that string on the miss
    * that caches it, and as an int on every later hit. */
  lemma {:induction false} StringIdChangesTypeOnHit(e: Entries, key: string, idOf: Json -> Json, argName: string,
                                                     keyValue: Json, n: int)
    requires !Truthy(ReadScalar(e, key))
    requires idOf(keyValue) == JStr(IntStr(n))
    ensures var s := SyncSpec(IdGetter(idOf, argName), key, LookupArgs(argName, keyValue));
      IdFromKeySpec(e, key, idOf, argName, keyValue) == Ok(JStr(IntStr(n)))
      && IdFromKeySpec(Run(e, s.events), key, idOf, argName, keyValue) == Ok(JInt(n))
  {
    assert Kw(LookupArgs(argName, keyValue), argName) == keyValue;
    IntStrSign(n);
    SyncReadBack(e, IdGetter(idOf, argName), key, LookupArgs(argName, keyValue));
    ParseIntStr(n);
  }

  /** The lookup itself: GET on the mapping key, `int()` on a hit, `sync_data` on a miss. */
  method GetIdByKey(net: Network, idOf: Json -> Json, argName: string, key: string, keyValue: Json)
    returns (r: Result<Json>)
    modifies net
    ensures r == IdFromKeySpec(old(net.entries), key, idOf, argName, keyValue)
    ensures var s := SyncSpec(IdGetter(idOf, argName), key, LookupArgs(argName, keyValue));
      var events := if Truthy(ReadScalar(old(net.entries), key)) then [] else s.events;
      net.trace == old(net.trace) + [CacheOp(StrGet(key))] + events
      && net.entries == Run(old(net.entries), events)
  {
    ghost var e0 := net.entries;
    var data := net.Get(key);
    if Truthy(data) {
      var n := ToInt(data);
      r := if n.Ok? then Ok(JInt(n.value)) else Failure(n.error);
      assert Run(e0, []) == e0;
    } else {
      var synced := SyncData(net, IdGetter(idOf, argName), key, LookupArgs(argName, keyValue));
      r := Ok(synced);
    }
  }
}
