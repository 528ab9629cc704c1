/** The managed authentication of a channel provider, cached under the caller's key. */
module ProviderAuth {
  import opened Json
  import opened Cache
  import opened Handler

  /** `get_twilio_managed_auth` ends its query in `.one()`: no row for the provider raises
    * NoResultFound, more than one raises MultipleResultsFound. `rows(provider_name)` is
    * the `auth` column of every matching row. */
  function OneError(rows: seq<Json>): (r: Option<string>)
    ensures r.None? <==> |rows| == 1
  {
    if |rows| == 0 then Some("NoResultFound")
    else if |rows| > 1 then Some("MultipleResultsFound")
    else None
  }

  /** `GetProviderManagedAuth`: the store returns the provider's one row, whose `auth`
    * column is the payload; the row itself is always truthy; there is no search
    * override. */
  function ProviderGetter(rows: Json -> seq<Json>): Getter<Json> {
    Getter((kw: Kwargs) => var rs := rows(Kw(kw, "provider_name")); if |rs| == 1 then rs[0] else JNull,
           (d: Json) => true, NoSearch(), (d: Json, es: Json, kw: Kwargs) => d)
  }

  /** The same Getter with the exceptions of `.one()`; the shaper never raises. */
  function ProviderRaising(rows: Json -> seq<Json>): Raising<Json> {
    Raising(ProviderGetter(rows), (kw: Kwargs) => OneError(rows(Kw(kw, "provider_name"))),
            (d: Json, es: Json, kw: Kwargs) => None)
  }

  function ProviderArgs(providerName: Json): Kwargs {
    map["provider_name" := Value(providerName)]
  }

  /** `ManageProviderAuthDetails.get_provider_auth_details`: the read-through result,
    * with a falsy one replaced by `{}`; on a miss, a provider without exactly one row
    * raises. */
  function AuthDetailsSpec(e: Entries, key: string, rows: Json -> seq<Json>, providerName: Json): (r: Result<Json>)
    ensures Truthy(ReadJson(e, key)) ==> r == Ok(ReadJson(e, key))
    ensures !Truthy(ReadJson(e, key)) && |rows(providerName)| == 0 ==> r == Failure("NoResultFound")
    ensures !Truthy(ReadJson(e, key)) && |rows(providerName)| > 1 ==> r == Failure("MultipleResultsFound")
    ensures !Truthy(ReadJson(e, key)) && |rows(providerName)| == 1 && Truthy(rows(providerName)[0])
            ==> r == Ok(rows(providerName)[0])
    ensures !Truthy(ReadJson(e, key)) && |rows(providerName)| == 1 && !Truthy(rows(providerName)[0])
            ==> r == Ok(Empty)
  {
    var o := ReadThroughOutcome(e, JsonRead, key, ProviderRaising(rows), ProviderArgs(providerName));
    assert Kw(ProviderArgs(providerName), "provider_name") == providerName;
    match o.result
    case Ok(a) => Ok(if Truthy(a) then a else Empty)
    case Failure(err) => Failure(err)
  }

  /** A provider with no row raises NoResultFound on a miss, and the call writes nothing,
    * so the next call misses and raises again. */
  lemma {:induction false} UnknownProviderRaises(e: Entries, key: string, rows: Json -> seq<Json>, providerName: Json)
    requires !Truthy(ReadJson(e, key)) && |rows(providerName)| == 0
    ensures var o := ReadThroughOutcome(e, JsonRead, key, ProviderRaising(rows), ProviderArgs(providerName));
      o.result == Failure("NoResultFound") && Run(e, o.events) == e
  {
    assert Kw(ProviderArgs(providerName), "provider_name") == providerName;
    ReadThroughRaises(e, JsonRead, key, ProviderRaising(rows), ProviderArgs(providerName));
  }

  /** On a miss the provider's auth is always written to the cache, even when it is falsy;
    * a falsy auth, or one stored as a string, is not found again by the next GET_JSON,
    * so every later call reads the store again. */
  lemma UnusableAuthAlwaysRefetched(e: Entries, key: string, rows: Json -> seq<Json>, providerName: Json)
    requires !Truthy(ReadJson(e, key)) && |rows(providerName)| == 1
    requires !Truthy(rows(providerName)[0]) || IsScalar(rows(providerName)[0])
    ensures var first := ReadThroughSpec(e, JsonRead, key, ProviderGetter(rows), ProviderArgs(providerName));
      !Truthy(ReadJson(Run(e, first.events), key))
  {
    assert Kw(ProviderArgs(providerName), "provider_name") == providerName;
    ReadThroughNeverHits(e, JsonRead, key, ProviderGetter(rows), ProviderArgs(providerName));
  }

  /** A truthy document auth is served from the cache by the next call. */
  lemma DocumentAuthCached(e: Entries, key: string, rows: Json -> seq<Json>, providerName: Json)
    requires !Truthy(ReadJson(e, key)) && |rows(providerName)| == 1
    requires Truthy(rows(providerName)[0]) && !IsScalar(rows(providerName)[0])
    ensures var first := ReadThroughSpec(e, JsonRead, key, ProviderGetter(rows), ProviderArgs(providerName));
      ReadJson(Run(e, first.events), key) == rows(providerName)[0]
  {
    assert Kw(ProviderArgs(providerName), "provider_name") == providerName;
    ReadThroughFillThenHit(e, JsonRead, key, ProviderGetter(rows), ProviderArgs(providerName));
  }

  method GetProviderAuthDetails(net: Network, rows: Json -> seq<Json>, key: string, providerName: Json)
    returns (r: Result<Json>)
    modifies net
    ensures r == AuthDetailsSpec(old(net.entries), key, rows, providerName)
    ensures var o := ReadThroughOutcome(old(net.entries), JsonRead, key, ProviderRaising(rows), ProviderArgs(providerName));
      net.trace == old(net.trace) + o.events && net.entries == Run(old(net.entries), o.events)
  {
    var a := ReadThroughRaising(net, JsonRead, key, ProviderRaising(rows), ProviderArgs(providerName));
    match a
    case Ok(v) => r := Ok(if Truthy(v) then v else Empty);
    case Failure(err) => r := Failure(err);
  }
}
