/** A channel configuration, cached per configuration id. */
module ChannelConfiguration {
  import opened Json
  import opened Cache
  import opened Handler

  /** `GetChannelConfiguration.get_data_from_sql`: always `{"channel_configurations": ...}`,
    * holding the row's columns, or `{}` when there is no such configuration. */
  function ConfigFromSql(config: Json -> Option<map<string, Json>>, id: Json): (d: Json)
    ensures Truthy(d)
    ensures config(id).Some? ==> d == JObj(map["channel_configurations" := JObj(config(id).value)])
    ensures config(id).None? ==> d == JObj(map["channel_configurations" := Empty])
  {
    var columns := if config(id).Some? then JObj(config(id).value) else Empty;
    JObj(map["channel_configurations" := columns])
  }

  /** The store result is always truthy, the search lookup gives `{}`, and the payload
    * is `data.get("channel_configurations", {})`. */
  function ConfigGetter(config: Json -> Option<map<string, Json>>): Getter<Json> {
    Getter((kw: Kwargs) => ConfigFromSql(config, Kw(kw, "channel_configuration_id")), (d: Json) => Truthy(d),
           EmptySearch(), (d: Json, es: Json, kw: Kwargs) => GetOr(d, "channel_configurations", Empty))
  }

  function ConfigArgs(id: int): Kwargs {
    map["channel_configuration_id" := Value(JInt(id))]
  }

  /** Every miss runs a fill and writes the configuration, or `{}` for an unknown id. */
  lemma MissAlwaysWrites(e: Entries, key: string, config: Json -> Option<map<string, Json>>, id: int)
    requires !Truthy(ReadJson(e, key))
    ensures var s := ReadThroughSpec(e, JsonRead, key, ConfigGetter(config), ConfigArgs(id));
      var expected := if config(JInt(id)).Some? then JObj(config(JInt(id)).value) else Empty;
      s.result == expected && s.events[3] == CacheOp(JsonSet(key, expected))
  {
    assert Kw(ConfigArgs(id), "channel_configuration_id") == JInt(id);
    SyncFound(ConfigGetter(config), key, ConfigArgs(id));
  }

  /** An unknown configuration is cached as `{}`, which the next read treats as a miss:
    * every call for it goes back to the store. */
  lemma UnknownConfigAlwaysRefetched(e: Entries, key: string, config: Json -> Option<map<string, Json>>, id: int)
    requires !Truthy(ReadJson(e, key))
    requires config(JInt(id)).None?
    ensures var first := ReadThroughSpec(e, JsonRead, key, ConfigGetter(config), ConfigArgs(id));
      first.result == Empty && !Truthy(ReadJson(Run(e, first.events), key))
  {
    assert Kw(ConfigArgs(id), "channel_configuration_id") == JInt(id);
    ReadThroughNeverHits(e, JsonRead, key, ConfigGetter(config), ConfigArgs(id));
  }

  /** `ManageChannelConfiguration.get_channel_configuration`: GET_JSON on
    * CHANNEL_CONFIGURATION(id), filled on a miss. */
  method GetChannelConfiguration(net: Network, config: Json -> Option<map<string, Json>>,
                                 template: KeyTemplate, id: int) returns (r: Json)
    modifies net
    ensures var spec := ReadThroughSpec(old(net.entries), JsonRead, Key(template, IntStr(id)), ConfigGetter(config), ConfigArgs(id));
      r == spec.result && net.trace == old(net.trace) + spec.events && net.entries == Run(old(net.entries), spec.events)
  {
    r := ReadThrough(net, JsonRead, Key(template, IntStr(id)), ConfigGetter(config), ConfigArgs(id));
  }
}
