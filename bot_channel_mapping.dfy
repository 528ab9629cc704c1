/** Which bot serves a channel configuration, and which bots a configuration serves. */
module BotChannelMapping {
  import opened Json
  import opened Cache
  import opened Handler

  /** The channel ids of `ChannelIdEnum` that have a bot lookup. */
  const Web := 1
  const FacebookMessenger := 3
  const Voiceweb := 7

  /** The three bot-id lookups, by page id, publish key and webhook key; None when
    * the store has no row for the key. */
  datatype MappingStore = MappingStore(
    messenger: string -> Option<int>,
    web: string -> Option<int>,
    voiceweb: string -> Option<int>)

  /** `GetBotChannelConfigurationMapping.get_data_from_sql`: the lookup chosen by the
    * channel id, giving `{bot_id}` when a row exists; None for a channel without a lookup. */
  function BotIdFromSql(st: MappingStore, channelId: int, configKey: string): (r: Option<int>)
    ensures channelId == FacebookMessenger ==> r == st.messenger(configKey)
    ensures channelId == Web ==> r == st.web(configKey)
    ensures channelId == Voiceweb ==> r == st.voiceweb(configKey)
    ensures channelId !in {Web, FacebookMessenger, Voiceweb} ==> r.None?
  {
    if channelId == FacebookMessenger then st.messenger(configKey)
    else if channelId == Web then st.web(configKey)
    else if channelId == Voiceweb then st.voiceweb(configKey)
    else None
  }

  /** `prepare_sync_payload`: `str(bot_id)`, or `''` for a falsy id. */
  function BotIdPayload(d: Option<int>): (p: Json)
    ensures p.JStr?
    ensures d.Some? && d.value != 0 ==> p == JStr(IntStr(d.value))
    ensures d.Some? && d.value == 0 ==> p == JStr("")
  {
    if d.Some? && d.value != 0 then JStr(IntStr(d.value)) else JStr("")
  }

  function BotIdArgs(channelId: int, configKey: string): Kwargs {
    map["channel_id" := Value(JInt(channelId)), "channel_configuration_key" := Value(JStr(configKey))]
  }

  /** Found when the dispatch returned `{bot_id}`; there is no search lookup. */
  function BotIdGetter(st: MappingStore): Getter<Option<int>> {
    Getter((kw: Kwargs) => BotIdFromSql(st, if Kw(kw, "channel_id").JInt? then Kw(kw, "channel_id").i else 0,
                                        if Kw(kw, "channel_configuration_key").JStr? then Kw(kw, "channel_configuration_key").s else ""),
           (d: Option<int>) => d.Some?, EmptySearch(), (d: Option<int>, es: Json, kw: Kwargs) => BotIdPayload(d))
  }

  lemma BotIdArgsRead(st: MappingStore, channelId: int, configKey: string)
    ensures BotIdGetter(st).fromSql(BotIdArgs(channelId, configKey)) == BotIdFromSql(st, channelId, configKey)
  {
    assert Kw(BotIdArgs(channelId, configKey), "channel_id") == JInt(channelId);
    assert Kw(BotIdArgs(channelId, configKey), "channel_configuration_key") == JStr(configKey);
  }

  /** A channel without a lookup, or a key without a row: `{}` and no write. */
  lemma UnmappedNotCached(st: MappingStore, key: string, channelId: int, configKey: string)
    requires BotIdFromSql(st, channelId, configKey).None?
    ensures SyncSpec(BotIdGetter(st), key, BotIdArgs(channelId, configKey)).result == Empty
    ensures |SyncSpec(BotIdGetter(st), key, BotIdArgs(channelId, configKey)).events| == 2
  {
    BotIdArgsRead(st, channelId, configKey);
  }

  /** A mapped non-zero bot id is written with SET as its decimal string and served
    * from the cache by the next call. */
  lemma {:induction false} BotIdCached(e: Entries, st: MappingStore, key: string, channelId: int, configKey: string)
    requires !Truthy(ReadScalar(e, key))
    requires var d := BotIdFromSql(st, channelId, configKey); d.Some? && d.value != 0
    ensures var first := ReadThroughSpec(e, StringRead, key, BotIdGetter(st), BotIdArgs(channelId, configKey));
      first.result == JStr(IntStr(BotIdFromSql(st, channelId, configKey).value))
      && ReadThroughSpec(Run(e, first.events), StringRead, key, BotIdGetter(st), BotIdArgs(channelId, configKey))
         == Sync(first.result, [CacheOp(StrGet(key))])
  {
    BotIdArgsRead(st, channelId, configKey);
    var p := BotIdPayload(BotIdFromSql(st, channelId, configKey));
    IntStrSign(BotIdFromSql(st, channelId, configKey).value);
    assert Truthy(p);
    ReadThroughFillThenHit(e, StringRead, key, BotIdGetter(st), BotIdArgs(channelId, configKey));
  }

  /** A mapped bot id of 0 is cached as `''`, which the next GET treats as a miss. */
  lemma {:induction false} ZeroBotIdAlwaysRefetched(e: Entries, st: MappingStore, key: string, channelId: int, configKey: string)
    requires !Truthy(ReadScalar(e, key))
    requires BotIdFromSql(st, channelId, configKey) == Some(0)
    ensures var first := ReadThroughSpec(e, StringRead, key, BotIdGetter(st), BotIdArgs(channelId, configKey));
      first.result == JStr("") && !Truthy(ReadScalar(Run(e, first.events), key))
  {
    BotIdArgsRead(st, channelId, configKey);
    ReadThroughNeverHits(e, StringRead, key, BotIdGetter(st), BotIdArgs(channelId, configKey));
  }

  /** `ManageBotChannelConfigurationMapping.get_bot_channel_configuration_mapping`:
    * GET on CHANNEL_CONFIGURATIONS_BOT_MAPPING(key), filled on a miss. */
  method GetBotChannelConfigurationMapping(net: Network, st: MappingStore, template: KeyTemplate,
                                           configKey: string, channelId: int) returns (r: Json)
    modifies net
    ensures var spec := ReadThroughSpec(old(net.entries), StringRead, Key(template, configKey), BotIdGetter(st), BotIdArgs(channelId, configKey));
      r == spec.result && net.trace == old(net.trace) + spec.events && net.entries == Run(old(net.entries), spec.events)
  {
    r := ReadThrough(net, StringRead, Key(template, configKey), BotIdGetter(st), BotIdArgs(channelId, configKey));
  }

  /** A bot configured on a channel configuration. */
  datatype ConfiguredBot = ConfiguredBot(botId: int, accountId: int, configIdentity: Option<string>)

  /** `str()` of a column that may be NULL. */
  function OptStr(o: Option<string>): string {
    if o.Some? then o.value else "None"
  }

  /** `GetBotsChannelConfigurationMapping.prepare_sync_payload`: the configuration key,
    * every bot id as a string in row order, and the account id and config identity
    * of the first bot, or None for both when no bot is configured. */
  function BotsPayload(configKey: string, bots: seq<ConfiguredBot>): (p: Json)
    ensures p.JObj? && p.fields.Keys == {"channel_configuration_key", "bots", "account_id", "config_identity"}
    ensures p.fields["channel_configuration_key"] == JStr(configKey)
    ensures p.fields["bots"].JList? && |p.fields["bots"].items| == |bots|
    ensures forall i :: 0 <= i < |bots| ==> p.fields["bots"].items[i] == JStr(IntStr(bots[i].botId))
    ensures |bots| > 0 ==> (p.fields["account_id"] == JStr(IntStr(bots[0].accountId))
      && p.fields["config_identity"] == JStr(OptStr(bots[0].configIdentity)))
    ensures |bots| == 0 ==> p.fields["account_id"] == JNull && p.fields["config_identity"] == JNull
  {
    JObj(map[
      "channel_configuration_key" := JStr(configKey),
      "bots" := JList(seq(|bots|, i requires 0 <= i < |bots| => JStr(IntStr(bots[i].botId)))),
      "account_id" := if |bots| > 0 then JStr(IntStr(bots[0].accountId)) else JNull,
      "config_identity" := if |bots| > 0 then JStr(OptStr(bots[0].configIdentity)) else JNull])
  }

  /** The store result `{bots, channel_configuration_key}` is always truthy, whatever the bots. */
  function BotsGetter(configured: string -> seq<ConfiguredBot>): Getter<(string, seq<ConfiguredBot>)> {
    Getter((kw: Kwargs) => var k := if Kw(kw, "channel_configuration_key").JStr? then Kw(kw, "channel_configuration_key").s else "";
                           (k, configured(k)),
           (d: (string, seq<ConfiguredBot>)) => true, EmptySearch(),
           (d: (string, seq<ConfiguredBot>), es: Json, kw: Kwargs) => BotsPayload(d.0, d.1))
  }

  function BotsArgs(configKey: string): Kwargs {
    map["channel_configuration_key" := Value(JStr(configKey))]
  }

  /** The first miss always caches the payload, even for a configuration with no bot,
    * and the next call is served from the cache with no store call. */
  lemma {:induction false} BotsAlwaysCached(e: Entries, configured: string -> seq<ConfiguredBot>, key: string, configKey: string)
    requires !Truthy(ReadJson(e, key))
    ensures var first := ReadThroughSpec(e, JsonRead, key, BotsGetter(configured), BotsArgs(configKey));
      first.result == BotsPayload(configKey, configured(configKey))
      && ReadThroughSpec(Run(e, first.events), JsonRead, key, BotsGetter(configured), BotsArgs(configKey))
         == Sync(first.result, [CacheOp(JsonGet(key))])
  {
    assert Kw(BotsArgs(configKey), "channel_configuration_key") == JStr(configKey);
    var p := BotsPayload(configKey, configured(configKey));
    assert "bots" in p.fields;
    ReadThroughFillThenHit(e, JsonRead, key, BotsGetter(configured), BotsArgs(configKey));
  }

  /** `ManageBotsChannelConfigurationMapping.get_bots_channel_configuration_mapping`:
    * GET_JSON on BOTS_CHANNEL_CONFIGURATIONS_MAPPING(key), filled on a miss. */
  method GetBotsChannelConfigurationMapping(net: Network, configured: string -> seq<ConfiguredBot>,
                                            template: KeyTemplate, configKey: string) returns (r: Json)
    modifies net
    ensures var spec := ReadThroughSpec(old(net.entries), JsonRead, Key(template, configKey), BotsGetter(configured), BotsArgs(configKey));
      r == spec.result && net.trace == old(net.trace) + spec.events && net.entries == Run(old(net.entries), spec.events)
  {
    r := ReadThrough(net, JsonRead, Key(template, configKey), BotsGetter(configured), BotsArgs(configKey));
  }
}
