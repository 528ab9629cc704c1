/** Bots: the bot-details and bot-flow read-throughs, the multi-bot trigger-rules batch
  * fill, the bot versions and the publish-key to bot id mapping. */
module Bot {
  import opened Json
  import opened Cache
  import opened Handler
  import opened Batch
  import opened KeyMapping
  import BotChannelMapping

  /** The columns of a bot row that `prepare_sync_payload` copies under their own names. */
  const BotCopiedColumns: set<string> := {
    "preview_key", "publish_key", "account_key", "account_id", "is_active", "is_deleted", "language",
    "response_spreadsheet_id", "bot_title", "type", "outbound_type", "channel_configuration_id", "created_by",
    "sheet_id", "spreadsheet_id", "trigger_variables", "campaign_details"}

  /** The keys `prepare_sync_payload` computes, renames or formats. */
  const BotComputedKeys: set<string> := {
    "bot_lead_id", "latest_publish_version_id", "latest_preview_version_id", "channel_id",
    "created_by_name", "created_at", "channel_configurations"}

  /** The values of the copied columns, one per column. */
  type BotCopiedValues = m: map<string, Json> | m.Keys == BotCopiedColumns
    witness map k | k in BotCopiedColumns :: JNull

  /** A bot details row: the fields the payload builder reads, renames or formats, and
    * the columns it copies unchanged. Any other column of the row, such as the
    * creator's names, reaches the payload only through `created_by_name`. */
  datatype BotRecord = BotRecord(botId: Json, channelId: int, firstName: Option<string>, lastName: Option<string>,
                                 versionId: Json, previewVersionId: Json, createdAt: Json, copied: BotCopiedValues)

  /** One trigger-rules row of the batched query. */
  datatype TriggerRow = TriggerRow(botId: int, triggerRules: Json)

  /** The store as the bot Getters see it. */
  datatype BotStore = BotStore(
    details: Json -> Option<BotRecord>,
    messengerConfig: Json -> Option<map<string, Json>>,
    dialog: Json -> Option<Json>,
    triggerRules: seq<Json> -> seq<TriggerRow>)

  /** `get_channel_configurations`: the Messenger configuration row as a dict for a
    * Facebook Messenger bot that has one; `{}` for every other case. */
  function ChannelConfigurations(messengerConfig: Json -> Option<map<string, Json>>, channelId: int, botId: Json)
    : (c: map<string, Json>)
    ensures channelId != BotChannelMapping.FacebookMessenger ==> c == map[]
    ensures channelId == BotChannelMapping.FacebookMessenger && messengerConfig(botId).None? ==> c == map[]
    ensures channelId == BotChannelMapping.FacebookMessenger && messengerConfig(botId).Some? ==> c == messengerConfig(botId).value
  {
    if channelId == BotChannelMapping.FacebookMessenger && messengerConfig(botId).Some? then messengerConfig(botId).value
    else map[]
  }

  /** `created_by_name`: `'{} {}'.format(first, last)`. */
  function CreatedByName(first: Option<string>, last: Option<string>): string {
    OrEmpty(first) + " " + OrEmpty(last)
  }

  /** The name splits back at the separator into the first and last names, and is a
    * single space when both are missing. */
  lemma CreatedByNameParts(first: Option<string>, last: Option<string>)
    ensures var n := CreatedByName(first, last);
      |n| == |OrEmpty(first)| + 1 + |OrEmpty(last)|
      && n[..|OrEmpty(first)|] == OrEmpty(first)
      && n[|OrEmpty(first)|] == ' '
      && n[|OrEmpty(first)| + 1..] == OrEmpty(last)
    ensures first.None? && last.None? ==> CreatedByName(first, last) == " "
  {
    var n := CreatedByName(first, last);
    assert n[..|OrEmpty(first)|] == OrEmpty(first);
    assert n[|OrEmpty(first)| + 1..] == OrEmpty(last);
  }

  /** What `GetBotDetails.get_data_from_sql` returns when the bot exists. */
  datatype BotData = BotData(record: BotRecord, configurations: map<string, Json>)

  /** `GetBotDetails.get_data_from_sql`: the bot row and its channel configurations;
    * None when the bot does not exist. */
  function BotFromSql(st: BotStore, botId: Json): (r: Option<BotData>)
    ensures r.None? <==> st.details(botId).None?
    ensures r.Some? ==> (r.value.record == st.details(botId).value
      && r.value.configurations == ChannelConfigurations(st.messengerConfig, r.value.record.channelId, botId))
  {
    match st.details(botId)
    case None => None
    case Some(rec) => Some(BotData(rec, ChannelConfigurations(st.messengerConfig, rec.channelId, botId)))
  }

  /** The dict `prepare_sync_payload` builds from a bot row; `str` is Python's `str()`
    * of the `created_at` value. */
  function BotMap(d: BotData, str: Json -> string): map<string, Json> {
    var rec := d.record;
    rec.copied["bot_lead_id" := rec.botId]["latest_publish_version_id" := rec.versionId]
      ["latest_preview_version_id" := rec.previewVersionId]["channel_id" := JInt(rec.channelId)]
      ["created_by_name" := JStr(CreatedByName(rec.firstName, rec.lastName))]
      ["created_at" := JStr(str(rec.createdAt))]["channel_configurations" := JObj(d.configurations)]
  }

  /** The dict has exactly the copied and the computed keys. */
  lemma BotMapKeys(d: BotData, str: Json -> string)
    ensures BotMap(d, str).Keys == BotCopiedColumns + BotComputedKeys
  {
  }

  /** No copied column is one of the computed keys. */
  lemma BotCopiedNotComputed(k: string)
    requires k in BotCopiedColumns
    ensures k !in BotComputedKeys
  {
  }

  /** The copied columns keep their values. */
  lemma BotMapCopied(d: BotData, str: Json -> string, k: string)
    requires k in BotCopiedColumns
    ensures k in BotMap(d, str) && BotMap(d, str)[k] == d.record.copied[k]
  {
    BotCopiedNotComputed(k);
  }

  /** The computed keys hold the id, the renamed version ids, the channel, the
    * creator's name, the formatted `created_at` and the configurations. */
  lemma BotMapComputed(d: BotData, str: Json -> string)
    ensures var p, rec := BotMap(d, str), d.record;
      p["bot_lead_id"] == rec.botId && p["latest_publish_version_id"] == rec.versionId
      && p["latest_preview_version_id"] == rec.previewVersionId && p["channel_id"] == JInt(rec.channelId)
      && p["created_by_name"] == JStr(CreatedByName(rec.firstName, rec.lastName))
      && p["created_at"] == JStr(str(rec.createdAt)) && p["channel_configurations"] == JObj(d.configurations)
  {
  }

  /** `GetBotDetails.prepare_sync_payload`. */
  function BotPayload(d: Option<BotData>, str: Json -> string): (p: Json)
    ensures d.Some? ==> p.JObj? && Truthy(p)
  {
    if d.None? then JNull
    else
      BotMapKeys(d.value, str);
      JObj(BotMap(d.value, str))
  }

  /** The bot payload has exactly the 24 keys of `prepare_sync_payload`: the copied
    * columns unchanged, `bot_id` as `bot_lead_id`, `version_id` and
    * `preview_version_id` under their `latest_` names, the channel, the creator's
    * name, `str()` of `created_at`, and the channel configurations. */
  lemma BotPayloadFields(d: BotData, str: Json -> string)
    ensures var p := BotPayload(Some(d), str);
      p.fields.Keys == BotCopiedColumns + BotComputedKeys
      && (forall k :: k in BotCopiedColumns ==> p.fields[k] == d.record.copied[k])
      && p.fields["bot_lead_id"] == d.record.botId
      && p.fields["latest_publish_version_id"] == d.record.versionId
      && p.fields["latest_preview_version_id"] == d.record.previewVersionId
      && p.fields["channel_id"] == JInt(d.record.channelId)
      && p.fields["created_by_name"] == JStr(CreatedByName(d.record.firstName, d.record.lastName))
      && p.fields["created_at"] == JStr(str(d.record.createdAt))
      && p.fields["channel_configurations"] == JObj(d.configurations)
  {
    BotMapKeys(d, str);
    BotMapComputed(d, str);
    forall k | k in BotCopiedColumns
      ensures BotMap(d, str)[k] == d.record.copied[k]
    {
      BotMapCopied(d, str, k);
    }
  }

  function BotGetter(st: BotStore, str: Json -> string): Getter<Option<BotData>> {
    Getter((kw: Kwargs) => BotFromSql(st, Kw(kw, "bot_id")), (d: Option<BotData>) => d.Some?,
           EmptySearch(), (d: Option<BotData>, es: Json, kw: Kwargs) => BotPayload(d, str))
  }

  function BotArgs(botId: int): Kwargs {
    map["bot_id" := Value(JInt(botId))]
  }

  /** An existing bot is cached as a document by the first miss and served from the
    * cache on the next call; a missing bot gives `{}` and writes nothing. */
  lemma BotCached(e: Entries, st: BotStore, str: Json -> string, key: string, botId: int)
    requires !Truthy(ReadJson(e, key))
    ensures var first := ReadThroughSpec(e, JsonRead, key, BotGetter(st, str), BotArgs(botId));
      (st.details(JInt(botId)).None? ==> first.result == Empty && Run(e, first.events) == e)
      && (st.details(JInt(botId)).Some? ==>
            first.result == BotPayload(BotFromSql(st, JInt(botId)), str)
            && ReadThroughSpec(Run(e, first.events), JsonRead, key, BotGetter(st, str), BotArgs(botId))
               == Sync(first.result, [CacheOp(JsonGet(key))]))
  {
    assert Kw(BotArgs(botId), "bot_id") == JInt(botId);
    var first := ReadThroughSpec(e, JsonRead, key, BotGetter(st, str), BotArgs(botId));
    if st.details(JInt(botId)).None? {
      assert first.events == [CacheOp(JsonGet(key)), StoreQuery(BotArgs(botId)), SearchQuery(BotArgs(botId))];
      RunWithoutWrites(e, first.events);
    } else {
      ReadThroughFillThenHit(e, JsonRead, key, BotGetter(st, str), BotArgs(botId));
    }
  }

  /** `ManageBot.get_bot_details`: GET_JSON on BOT_DATA(bot_id), filled on a miss. */
  method GetBotDetails(net: Network, st: BotStore, str: Json -> string, botData: KeyTemplate, botId: int) returns (r: Json)
    modifies net
    ensures var spec := ReadThroughSpec(old(net.entries), JsonRead, Key(botData, IntStr(botId)), BotGetter(st, str), BotArgs(botId));
      r == spec.result && net.trace == old(net.trace) + spec.events && net.entries == Run(old(net.entries), spec.events)
  {
    r := ReadThrough(net, JsonRead, Key(botData, IntStr(botId)), BotGetter(st, str), BotArgs(botId));
  }

  /** `GetBotFlowDetails`: the version's conversation dialog row; the payload is its
    * `conversation_dialog` value. */
  function BotFlowGetter(st: BotStore): Getter<Option<Json>> {
    Getter((kw: Kwargs) => st.dialog(Kw(kw, "version_id")), (d: Option<Json>) => d.Some?,
           EmptySearch(), (d: Option<Json>, es: Json, kw: Kwargs) => if d.Some? then d.value else JNull)
  }

  function VersionArgs(versionId: int): Kwargs {
    map["version_id" := Value(JInt(versionId))]
  }

  /** A version's dialog is written on every miss; it is found again only when it is a
    * truthy document: a falsy dialog, or one held as a string (written with SET, read
    * with GET_JSON), sends every call back to the store. */
  lemma BotFlowCaching(e: Entries, st: BotStore, key: string, versionId: int)
    requires !Truthy(ReadJson(e, key)) && st.dialog(JInt(versionId)).Some?
    ensures var first := ReadThroughSpec(e, JsonRead, key, BotFlowGetter(st), VersionArgs(versionId));
      var dialog := st.dialog(JInt(versionId)).value;
      first.result == dialog
      && (Truthy(dialog) && !IsScalar(dialog) ==>
            ReadThroughSpec(Run(e, first.events), JsonRead, key, BotFlowGetter(st), VersionArgs(versionId))
            == Sync(dialog, [CacheOp(JsonGet(key))]))
      && (!Truthy(dialog) || IsScalar(dialog) ==> !Truthy(ReadJson(Run(e, first.events), key)))
  {
    assert Kw(VersionArgs(versionId), "version_id") == JInt(versionId);
    var dialog := st.dialog(JInt(versionId)).value;
    if Truthy(dialog) && !IsScalar(dialog) {
      ReadThroughFillThenHit(e, JsonRead, key, BotFlowGetter(st), VersionArgs(versionId));
    } else {
      ReadThroughNeverHits(e, JsonRead, key, BotFlowGetter(st), VersionArgs(versionId));
    }
  }

  /** `ManageBot.get_bot_flow_details`: GET_JSON on BOT_FLOW(version_id), filled on a miss. */
  method GetBotFlowDetails(net: Network, st: BotStore, botFlow: KeyTemplate, versionId: int) returns (r: Json)
    modifies net
    ensures var spec := ReadThroughSpec(old(net.entries), JsonRead, Key(botFlow, IntStr(versionId)), BotFlowGetter(st), VersionArgs(versionId));
      r == spec.result && net.trace == old(net.trace) + spec.events && net.entries == Run(old(net.entries), spec.events)
  {
    r := ReadThrough(net, JsonRead, Key(botFlow, IntStr(versionId)), BotFlowGetter(st), VersionArgs(versionId));
  }

  function BotIdArgs(ids: seq<int>): seq<Json> {
    MapSeq(ids, (i: int) => JInt(i))
  }

  function HasRules(r: TriggerRow): bool {
    Truthy(r.triggerRules)
  }

  function RulesOf(r: TriggerRow): Json {
    r.triggerRules
  }

  function RulesBotKey(r: TriggerRow): string {
    IntStr(r.botId)
  }

  function RulesCacheKey(triggerRules: KeyTemplate): TriggerRow -> string {
    (r: TriggerRow) => Key(triggerRules, IntStr(r.botId))
  }

  /** `handle_missing_bot_trigger_rules`' result: the truthy rules of the fetched rows,
    * by `str(bot_id)`, a later row winning. */
  function MissingRules(st: BotStore, missing: seq<int>): (m: map<string, Json>)
    ensures missing == [] ==> m == map[]
  {
    if |missing| == 0 then map[] else Assign(Keep(st.triggerRules(BotIdArgs(missing)), HasRules), RulesBotKey, RulesOf)
  }

  /** Only truthy rules are returned, each the rules of a fetched row of that bot. */
  lemma MissingRulesTruthy(st: BotStore, missing: seq<int>, k: string)
    requires k in MissingRules(st, missing)
    ensures Truthy(MissingRules(st, missing)[k])
    ensures exists r :: (r in st.triggerRules(BotIdArgs(missing)) && IntStr(r.botId) == k
      && MissingRules(st, missing)[k] == r.triggerRules)
  {
    var rows := st.triggerRules(BotIdArgs(missing));
    var kept := Keep(rows, HasRules);
    AssignFrom(kept, RulesBotKey, RulesOf, k);
    var i :| 0 <= i < |kept| && RulesBotKey(kept[i]) == k && MissingRules(st, missing)[k] == RulesOf(kept[i]);
    KeepIn(rows, HasRules, i);
  }

  lemma {:induction false} KeepIn<R>(rows: seq<R>, keep: R -> bool, i: int)
    requires 0 <= i < |Keep(rows, keep)|
    ensures Keep(rows, keep)[i] in rows
    decreases |rows|
  {
    var init := rows[..|rows| - 1];
    if i < |Keep(init, keep)| {
      KeepIn(init, keep, i);
    }
  }

  /** The calls `handle_missing_bot_trigger_rules` makes: none for no ids; otherwise one
    * batched store query followed by one SET_JSON per row with truthy rules. */
  function MissingRulesEvents(st: BotStore, triggerRules: KeyTemplate, missing: seq<int>): seq<Event> {
    if |missing| == 0 then []
    else [BatchQuery(BotIdArgs(missing))] + RowWrites(Keep(st.triggerRules(BotIdArgs(missing)), HasRules), RulesCacheKey(triggerRules), RulesOf)
  }

  /** The non-empty case of `handle_missing_bot_trigger_rules`: the batched query, then
    * the write loop over the rows with truthy rules. */
  method FetchAndCacheRules(net: Network, st: BotStore, triggerRules: KeyTemplate, ids: seq<Json>)
    returns (m: map<string, Json>)
    modifies net
    ensures m == Assign(Keep(st.triggerRules(ids), HasRules), RulesBotKey, RulesOf)
    ensures net.trace == old(net.trace) + ([BatchQuery(ids)] + RowWrites(Keep(st.triggerRules(ids), HasRules), RulesCacheKey(triggerRules), RulesOf))
    ensures net.entries == Run(old(net.entries), [BatchQuery(ids)] + RowWrites(Keep(st.triggerRules(ids), HasRules), RulesCacheKey(triggerRules), RulesOf))
  {
    ghost var e0 := net.entries;
    ghost var t0 := net.trace;
    net.Perform(BatchQuery(ids));
    RunOne(e0, BatchQuery(ids));
    var rows := st.triggerRules(ids);
    m := CacheRowsWhere(net, rows, HasRules, RulesCacheKey(triggerRules), RulesBotKey, RulesOf);
    ghost var w := RowWrites(Keep(rows, HasRules), RulesCacheKey(triggerRules), RulesOf);
    RunAppend(e0, [BatchQuery(ids)], w);
    AppendAssoc(t0, [BatchQuery(ids)], w);
  }

  /** `GetMultipleBotTriggerRules.handle_missing_bot_trigger_rules`. */
  method HandleMissingBotTriggerRules(net: Network, st: BotStore, triggerRules: KeyTemplate, missing: seq<int>)
    returns (m: map<string, Json>)
    modifies net
    ensures m == MissingRules(st, missing)
    ensures net.trace == old(net.trace) + MissingRulesEvents(st, triggerRules, missing)
    ensures net.entries == Run(old(net.entries), MissingRulesEvents(st, triggerRules, missing))
  {
    if |missing| == 0 {
      m := map[];
      assert Run(net.entries, []) == net.entries;
    } else {
      m := FetchAndCacheRules(net, st, triggerRules, BotIdArgs(missing));
    }
  }

  /** `get_missing_trigger_rules_bot_ids` on the multi-get result. */
  function MissingRuleIds(e: Entries, triggerRules: KeyTemplate, ids: seq<int>): seq<int> {
    MissingAt(ReadMany(e, IdKeys(triggerRules, ids)), ids)
  }

  /** A bot is fetched from the store exactly when its cached rules are falsy. */
  lemma MissingRuleIdsMembers(e: Entries, triggerRules: KeyTemplate, ids: seq<int>, x: int)
    ensures x in MissingRuleIds(e, triggerRules, ids)
      <==> exists i :: 0 <= i < |ids| && !Truthy(ReadJson(e, Key(triggerRules, IntStr(ids[i])))) && ids[i] == x
  {
    MissingAtMembers(ReadMany(e, IdKeys(triggerRules, ids)), ids, x);
  }

  /** `ManageBot.get_multiple_bot_trigger_rules`' result. */
  function MultipleTriggerRules(e: Entries, st: BotStore, triggerRules: KeyTemplate, ids: seq<int>): map<string, Json> {
    Zip(ids, ReadMany(e, IdKeys(triggerRules, ids))) + MissingRules(st, MissingRuleIds(e, triggerRules, ids))
  }

  /** Every requested bot has an entry; a bot without fetched truthy rules keeps its
    * cached value; a fetched bot gets its rules. */
  lemma MultipleTriggerRulesEntries(e: Entries, st: BotStore, triggerRules: KeyTemplate, ids: seq<int>)
    ensures var r := MultipleTriggerRules(e, st, triggerRules, ids);
      var filled := MissingRules(st, MissingRuleIds(e, triggerRules, ids));
      (forall i :: 0 <= i < |ids| ==> IntStr(ids[i]) in r)
      && (forall i :: 0 <= i < |ids| && IntStr(ids[i]) !in filled ==>
            (r[IntStr(ids[i])] == ReadJson(e, Key(triggerRules, IntStr(ids[i])))))
      && (forall k :: k in filled ==> k in r && r[k] == filled[k])
      && (forall k :: k in r ==> k in filled || exists i :: 0 <= i < |ids| && IntStr(ids[i]) == k)
  {
    MergeEntries(ids, ReadMany(e, IdKeys(triggerRules, ids)), MissingRules(st, MissingRuleIds(e, triggerRules, ids)));
  }

  /** `ManageBot.get_multiple_bot_trigger_rules`. */
  method GetMultipleBotTriggerRules(net: Network, st: BotStore, triggerRules: KeyTemplate, ids: seq<int>)
    returns (r: map<string, Json>)
    modifies net
    ensures r == MultipleTriggerRules(old(net.entries), st, triggerRules, ids)
    ensures net.trace == old(net.trace) + [CacheOp(JsonMGet(IdKeys(triggerRules, ids)))]
      + MissingRulesEvents(st, triggerRules, MissingRuleIds(old(net.entries), triggerRules, ids))
    ensures net.entries == Run(old(net.entries), MissingRulesEvents(st, triggerRules, MissingRuleIds(old(net.entries), triggerRules, ids)))
  {
    var keys := IdKeys(triggerRules, ids);
    var vs := net.GetMultiple(keys);
    var rules := Zip(ids, vs);
    var missing := MissingAt(vs, ids);
    var filled := HandleMissingBotTriggerRules(net, st, triggerRules, missing);
    r := rules + filled;
  }

  /** `GetBotVersions.get_bot_versions`: the version ids of the bot's versions, in row order. */
  method GetBotVersions(net: Network, versions: Json -> seq<int>, botId: Json) returns (ids: seq<int>)
    modifies net
    ensures ids == versions(botId)
    ensures net.entries == old(net.entries)
    ensures net.trace == old(net.trace) + [StoreQuery(map["bot_id" := Value(botId)])]
  {
    net.Perform(StoreQuery(map["bot_id" := Value(botId)]));
    ids := versions(botId);
  }

  /** `GetBotLeadId.get_bot_id_by_publish_key`: GET on BOT_PUBLISH_KEY_ID_MAPPING(publish_key),
    * `int()` on a hit, the sync result on a miss. */
  method GetBotIdByPublishKey(net: Network, botIdOf: Json -> Json, template: KeyTemplate, publishKey: string)
    returns (r: Result<Json>)
    modifies net
    ensures r == IdFromKeySpec(old(net.entries), Key(template, publishKey), botIdOf, "publish_key", JStr(publishKey))
    ensures var s := SyncSpec(IdGetter(botIdOf, "publish_key"), Key(template, publishKey), LookupArgs("publish_key", JStr(publishKey)));
      var events := if Truthy(ReadScalar(old(net.entries), Key(template, publishKey))) then [] else s.events;
      net.trace == old(net.trace) + [CacheOp(StrGet(Key(template, publishKey)))] + events
      && net.entries == Run(old(net.entries), events)
  {
    r := GetIdByKey(net, botIdOf, "publish_key", Key(template, publishKey), JStr(publishKey));
  }
}
