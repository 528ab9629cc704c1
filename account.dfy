/** Accounts: the single-account read-through, the multi-account batch fill, the
  * per-account groupings of bots, popup messages and features, the outbound
  * remaining balance, and the account-key to id mapping. */
module Account {
  import opened Json
  import opened Cache
  import opened Handler
  import opened Batch
  import opened KeyMapping

  datatype BotRow = BotRow(id: int, accountId: int, isDeleted: bool)
  datatype PopupRow = PopupRow(id: Json, accountId: int, urlRegex: Json, message: Json)
  datatype FeatureRow = FeatureRow(accountId: int, key: string, featureId: Json, config: Json)

  /** The columns an account row carries into its cached object unchanged, by name. */
  type CopiedValues = m: map<string, Json> | m.Keys == CopiedColumns
    witness map k | k in CopiedColumns :: JNull

  /** An account row: the fields the subscription is built from, the columns copied
    * unchanged, and the four columns `parse_account_object` converts. */
  datatype AccountRow = AccountRow(accountId: int, subscriptionId: Json, planSource: Json, planId: Json,
                                   planName: Json, copied: CopiedValues, operatingHours: Json,
                                   isDomainRestricted: Json, registeredDomains: Json, siteUrl: Json)

  /** The store as the account Getters see it; each query takes the list of account ids. */
  datatype AccountStore = AccountStore(
    details: seq<Json> -> seq<AccountRow>,
    bots: seq<Json> -> seq<BotRow>,
    popups: seq<Json> -> seq<PopupRow>,
    features: seq<Json> -> seq<FeatureRow>)

  /** The bot ids of an account, as strings: not deleted, and deleted. */
  datatype BotLists = BotLists(bots: seq<string>, deletedBots: seq<string>)

  function BotIdStr(b: BotRow): string {
    IntStr(b.id)
  }

  function BotAccountKey(b: BotRow): string {
    IntStr(b.accountId)
  }

  /** `filter_deleted_non_deleted_bots`: the bot's id goes to exactly one of the lists. */
  function FilterBot(p: BotLists, b: BotRow): BotLists {
    if b.isDeleted then p.(deletedBots := p.deletedBots + [IntStr(b.id)]) else p.(bots := p.bots + [IntStr(b.id)])
  }

  const NoBots := BotLists([], [])

  /** `get_deleted_non_deleted_bots`, as a fold of `FilterBot`. */
  function Partition(bots: seq<BotRow>): BotLists {
    Fold(bots, FilterBot, NoBots)
  }

  /** The ids of the bots whose deletion flag is `deleted`, in row order. */
  function IdsWhere(bots: seq<BotRow>, deleted: bool): seq<string>
    decreases |bots|
  {
    if |bots| == 0 then []
    else (if bots[0].isDeleted == deleted then [IntStr(bots[0].id)] else []) + IdsWhere(bots[1..], deleted)
  }

  lemma {:induction false} IdsWhereSnoc(bots: seq<BotRow>, b: BotRow, deleted: bool)
    ensures IdsWhere(bots + [b], deleted) == IdsWhere(bots, deleted) + (if b.isDeleted == deleted then [IntStr(b.id)] else [])
    decreases |bots|
  {
    if |bots| > 0 {
      assert (bots + [b])[1..] == bots[1..] + [b];
      IdsWhereSnoc(bots[1..], b, deleted);
    }
  }

  /** The partition lists the non-deleted bots and the deleted bots, each in row order. */
  lemma {:induction false} PartitionLists(bots: seq<BotRow>)
    ensures Partition(bots) == BotLists(IdsWhere(bots, false), IdsWhere(bots, true))
    decreases |bots|
  {
    if |bots| > 0 {
      var pre := bots[..|bots| - 1];
      PartitionLists(pre);
      IdsWhereSnoc(pre, bots[|bots| - 1], false);
      IdsWhereSnoc(pre, bots[|bots| - 1], true);
      assert pre + [bots[|bots| - 1]] == bots;
    }
  }

  /** Every bot's id lands in exactly one of the two lists: together they are a
    * permutation of all the ids. */
  lemma {:induction false} PartitionPermutation(bots: seq<BotRow>)
    ensures multiset(Partition(bots).bots) + multiset(Partition(bots).deletedBots) == multiset(MapSeq(bots, BotIdStr))
    decreases |bots|
  {
    if |bots| > 0 {
      var pre := bots[..|bots| - 1];
      PartitionPermutation(pre);
      assert MapSeq(bots, BotIdStr) == MapSeq(pre, BotIdStr) + [IntStr(bots[|bots| - 1].id)];
    }
  }

  /** The loop of `get_deleted_non_deleted_bots`. */
  method GetDeletedNonDeletedBots(bots: seq<BotRow>) returns (nonDeleted: seq<string>, deleted: seq<string>)
    ensures BotLists(nonDeleted, deleted) == Partition(bots)
  {
    nonDeleted, deleted := [], [];
    var i := 0;
    while i < |bots|
      invariant 0 <= i <= |bots|
      invariant BotLists(nonDeleted, deleted) == Partition(bots[..i])
    {
      assert bots[..i + 1][..i] == bots[..i];
      if bots[i].isDeleted {
        deleted := deleted + [IntStr(bots[i].id)];
      } else {
        nonDeleted := nonDeleted + [IntStr(bots[i].id)];
      }
      i := i + 1;
    }
    assert bots[..i] == bots;
  }

  /** `parse_sql_account_bots`: per `str(account_id)`, the partition of that account's bots. */
  function AccountBotLists(rows: seq<BotRow>): map<string, BotLists> {
    Collect(rows, BotAccountKey, FilterBot, NoBots)
  }

  /** Each account present is an account of some bot row, and its lists are exactly
    * the partition of its own bots. */
  lemma AccountBotListsSelect(rows: seq<BotRow>, k: string)
    ensures k in AccountBotLists(rows) <==> exists i :: 0 <= i < |rows| && IntStr(rows[i].accountId) == k
    ensures GetOrZero(AccountBotLists(rows), k, NoBots) == Partition(Select(rows, BotAccountKey, k))
  {
    CollectSelect(rows, BotAccountKey, FilterBot, NoBots, k);
  }

  /** The loop of `parse_sql_account_bots`. */
  method ParseSqlAccountBots(rows: seq<BotRow>) returns (m: map<string, BotLists>)
    ensures m == AccountBotLists(rows)
  {
    m := CollectLoop(rows, BotAccountKey, FilterBot, NoBots);
  }

  /** `parse_popup_message_data`. */
  function PopupJson(p: PopupRow): Json {
    JObj(map["id" := p.id, "url_regex" := p.urlRegex, "message" := p.message])
  }

  function PopupAccountKey(p: PopupRow): string {
    IntStr(p.accountId)
  }

  /** `parse_sql_account_popup_messages`: per account, its popup messages in row order. */
  function AccountPopups(rows: seq<PopupRow>): map<string, seq<Json>> {
    Append(map[], rows, PopupAccountKey, PopupJson)
  }

  /** Each account present is an account of some popup row, and its list is its own
    * popup messages in row order. */
  lemma AccountPopupsSelect(rows: seq<PopupRow>, k: string)
    ensures k in AccountPopups(rows) <==> exists i :: 0 <= i < |rows| && IntStr(rows[i].accountId) == k
    ensures Lookup(AccountPopups(rows), k) == MapSeq(Select(rows, PopupAccountKey, k), PopupJson)
  {
    AppendSelect(map[], rows, PopupAccountKey, PopupJson, k);
  }

  /** The loop of `parse_sql_account_popup_messages`. */
  method ParseSqlAccountPopupMessages(rows: seq<PopupRow>) returns (m: map<string, seq<Json>>)
    ensures m == AccountPopups(rows)
  {
    m := AppendLoop(map[], rows, PopupAccountKey, PopupJson);
  }

  /** `parse_features`. */
  function FeatureJson(f: FeatureRow): Json {
    JObj(map["id" := f.featureId, "config" := f.config])
  }

  function FeatureKey(f: FeatureRow): string {
    f.key
  }

  function FeatureAccountKey(f: FeatureRow): string {
    IntStr(f.accountId)
  }

  /** `features[feature_key] = parse_features(row)`. */
  function AddFeature(features: map<string, Json>, f: FeatureRow): map<string, Json> {
    features[f.key := FeatureJson(f)]
  }

  /** Adding features one by one is filling a dict by feature key, later rows winning. */
  lemma {:induction false} FoldAddFeature(rows: seq<FeatureRow>)
    ensures Fold(rows, AddFeature, map[]) == Assign(rows, FeatureKey, FeatureJson)
    decreases |rows|
  {
    if |rows| > 0 {
      FoldAddFeature(rows[..|rows| - 1]);
    }
  }

  /** `parse_sql_account_features`: per account, its features keyed by feature key. */
  function AccountFeatures(rows: seq<FeatureRow>): map<string, map<string, Json>> {
    Collect(rows, FeatureAccountKey, AddFeature, map[])
  }

  /** An account's features are its own feature rows filled into a dict, so a later
    * row with the same feature key overwrites an earlier one. */
  lemma AccountFeaturesSelect(rows: seq<FeatureRow>, k: string)
    ensures k in AccountFeatures(rows) <==> exists i :: 0 <= i < |rows| && IntStr(rows[i].accountId) == k
    ensures GetOrZero(AccountFeatures(rows), k, map[]) == Assign(Select(rows, FeatureAccountKey, k), FeatureKey, FeatureJson)
  {
    CollectSelect(rows, FeatureAccountKey, AddFeature, map[], k);
    FoldAddFeature(Select(rows, FeatureAccountKey, k));
  }

  /** The loop of `parse_sql_account_features`. */
  method ParseSqlAccountFeatures(rows: seq<FeatureRow>) returns (m: map<string, map<string, Json>>)
    ensures m == AccountFeatures(rows)
  {
    m := CollectLoop(rows, FeatureAccountKey, AddFeature, map[]);
  }

  /** `get_subscription_object`. */
  function Subscription(row: AccountRow, features: map<string, Json>): Json {
    JObj(map["id" := row.subscriptionId, "activation_source" := row.planSource,
             "plan" := JObj(map["id" := row.planId, "name" := row.planName]),
             "features" := JObj(features)])
  }

  /** The account's bot ids as a JSON list of strings. */
  function IdList(ids: seq<string>): Json {
    JList(MapSeq(ids, (id: string) => JStr(id)))
  }

  /** `json.dumps` and `json.loads`: `loads` fails on text that is not JSON. */
  datatype JsonCodec = JsonCodec(dumps: Json -> string, loads: string -> Result<Json>)

  /** `json.loads(v)`, which raises TypeError on a value that is not a string. */
  function Loads(codec: JsonCodec, v: Json): Result<Json> {
    if v.JStr? then codec.loads(v.s) else Failure("TypeError: the JSON object must be str, bytes or bytearray")
  }

  /** The columns `parse_account_object` copies as they are. */
  const CopiedColumns: set<string> := {
    "account_name", "account_key", "owner_id", "timezone", "image_name", "payment_method",
    "account_status", "enabled_human_handover", "maximum_chat_allocation_limit",
    "returning_user_cookie_duration", "feature_integration", "feature_configuration",
    "outbound_configuration", "live_chat_configurations", "trigger_event",
    "is_unassign_conversation_on_auto_assignment_failure_enabled"}

  /** The keys `parse_account_object` computes. */
  const ComputedKeys: set<string> := {
    "account_id", "operating_hours", "is_domain_restricted", "registered_domains", "site_url",
    "bots", "deleted_bots", "subscription", "popup_messages"}

  /** `registered_domains if registered_domains and json.loads(registered_domains) else None`. */
  function RegisteredDomains(codec: JsonCodec, v: Json): Result<Json> {
    if !Truthy(v) then Ok(JNull)
    else
      match Loads(codec, v)
      case Failure(err) => Failure(err)
      case Ok(parsed) => Ok(if Truthy(parsed) then v else JNull)
  }

  /** `json.loads(site_url) if site_url else None`. */
  function SiteUrl(codec: JsonCodec, v: Json): Result<Json> {
    if Truthy(v) then Loads(codec, v) else Ok(JNull)
  }

  /** The converted columns of a row that `parse_account_object` does not raise on. */
  datatype Converted = Converted(hours: Json, restricted: int, domains: Json, site: Json)

  /** The conversions `parse_account_object` applies, tried in keyword order:
    * `operating_hours` as JSON text, `int()` of `is_domain_restricted`, then the
    * `registered_domains` and `site_url` checks; the first that raises is the
    * exception. */
  function Convert(codec: JsonCodec, row: AccountRow): Result<Converted> {
    var hours := row.operatingHours;
    var restricted := ToInt(row.isDomainRestricted);
    var domains := RegisteredDomains(codec, row.registeredDomains);
    var site := SiteUrl(codec, row.siteUrl);
    if restricted.Failure? then Failure(restricted.error)
    else if domains.Failure? then Failure(domains.error)
    else if site.Failure? then Failure(site.error)
    else Ok(Converted(if Truthy(hours) then JStr(codec.dumps(hours)) else JNull, restricted.value, domains.value, site.value))
  }

  /** The dict `parse_account_object` builds from converted columns. */
  function ObjectMap(row: AccountRow, c: Converted, lists: BotLists, subscription: Json, popups: seq<Json>)
    : map<string, Json>
  {
    row.copied["account_id" := JInt(row.accountId)]["operating_hours" := c.hours]
      ["is_domain_restricted" := JInt(c.restricted)]["registered_domains" := c.domains]["site_url" := c.site]
      ["bots" := IdList(lists.bots)]["deleted_bots" := IdList(lists.deletedBots)]
      ["subscription" := subscription]["popup_messages" := JList(popups)]
  }

  /** The dict has exactly the copied and the computed keys. */
  lemma ObjectMapKeys(row: AccountRow, c: Converted, lists: BotLists, subscription: Json, popups: seq<Json>)
    ensures ObjectMap(row, c, lists, subscription, popups).Keys == CopiedColumns + ComputedKeys
  {
  }

  /** The copied columns keep their values. */
  lemma ObjectMapCopied(row: AccountRow, c: Converted, lists: BotLists, subscription: Json, popups: seq<Json>, k: string)
    requires k in CopiedColumns
    ensures k in ObjectMap(row, c, lists, subscription, popups) && ObjectMap(row, c, lists, subscription, popups)[k] == row.copied[k]
  {
    CopiedNotComputed(k);
  }

  /** The computed keys hold the converted columns and the values given. */
  lemma ObjectMapComputed(row: AccountRow, c: Converted, lists: BotLists, subscription: Json, popups: seq<Json>)
    ensures var p := ObjectMap(row, c, lists, subscription, popups);
      p["account_id"] == JInt(row.accountId) && p["operating_hours"] == c.hours
      && p["is_domain_restricted"] == JInt(c.restricted) && p["registered_domains"] == c.domains
      && p["site_url"] == c.site && p["bots"] == IdList(lists.bots) && p["deleted_bots"] == IdList(lists.deletedBots)
      && p["subscription"] == subscription && p["popup_messages"] == JList(popups)
  {
  }

  /** `parse_account_object`: the copied columns, the account id, the converted columns,
    * both bot lists, the subscription and the popup messages, under exactly the fixed
    * keys; the exception of the first conversion that raises. */
  function AccountObject(codec: JsonCodec, row: AccountRow, lists: BotLists, subscription: Json, popups: seq<Json>)
    : Result<Json>
  {
    match Convert(codec, row)
    case Failure(err) => Failure(err)
    case Ok(c) =>
      Ok(JObj(ObjectMap(row, c, lists, subscription, popups)))
  }

  /** The account object raises exactly when `int()` of `is_domain_restricted` raises,
    * or a truthy `registered_domains` or `site_url` is not JSON text, and then with the
    * first of those exceptions. */
  lemma AccountObjectRaises(codec: JsonCodec, row: AccountRow, lists: BotLists, subscription: Json, popups: seq<Json>)
    ensures var r := AccountObject(codec, row, lists, subscription, popups);
      var restricted := row.isDomainRestricted;
      var domains, site := row.registeredDomains, row.siteUrl;
      (r.Failure? <==> ToInt(restricted).Failure? || (Truthy(domains) && Loads(codec, domains).Failure?)
                       || (Truthy(site) && Loads(codec, site).Failure?))
      && (ToInt(restricted).Failure? ==> r == Failure(ToInt(restricted).error))
      && (ToInt(restricted).Ok? && Truthy(domains) && Loads(codec, domains).Failure?
          ==> r == Failure(Loads(codec, domains).error))
      && (ToInt(restricted).Ok? && !(Truthy(domains) && Loads(codec, domains).Failure?)
          && Truthy(site) && Loads(codec, site).Failure?
          ==> r == Failure(Loads(codec, site).error))
  {
  }

  /** Conversions that do not raise give `operating_hours` as JSON text,
    * `is_domain_restricted` as an int, `registered_domains` kept only when it parses to
    * a truthy value, and `site_url` parsed, each None when falsy. */
  lemma ConvertedColumns(codec: JsonCodec, row: AccountRow)
    requires Convert(codec, row).Ok?
    ensures var c := Convert(codec, row).value;
      var hours, restricted := row.operatingHours, row.isDomainRestricted;
      var domains, site := row.registeredDomains, row.siteUrl;
      c.hours == (if Truthy(hours) then JStr(codec.dumps(hours)) else JNull)
      && ToInt(restricted).Ok? && c.restricted == ToInt(restricted).value
      && c.domains == (if Truthy(domains) && Truthy(Loads(codec, domains).value) then domains else JNull)
      && c.site == (if Truthy(site) then Loads(codec, site).value else JNull)
  {
  }

  /** An account object that does not raise has exactly the fixed keys: the copied
    * columns unchanged, the converted columns, and the id, lists, subscription and
    * popups given. */
  lemma AccountObjectFields(codec: JsonCodec, row: AccountRow, lists: BotLists, subscription: Json, popups: seq<Json>)
    requires AccountObject(codec, row, lists, subscription, popups).Ok?
    ensures Convert(codec, row).Ok?
    ensures var p := AccountObject(codec, row, lists, subscription, popups).value.fields;
      var c := Convert(codec, row).value;
      p.Keys == CopiedColumns + ComputedKeys
      && (forall k :: k in CopiedColumns ==> p[k] == row.copied[k])
      && p["account_id"] == JInt(row.accountId) && p["operating_hours"] == c.hours
      && p["is_domain_restricted"] == JInt(c.restricted) && p["registered_domains"] == c.domains
      && p["site_url"] == c.site && p["bots"] == IdList(lists.bots) && p["deleted_bots"] == IdList(lists.deletedBots)
      && p["subscription"] == subscription && p["popup_messages"] == JList(popups)
  {
    var c := Convert(codec, row).value;
    ObjectMapKeys(row, c, lists, subscription, popups);
    ObjectMapComputed(row, c, lists, subscription, popups);
    forall k | k in CopiedColumns
      ensures ObjectMap(row, c, lists, subscription, popups)[k] == row.copied[k]
    {
      ObjectMapCopied(row, c, lists, subscription, popups, k);
    }
  }

  /** No copied column is one of the keys `parse_account_object` computes. */
  lemma CopiedNotComputed(k: string)
    requires k in CopiedColumns
    ensures k !in ComputedKeys
  {
  }

  /** What `GetAccountDetails.get_data_from_sql` returns when the account exists. */
  datatype AccountData = AccountData(row: AccountRow, lists: BotLists, features: seq<FeatureRow>, popups: seq<PopupRow>)

  /** `GetAccountDetails.get_data_from_sql`: the first account row, the partition of its
    * bots, its features and popup messages; None when the account does not exist. */
  function AccountFromSql(st: AccountStore, id: Json): (r: Option<AccountData>)
    ensures r.None? <==> |st.details([id])| == 0
    ensures r.Some? ==> r.value.row == st.details([id])[0] && r.value.lists == Partition(st.bots([id]))
  {
    if |st.details([id])| == 0 then None
    else Some(AccountData(st.details([id])[0], Partition(st.bots([id])), st.features([id]), st.popups([id])))
  }

  /** `GetAccountDetails.prepare_sync_payload`, with its exception. */
  function AccountResult(codec: JsonCodec, d: Option<AccountData>): Result<Json> {
    if d.None? then Ok(JNull)
    else
      var a := d.value;
      AccountObject(codec, a.row, a.lists, Subscription(a.row, Assign(a.features, FeatureKey, FeatureJson)),
                    MapSeq(a.popups, PopupJson))
  }

  /** The payload of a call that does not raise. */
  function AccountPayload(codec: JsonCodec, d: Option<AccountData>): Json {
    match AccountResult(codec, d)
    case Ok(p) => p
    case Failure(_) => JNull
  }

  function AccountGetter(codec: JsonCodec, st: AccountStore): Getter<Option<AccountData>> {
    Getter((kw: Kwargs) => AccountFromSql(st, Kw(kw, "account_id")), (d: Option<AccountData>) => d.Some?,
           EmptySearch(), (d: Option<AccountData>, es: Json, kw: Kwargs) => AccountPayload(codec, d))
  }

  /** The same Getter with the exceptions of its shaper. */
  function AccountRaising(codec: JsonCodec, st: AccountStore): Raising<Option<AccountData>> {
    Raising(AccountGetter(codec, st), (kw: Kwargs) => None,
            (d: Option<AccountData>, es: Json, kw: Kwargs) =>
              var r := AccountResult(codec, d); if r.Failure? then Some(r.error) else None)
  }

  function AccountArgs(id: int): Kwargs {
    map["account_id" := Value(JInt(id))]
  }

  /** A missing account gives `{}` and writes nothing. */
  lemma {:induction false} AccountNotFound(e: Entries, codec: JsonCodec, st: AccountStore, key: string, id: int)
    requires !Truthy(ReadJson(e, key)) && AccountFromSql(st, JInt(id)).None?
    ensures var first := ReadThroughOutcome(e, JsonRead, key, AccountRaising(codec, st), AccountArgs(id));
      first.result == Ok(Empty) && Run(e, first.events) == e
  {
    assert Kw(AccountArgs(id), "account_id") == JInt(id);
    var r, kw := AccountRaising(codec, st), AccountArgs(id);
    var first := ReadThroughOutcome(e, JsonRead, key, r, kw);
    assert first.events == [CacheOp(JsonGet(key)), StoreQuery(kw), SearchQuery(kw)];
    RunWithoutWrites(e, first.events);
  }

  /** An account whose row does not convert raises, and the call writes nothing. */
  lemma {:induction false} AccountUnconvertible(e: Entries, codec: JsonCodec, st: AccountStore, key: string, id: int)
    requires !Truthy(ReadJson(e, key))
    requires var d := AccountFromSql(st, JInt(id)); d.Some? && AccountResult(codec, d).Failure?
    ensures var first := ReadThroughOutcome(e, JsonRead, key, AccountRaising(codec, st), AccountArgs(id));
      first.result == AccountResult(codec, AccountFromSql(st, JInt(id))) && Run(e, first.events) == e
  {
    assert Kw(AccountArgs(id), "account_id") == JInt(id);
    ReadThroughRaises(e, JsonRead, key, AccountRaising(codec, st), AccountArgs(id));
  }

  /** An existing account is cached as a document on the first miss and served from
    * the cache on the next call. */
  lemma {:induction false} AccountFilled(e: Entries, codec: JsonCodec, st: AccountStore, key: string, id: int)
    requires !Truthy(ReadJson(e, key))
    requires var d := AccountFromSql(st, JInt(id)); d.Some? && AccountResult(codec, d).Ok?
    ensures var first := ReadThroughOutcome(e, JsonRead, key, AccountRaising(codec, st), AccountArgs(id));
      first.result == AccountResult(codec, AccountFromSql(st, JInt(id)))
      && ReadThroughOutcome(Run(e, first.events), JsonRead, key, AccountRaising(codec, st), AccountArgs(id))
         == Outcome(first.result, [CacheOp(JsonGet(key))])
  {
    assert Kw(AccountArgs(id), "account_id") == JInt(id);
    var r, kw := AccountRaising(codec, st), AccountArgs(id);
    var first := ReadThroughOutcome(e, JsonRead, key, r, kw);
    ReadThroughRaises(e, JsonRead, key, r, kw);
    ReadThroughFillThenHit(e, JsonRead, key, r.g, kw);
    ReadThroughHit(Run(e, first.events), JsonRead, key, r.g, kw);
  }

  /** An existing account is cached as a document on the first miss and served from
    * the cache on the next call; one whose row does not convert raises and writes
    * nothing; a missing one gives `{}` and writes nothing. */
  lemma AccountCached(e: Entries, codec: JsonCodec, st: AccountStore, key: string, id: int)
    requires !Truthy(ReadJson(e, key))
    ensures var first := ReadThroughOutcome(e, JsonRead, key, AccountRaising(codec, st), AccountArgs(id));
      var d := AccountFromSql(st, JInt(id));
      (d.None? ==> first.result == Ok(Empty) && Run(e, first.events) == e)
      && (d.Some? && AccountResult(codec, d).Failure? ==>
            first.result == AccountResult(codec, d) && Run(e, first.events) == e)
      && (d.Some? && AccountResult(codec, d).Ok? ==>
            first.result == AccountResult(codec, d)
            && ReadThroughOutcome(Run(e, first.events), JsonRead, key, AccountRaising(codec, st), AccountArgs(id))
               == Outcome(first.result, [CacheOp(JsonGet(key))]))
  {
    var d := AccountFromSql(st, JInt(id));
    if d.None? {
      AccountNotFound(e, codec, st, key, id);
    } else if AccountResult(codec, d).Failure? {
      AccountUnconvertible(e, codec, st, key, id);
    } else {
      AccountFilled(e, codec, st, key, id);
    }
  }

  /** `ManageAccount.get_account_details`: GET_JSON on ACCOUNT_DATA(account_id), filled on a miss. */
  method GetAccountDetails(net: Network, codec: JsonCodec, st: AccountStore, accountData: KeyTemplate, id: int)
    returns (r: Result<Json>)
    modifies net
    ensures var o := ReadThroughOutcome(old(net.entries), JsonRead, Key(accountData, IntStr(id)), AccountRaising(codec, st), AccountArgs(id));
      r == o.result && net.trace == old(net.trace) + o.events && net.entries == Run(old(net.entries), o.events)
  {
    r := ReadThroughRaising(net, JsonRead, Key(accountData, IntStr(id)), AccountRaising(codec, st), AccountArgs(id));
  }

  /** The account ids as the store queries receive them. */
  function IdArgs(ids: seq<int>): seq<Json> {
    MapSeq(ids, (i: int) => JInt(i))
  }

  /** `GetMultipleAccountDetails.prepare_sync_payload` for one account row, given the
    * groupings of the batch's bots, popup messages and features. */
  function RowPayload(codec: JsonCodec, row: AccountRow, bots: map<string, BotLists>, popups: map<string, seq<Json>>,
                      features: map<string, map<string, Json>>): Result<Json> {
    var k := IntStr(row.accountId);
    AccountObject(codec, row, GetOrZero(bots, k, NoBots), Subscription(row, GetOrZero(features, k, map[])), Lookup(popups, k))
  }

  function RowPayloadOf(codec: JsonCodec, bots: map<string, BotLists>, popups: map<string, seq<Json>>,
                        features: map<string, map<string, Json>>): AccountRow -> Result<Json> {
    (row: AccountRow) => RowPayload(codec, row, bots, popups, features)
  }

  /** The payloads of a batch's account rows, picked from the batch groupings. */
  function BatchPayloads(codec: JsonCodec, st: AccountStore, ids: seq<Json>): Result<seq<Json>> {
    MapResults(st.details(ids), RowPayloadOf(codec, AccountBotLists(st.bots(ids)), AccountPopups(st.popups(ids)),
                                             AccountFeatures(st.features(ids))))
  }

  /** The payload one account row of a batch contributes when the batch does not raise. */
  function PayloadOf(codec: JsonCodec, st: AccountStore, ids: seq<Json>): AccountRow -> Json {
    (row: AccountRow) =>
      match RowPayload(codec, row, AccountBotLists(st.bots(ids)), AccountPopups(st.popups(ids)), AccountFeatures(st.features(ids)))
      case Ok(p) => p
      case Failure(_) => JNull
  }

  /** A batch that does not raise gives each row's payload, in row order. */
  lemma BatchPayloadsRows(codec: JsonCodec, st: AccountStore, ids: seq<Json>)
    ensures BatchPayloads(codec, st, ids).Ok? ==> BatchPayloads(codec, st, ids).value == MapSeq(st.details(ids), PayloadOf(codec, st, ids))
  {
    MapResultsOk(st.details(ids), RowPayloadOf(codec, AccountBotLists(st.bots(ids)), AccountPopups(st.popups(ids)),
                                               AccountFeatures(st.features(ids))));
  }

  /** `GetMultipleAccountDetails.get_data_from_sql`: the three groupings, then one
    * payload per account row. */
  method BatchGetDataFromSql(codec: JsonCodec, st: AccountStore, ids: seq<Json>) returns (payloads: Result<seq<Json>>)
    ensures payloads == BatchPayloads(codec, st, ids)
  {
    var details := st.details(ids);
    var bots := ParseSqlAccountBots(st.bots(ids));
    var popups := ParseSqlAccountPopupMessages(st.popups(ids));
    var features := ParseSqlAccountFeatures(st.features(ids));
    payloads := RowPayloads(codec, details, bots, popups, features);
  }

  /** The loop of get_data_from_sql: one payload per account row, in row order, ended by
    * the first row that raises. */
  method RowPayloads(codec: JsonCodec, details: seq<AccountRow>, bots: map<string, BotLists>, popups: map<string, seq<Json>>,
                     features: map<string, map<string, Json>>) returns (payloads: Result<seq<Json>>)
    ensures payloads == MapResults(details, RowPayloadOf(codec, bots, popups, features))
  {
    ghost var f := RowPayloadOf(codec, bots, popups, features);
    var ps := [];
    var i := 0;
    while i < |details|
      invariant 0 <= i <= |details|
      invariant MapResults(details[..i], f) == Ok(ps)
    {
      var payload := PrepareRow(codec, details[i], bots, popups, features);
      MapResultsStep(details, i, f, ps, payload);
      if payload.Failure? {
        return Failure(payload.error);
      }
      ps := ps + [payload.value];
      i := i + 1;
    }
    assert details[..i] == details;
    payloads := Ok(ps);
  }

  /** The body of that loop: the row's lists, popup messages and features, `[]`, `[]`
    * and `{}` for an account the groupings do not mention. */
  method PrepareRow(codec: JsonCodec, row: AccountRow, bots: map<string, BotLists>, popups: map<string, seq<Json>>,
                    features: map<string, map<string, Json>>) returns (payload: Result<Json>)
    ensures payload == RowPayload(codec, row, bots, popups, features)
  {
    var k := IntStr(row.accountId);
    var lists := if k in bots then bots[k] else BotLists([], []);
    var messages := if k in popups then popups[k] else [];
    var accountFeatures := if k in features then features[k] else map[];
    assert lists == GetOrZero(bots, k, NoBots);
    assert messages == Lookup(popups, k);
    assert accountFeatures == GetOrZero(features, k, map[]);
    payload := AccountObject(codec, row, lists, Subscription(row, accountFeatures), messages);
  }

  function RowAccountKey(row: AccountRow): string {
    IntStr(row.accountId)
  }

  /** `handle_missing_account_details`' result: the filled payloads by `str(account_id)`,
    * or the exception of the batch. */
  function MissingDetails(codec: JsonCodec, st: AccountStore, missing: seq<int>): (m: Result<map<string, Json>>)
    ensures missing == [] ==> m == Ok(map[])
    ensures missing != [] ==> (m.Failure? <==> BatchPayloads(codec, st, IdArgs(missing)).Failure?)
  {
    if |missing| == 0 then Ok(map[])
    else if BatchPayloads(codec, st, IdArgs(missing)).Failure? then Failure(BatchPayloads(codec, st, IdArgs(missing)).error)
    else Ok(Assign(st.details(IdArgs(missing)), RowAccountKey, PayloadOf(codec, st, IdArgs(missing))))
  }

  /** The ACCOUNT_DATA key of an account row. */
  function RowCacheKey(accountData: KeyTemplate): AccountRow -> string {
    (row: AccountRow) => Key(accountData, IntStr(row.accountId))
  }

  /** The calls `handle_missing_account_details` makes: none for no ids; otherwise one
    * batched store query, followed by one SET_JSON per account row unless a row
    * raised, in which case nothing is written. */
  function MissingEvents(codec: JsonCodec, st: AccountStore, accountData: KeyTemplate, missing: seq<int>): seq<Event> {
    if |missing| == 0 then []
    else if BatchPayloads(codec, st, IdArgs(missing)).Failure? then [BatchQuery(IdArgs(missing))]
    else [BatchQuery(IdArgs(missing))] + RowWrites(st.details(IdArgs(missing)), RowCacheKey(accountData), PayloadOf(codec, st, IdArgs(missing)))
  }

  /** A batch that raises leaves the cache as it was. */
  lemma MissingRaisesWritesNothing(e: Entries, codec: JsonCodec, st: AccountStore, accountData: KeyTemplate, missing: seq<int>)
    requires MissingDetails(codec, st, missing).Failure?
    ensures Run(e, MissingEvents(codec, st, accountData, missing)) == e
  {
    RunWithoutWrites(e, MissingEvents(codec, st, accountData, missing));
  }

  /** `GetMultipleAccountDetails.handle_missing_account_details`. */
  method HandleMissingAccountDetails(net: Network, codec: JsonCodec, st: AccountStore, accountData: KeyTemplate, missing: seq<int>)
    returns (m: Result<map<string, Json>>)
    modifies net
    ensures m == MissingDetails(codec, st, missing)
    ensures net.trace == old(net.trace) + MissingEvents(codec, st, accountData, missing)
    ensures net.entries == Run(old(net.entries), MissingEvents(codec, st, accountData, missing))
  {
    if |missing| == 0 {
      m := Ok(map[]);
      assert Run(net.entries, []) == net.entries;
    } else {
      ghost var e0 := net.entries;
      ghost var t0 := net.trace;
      var ids := IdArgs(missing);
      net.Perform(BatchQuery(ids));
      RunOne(e0, BatchQuery(ids));
      var payloads := BatchGetDataFromSql(codec, st, ids);
      if payloads.Failure? {
        return Failure(payloads.error);
      }
      BatchPayloadsRows(codec, st, ids);
      var rows := st.details(ids);
      var filled := CacheRows(net, rows, RowCacheKey(accountData), RowAccountKey, PayloadOf(codec, st, ids), payloads.value);
      m := Ok(filled);
      ghost var w := RowWrites(rows, RowCacheKey(accountData), PayloadOf(codec, st, ids));
      assert MissingEvents(codec, st, accountData, missing) == [BatchQuery(ids)] + w;
      AppendAssoc(t0, [BatchQuery(ids)], w);
      RunAppend(e0, [BatchQuery(ids)], w);
    }
  }

  /** `get_missing_account_ids` on the multi-get result. */
  function MissingAccountIds(e: Entries, accountData: KeyTemplate, ids: seq<int>): seq<int> {
    MissingAt(ReadMany(e, IdKeys(accountData, ids)), ids)
  }

  /** `ManageAccount.get_multiple_account_details`'s result: the cached values by
    * `str(id)`, updated with the filled payloads of the missing ids, or the exception
    * of the fill. */
  function MultipleDetails(e: Entries, codec: JsonCodec, st: AccountStore, accountData: KeyTemplate, ids: seq<int>)
    : Result<map<string, Json>>
  {
    match MissingDetails(codec, st, MissingAccountIds(e, accountData, ids))
    case Ok(filled) => Ok(Zip(ids, ReadMany(e, IdKeys(accountData, ids))) + filled)
    case Failure(err) => Failure(err)
  }

  /** An id is fetched from the store exactly when its cached value is falsy. */
  lemma MissingAccountIdsMembers(e: Entries, accountData: KeyTemplate, ids: seq<int>, x: int)
    ensures x in MissingAccountIds(e, accountData, ids)
      <==> exists i :: 0 <= i < |ids| && !Truthy(ReadJson(e, Key(accountData, IntStr(ids[i])))) && ids[i] == x
  {
    MissingAtMembers(ReadMany(e, IdKeys(accountData, ids)), ids, x);
  }

  /** The call raises exactly when the fill of the missing ids raises. Otherwise every
    * requested id has an entry; an id the store did not return keeps its cached value
    * (a hit, or the falsy value of a miss); a fetched id gets its filled payload. */
  lemma MultipleDetailsEntries(e: Entries, codec: JsonCodec, st: AccountStore, accountData: KeyTemplate, ids: seq<int>)
    ensures var r := MultipleDetails(e, codec, st, accountData, ids);
      var fill := MissingDetails(codec, st, MissingAccountIds(e, accountData, ids));
      (r.Failure? <==> fill.Failure?)
      && (r.Ok? ==>
            (forall i :: 0 <= i < |ids| ==> IntStr(ids[i]) in r.value)
            && (forall i :: 0 <= i < |ids| && IntStr(ids[i]) !in fill.value ==>
                  (r.value[IntStr(ids[i])] == ReadJson(e, Key(accountData, IntStr(ids[i])))))
            && (forall k :: k in fill.value ==> k in r.value && r.value[k] == fill.value[k])
            && (forall k :: k in r.value ==> k in fill.value || exists i :: 0 <= i < |ids| && IntStr(ids[i]) == k))
  {
    var fill := MissingDetails(codec, st, MissingAccountIds(e, accountData, ids));
    if fill.Ok? {
      MergeEntries(ids, ReadMany(e, IdKeys(accountData, ids)), fill.value);
    }
  }

  /** `ManageAccount.get_multiple_account_details`. */
  method GetMultipleAccountDetails(net: Network, codec: JsonCodec, st: AccountStore, accountData: KeyTemplate, ids: seq<int>)
    returns (r: Result<map<string, Json>>)
    modifies net
    ensures r == MultipleDetails(old(net.entries), codec, st, accountData, ids)
    ensures net.trace == old(net.trace) + [CacheOp(JsonMGet(IdKeys(accountData, ids)))]
      + MissingEvents(codec, st, accountData, MissingAccountIds(old(net.entries), accountData, ids))
    ensures net.entries == Run(old(net.entries), MissingEvents(codec, st, accountData, MissingAccountIds(old(net.entries), accountData, ids)))
  {
    var keys := IdKeys(accountData, ids);
    var vs := net.GetMultiple(keys);
    var details := Zip(ids, vs);
    var missing := MissingAt(vs, ids);
    var filled := HandleMissingAccountDetails(net, codec, st, accountData, missing);
    match filled
    case Ok(f) => r := Ok(details + f);
    case Failure(err) => r := Failure(err);
  }

  /** `GetAccountDetails.get_account_bots`: the ids of the account's bots of the given types. */
  method GetAccountBots(net: Network, accountBots: (Json, Json) -> seq<BotRow>, accountId: Json, botType: Json)
    returns (ids: seq<int>)
    modifies net
    ensures ids == MapSeq(accountBots(accountId, botType), (b: BotRow) => b.id)
    ensures net.entries == old(net.entries)
    ensures net.trace == old(net.trace) + [StoreQuery(map["account_id" := Value(accountId), "bot_type" := Value(botType)])]
  {
    net.Perform(StoreQuery(map["account_id" := Value(accountId), "bot_type" := Value(botType)]));
    var rows := accountBots(accountId, botType);
    ids := seq(|rows|, i requires 0 <= i < |rows| => rows[i].id);
  }

  /** `{str(account_id): [] for account_id in account_ids}`. */
  function EmptyLists(ids: seq<int>): (m: map<string, seq<string>>)
    ensures forall k :: k in m <==> exists i :: 0 <= i < |ids| && IntStr(ids[i]) == k
    ensures forall k :: k in m ==> m[k] == []
  {
    map i | 0 <= i < |ids| :: IntStr(ids[i]) := []
  }

  /** `get_multiple_account_bots`' mapping. */
  function MultipleAccountBots(ids: seq<int>, rows: seq<BotRow>): map<string, seq<string>> {
    Append(EmptyLists(ids), rows, BotAccountKey, BotIdStr)
  }

  /** Every requested account has an entry, empty when it has no bot; an account's
    * list is its bots' ids in row order. */
  lemma MultipleAccountBotsEntries(ids: seq<int>, rows: seq<BotRow>)
    ensures forall i :: 0 <= i < |ids| ==> IntStr(ids[i]) in MultipleAccountBots(ids, rows)
    ensures forall k :: Lookup(MultipleAccountBots(ids, rows), k) == MapSeq(Select(rows, BotAccountKey, k), BotIdStr)
  {
    forall k
      ensures (k in EmptyLists(ids) ==> k in MultipleAccountBots(ids, rows))
      ensures Lookup(MultipleAccountBots(ids, rows), k) == MapSeq(Select(rows, BotAccountKey, k), BotIdStr)
    {
      AppendSelect(EmptyLists(ids), rows, BotAccountKey, BotIdStr, k);
    }
  }

  /** `ManageAccount.get_multiple_account_bots`: one store query and the mapping loop. */
  method GetMultipleAccountBots(net: Network, accountBots: (seq<Json>, Json) -> seq<BotRow>, ids: seq<int>, botType: Json)
    returns (m: map<string, seq<string>>)
    modifies net
    ensures m == MultipleAccountBots(ids, accountBots(IdArgs(ids), botType))
    ensures net.entries == old(net.entries)
    ensures net.trace == old(net.trace) + [BatchQuery(IdArgs(ids))]
  {
    net.Perform(BatchQuery(IdArgs(ids)));
    var rows := accountBots(IdArgs(ids), botType);
    m := AppendLoop(EmptyLists(ids), rows, BotAccountKey, BotIdStr);
  }

  /** `get_account_total_visitor_count`: the count the store reports. */
  method GetAccountTotalVisitorCount(net: Network, count: Json -> int, accountId: Json) returns (n: int)
    modifies net
    ensures n == count(accountId)
    ensures net.entries == old(net.entries)
    ensures net.trace == old(net.trace) + [CountQuery(accountId)]
  {
    net.Perform(CountQuery(accountId));
    n := count(accountId);
  }

  /** The account's outbound allowance row: its `config` column and its period. */
  datatype TotalBalance = TotalBalance(config: Json, startAt: Json, endAt: Json)

  /** The store's allowance row and the search index's count of outbound messages used
    * in a period. */
  datatype BalanceSources = BalanceSources(total: Json -> Option<TotalBalance>, used: (Json, Json, Json) -> int)

  /** `GetOutboundMessagesRemainingBalance.get_data_from_elasticsearch`: the used count
    * when the store found the allowance, `{}` otherwise. */
  function UsedFromSearch(src: BalanceSources, kw: Kwargs, d: Option<TotalBalance>): (es: Json)
    ensures d.None? ==> es == Empty
    ensures d.Some? ==> es == JObj(map["used_outbound_messages" := JInt(src.used(Kw(kw, "account_id"), d.value.startAt, d.value.endAt))])
  {
    if d.Some? then JObj(map["used_outbound_messages" := JInt(src.used(Kw(kw, "account_id"), d.value.startAt, d.value.endAt))])
    else Empty
  }

  /** `config.get("max_outbound_messages", 0)` as a number Python can subtract from:
    * None when `config` is not a dict (the `.get` raises AttributeError) or when the
    * value is neither an int nor a bool (the subtraction raises TypeError). */
  function MaxOutbound(config: Json): (r: Option<int>)
    ensures r.Some? <==> config.JObj? && ("max_outbound_messages" in config.fields ==>
              config.fields["max_outbound_messages"].JInt? || config.fields["max_outbound_messages"].JBool?)
    ensures config.JObj? && "max_outbound_messages" !in config.fields ==> r == Some(0)
    ensures config.JObj? && "max_outbound_messages" in config.fields && config.fields["max_outbound_messages"].JInt?
            ==> r == Some(config.fields["max_outbound_messages"].i)
  {
    if !config.JObj? then None
    else
      match GetOr(config, "max_outbound_messages", JInt(0))
      case JInt(i) => Some(i)
      case JBool(b) => Some(if b then 1 else 0)
      case _ => None
  }

  /** The exception `prepare_sync_payload` raises for an allowance row, if any. */
  function RemainingError(d: Option<TotalBalance>): Option<string> {
    if d.None? then None
    else if !d.value.config.JObj? then Some("AttributeError")
    else if MaxOutbound(d.value.config).None? then Some("TypeError")
    else None
  }

  /** `prepare_sync_payload`: `str(max_outbound_messages - used_outbound_messages)`, each
    * 0 when absent, for a row it does not raise on. */
  function RemainingPayload(d: Option<TotalBalance>, es: Json): Json {
    var max := if d.Some? && MaxOutbound(d.value.config).Some? then MaxOutbound(d.value.config).value else 0;
    var u := GetOr(es, "used_outbound_messages", JInt(0));
    JStr(IntStr(max - (if u.JInt? then u.i else 0)))
  }

  function RemainingGetter(src: BalanceSources): Getter<Option<TotalBalance>> {
    Getter((kw: Kwargs) => src.total(Kw(kw, "account_id")), (d: Option<TotalBalance>) => d.Some?,
           (kw: Kwargs, d: Option<TotalBalance>) => UsedFromSearch(src, kw, d),
           (d: Option<TotalBalance>, es: Json, kw: Kwargs) => RemainingPayload(d, es))
  }

  /** The same Getter with the exceptions of its shaper; the store lookup never raises. */
  function RemainingRaising(src: BalanceSources): Raising<Option<TotalBalance>> {
    Raising(RemainingGetter(src), (kw: Kwargs) => None,
            (d: Option<TotalBalance>, es: Json, kw: Kwargs) => RemainingError(d))
  }

  /** Without an allowance row the fill answers `{}` after its two queries, and writes nothing. */
  lemma RemainingNotFound(e: Entries, src: BalanceSources, key: string, id: int)
    requires !Truthy(ReadScalar(e, key)) && src.total(JInt(id)).None?
    ensures var first := ReadThroughOutcome(e, StringRead, key, RemainingRaising(src), AccountArgs(id));
      first.result == Ok(Empty) && |first.events| == 3 && Run(e, first.events) == e
  {
    var g, kw := RemainingGetter(src), AccountArgs(id);
    assert Kw(kw, "account_id") == JInt(id);
    assert g.fromSql(kw).None?;
    assert g.fromSearch(kw, g.fromSql(kw)) == Empty;
    SyncNotFound(g, key, kw);
    ReadThroughMiss(e, StringRead, key, g, kw);
    ReadThroughRaises(e, StringRead, key, RemainingRaising(src), kw);
    RunWithoutWrites(e, ReadThroughOutcome(e, StringRead, key, RemainingRaising(src), kw).events);
  }

  /** With an allowance row the fill answers the decimal string of allowance minus
    * usage; a `config` that is not a dict raises AttributeError, a maximum that is
    * neither an int nor a bool (a stored null, say) raises TypeError. */
  lemma RemainingFound(src: BalanceSources, key: string, id: int)
    requires src.total(JInt(id)).Some?
    ensures var t := src.total(JInt(id)).value;
      var o := SyncOutcome(RemainingRaising(src), key, AccountArgs(id));
      (MaxOutbound(t.config).Some? ==>
         o.result == Ok(JStr(IntStr(MaxOutbound(t.config).value - src.used(JInt(id), t.startAt, t.endAt)))))
      && (!t.config.JObj? ==> o.result == Failure("AttributeError"))
      && (t.config.JObj? && MaxOutbound(t.config).None? ==> o.result == Failure("TypeError"))
  {
    var g, kw := RemainingGetter(src), AccountArgs(id);
    assert Kw(kw, "account_id") == JInt(id);
    var t := src.total(JInt(id)).value;
    var used := src.used(JInt(id), t.startAt, t.endAt);
    assert g.fromSql(kw) == Some(t);
    assert g.fromSearch(kw, Some(t)) == JObj(map["used_outbound_messages" := JInt(used)]);
    SyncFound(g, key, kw);
  }

  /** With a usable allowance, the fill caches the decimal string of allowance minus
    * usage, which the next GET serves; with an unusable one the call raises and
    * writes nothing; without one, `{}` and no write. */
  lemma RemainingBalance(e: Entries, src: BalanceSources, key: string, id: int)
    requires !Truthy(ReadScalar(e, key))
    ensures var first := ReadThroughOutcome(e, StringRead, key, RemainingRaising(src), AccountArgs(id));
      var t := src.total(JInt(id));
      (t.None? ==> first.result == Ok(Empty) && Run(e, first.events) == e)
      && (t.Some? && MaxOutbound(t.value.config).Some? ==>
            first.result == Ok(JStr(IntStr(MaxOutbound(t.value.config).value
                                           - src.used(JInt(id), t.value.startAt, t.value.endAt))))
            && ReadThroughOutcome(Run(e, first.events), StringRead, key, RemainingRaising(src), AccountArgs(id))
               == Outcome(first.result, [CacheOp(StrGet(key))]))
      && (t.Some? && MaxOutbound(t.value.config).None? ==> first.result.Failure? && Run(e, first.events) == e)
  {
    var r, kw := RemainingRaising(src), AccountArgs(id);
    var t := src.total(JInt(id));
    ReadThroughRaises(e, StringRead, key, r, kw);
    if t.Some? {
      RemainingFound(src, key, id);
      var m := MaxOutbound(t.value.config);
      if m.Some? {
        IntStrSign(m.value - src.used(JInt(id), t.value.startAt, t.value.endAt));
        ReadThroughFillThenHit(e, StringRead, key, r.g, kw);
        var first := ReadThroughOutcome(e, StringRead, key, r, kw);
        ReadThroughHit(Run(e, first.events), StringRead, key, r.g, kw);
      }
    } else {
      RemainingNotFound(e, src, key, id);
    }
  }

  /** `ManageAccount.get_outbound_messages_remaining_balance`: GET on
    * OUTBOUND_REMAINING_BALANCE(account_id), filled on a miss. */
  method GetOutboundMessagesRemainingBalance(net: Network, src: BalanceSources, template: KeyTemplate, id: int)
    returns (r: Result<Json>)
    modifies net
    ensures var o := ReadThroughOutcome(old(net.entries), StringRead, Key(template, IntStr(id)), RemainingRaising(src), AccountArgs(id));
      r == o.result && net.trace == old(net.trace) + o.events && net.entries == Run(old(net.entries), o.events)
  {
    r := ReadThroughRaising(net, StringRead, Key(template, IntStr(id)), RemainingRaising(src), AccountArgs(id));
  }

  /** `GetAccountIdFromKey.get_account_id_from_account_key`: GET on
    * ACCOUNT_KEY_ID_MAPPING(account_key), `int()` on a hit, the sync result on a miss. */
  method GetAccountIdFromAccountKey(net: Network, accountIdOf: Json -> Json, template: KeyTemplate, accountKey: string)
    returns (r: Result<Json>)
    modifies net
    ensures r == IdFromKeySpec(old(net.entries), Key(template, accountKey), accountIdOf, "account_key", JStr(accountKey))
    ensures var s := SyncSpec(IdGetter(accountIdOf, "account_key"), Key(template, accountKey), LookupArgs("account_key", JStr(accountKey)));
      var events := if Truthy(ReadScalar(old(net.entries), Key(template, accountKey))) then [] else s.events;
      net.trace == old(net.trace) + [CacheOp(StrGet(Key(template, accountKey)))] + events
      && net.entries == Run(old(net.entries), events)
  {
    r := GetIdByKey(net, accountIdOf, "account_key", Key(template, accountKey), JStr(accountKey));
  }
}
