/** Agents: the agent-details and agent-roles read-throughs, the multi-agent batch
  * fill, and the user preference and notification lookups. */
module Agent {
  import opened Json
  import opened Cache
  import opened Handler
  import opened Batch
  import opened CommonUtility

  /** An agent row of the details query and of the batched query. */
  datatype AgentRow = AgentRow(id: int, email: Json, firstName: Option<string>, lastName: Option<string>,
                               imageName: Json, userTypeId: Json)

  /** One role row: the agent's role on a bot of an account. */
  datatype RoleRow = RoleRow(botId: int, accountId: int, role: Json)

  /** One notification-preference row. */
  datatype PreferenceRow = PreferenceRow(userId: Json, notificationEvents: Json)

  /** The store as the agent Getters see it. `status` gives the agent's
    * `user_status_master_id` when the agent has a status row; `preferences` gives the
    * `preferences` column of the user's preference row. */
  datatype AgentStore = AgentStore(
    details: Json -> Option<AgentRow>,
    roles: Json -> seq<RoleRow>,
    status: Json -> Option<Json>,
    multiple: seq<Json> -> seq<AgentRow>,
    preferences: Json -> Option<Json>,
    notificationPreferences: seq<int> -> seq<PreferenceRow>,
    notificationTokens: (seq<int>, Json) -> seq<Json>)

  /** The fields of `AgentTrackingFields` the roles payload uses: the status and access
    * keys and the bot and account id templates. */
  datatype TrackingFields = TrackingFields(statusId: string, access: string, botId: KeyTemplate, accountId: KeyTemplate)

  /** The keys both agent payload builders set. */
  const AgentPayloadKeys: set<string> := {"email", "id", "first_name", "last_name", "image_name", "user_type_id"}

  /** The payload of `GetAgentDetails` and of `GetMultipleAgentDetails`, which build the
    * same dict. */
  function AgentPayload(a: AgentRow): (p: Json)
    ensures p.JObj? && Truthy(p)
  {
    JObj(map["email" := a.email, "id" := JInt(a.id), "first_name" := JStr(OrEmpty(a.firstName)),
             "last_name" := JStr(OrEmpty(a.lastName)), "image_name" := a.imageName, "user_type_id" := a.userTypeId])
  }

  /** A missing first or last name becomes "", and the other fields are copied from the
    * row, the master user type under `user_type_id`. */
  lemma AgentPayloadFields(a: AgentRow)
    ensures var p := AgentPayload(a);
      p.fields.Keys == AgentPayloadKeys
      && p.fields["first_name"] == JStr(if a.firstName.Some? then a.firstName.value else "")
      && p.fields["last_name"] == JStr(if a.lastName.Some? then a.lastName.value else "")
      && p.fields["email"] == a.email && p.fields["id"] == JInt(a.id)
      && p.fields["image_name"] == a.imageName && p.fields["user_type_id"] == a.userTypeId
  {
  }

  function AgentArgs(agentId: int): Kwargs {
    map["agent_id" := Value(JInt(agentId))]
  }

  /** `GetAgentDetails`: found when the agent row exists; no search-index data. */
  function AgentGetter(st: AgentStore): Getter<Option<AgentRow>> {
    Getter((kw: Kwargs) => st.details(Kw(kw, "agent_id")), (d: Option<AgentRow>) => d.Some?,
           EmptySearch(), (d: Option<AgentRow>, es: Json, kw: Kwargs) => if d.Some? then AgentPayload(d.value) else JNull)
  }

  /** An existing agent is cached by the first miss and served from the cache on the
    * next call; a missing agent gives `{}` and writes nothing. */
  lemma AgentCached(e: Entries, st: AgentStore, key: string, agentId: int)
    requires !Truthy(ReadJson(e, key))
    ensures var first := ReadThroughSpec(e, JsonRead, key, AgentGetter(st), AgentArgs(agentId));
      (st.details(JInt(agentId)).None? ==> first.result == Empty && Run(e, first.events) == e)
      && (st.details(JInt(agentId)).Some? ==>
            first.result == AgentPayload(st.details(JInt(agentId)).value)
            && ReadThroughSpec(Run(e, first.events), JsonRead, key, AgentGetter(st), AgentArgs(agentId))
               == Sync(first.result, [CacheOp(JsonGet(key))]))
  {
    assert Kw(AgentArgs(agentId), "agent_id") == JInt(agentId);
    var first := ReadThroughSpec(e, JsonRead, key, AgentGetter(st), AgentArgs(agentId));
    if st.details(JInt(agentId)).None? {
      assert first.events == [CacheOp(JsonGet(key)), StoreQuery(AgentArgs(agentId)), SearchQuery(AgentArgs(agentId))];
      RunWithoutWrites(e, first.events);
    } else {
      ReadThroughFillThenHit(e, JsonRead, key, AgentGetter(st), AgentArgs(agentId));
    }
  }

  /** `ManageAgent.get_agent_details`: GET_JSON on AGENT_DATA(agent_id), filled on a miss. */
  method GetAgentDetails(net: Network, st: AgentStore, agentData: KeyTemplate, agentId: int) returns (r: Json)
    modifies net
    ensures var spec := ReadThroughSpec(old(net.entries), JsonRead, Key(agentData, IntStr(agentId)), AgentGetter(st), AgentArgs(agentId));
      r == spec.result && net.trace == old(net.trace) + spec.events && net.entries == Run(old(net.entries), spec.events)
  {
    r := ReadThrough(net, JsonRead, Key(agentData, IntStr(agentId)), AgentGetter(st), AgentArgs(agentId));
  }

  /** What `GetAgentRoles.get_data_from_sql` returns when the agent has both roles and a status. */
  datatype RolesData = RolesData(roles: seq<RoleRow>, status: Json)

  /** `GetAgentRoles.get_data_from_sql`. */
  function RolesFromSql(st: AgentStore, agentId: Json): (r: Option<RolesData>)
    ensures r.Some? <==> |st.roles(agentId)| > 0 && st.status(agentId).Some?
    ensures r.Some? ==> r.value == RolesData(st.roles(agentId), st.status(agentId).value)
  {
    if st.status(agentId).Some? && |st.roles(agentId)| > 0 then Some(RolesData(st.roles(agentId), st.status(agentId).value))
    else None
  }

  function RoleEntry(r: RoleRow): Json {
    JObj(map["role" := r.role])
  }

  function RoleAccountKey(f: TrackingFields): RoleRow -> string {
    (r: RoleRow) => Key(f.accountId, IntStr(r.accountId))
  }

  function RoleBotKey(f: TrackingFields): RoleRow -> string {
    (r: RoleRow) => Key(f.botId, IntStr(r.botId))
  }

  /** The accounts map of the roles payload: a role per formatted account id, a later row winning. */
  function AccountRoles(f: TrackingFields, rows: seq<RoleRow>): map<string, Json> {
    Assign(rows, RoleAccountKey(f), RoleEntry)
  }

  /** `GetAgentRoles.prepare_sync_payload`'s result. */
  function RolesPayload(f: TrackingFields, d: RolesData): (p: Json)
    ensures p.JObj? && Truthy(p)
  {
    JObj(map[f.statusId := d.status, f.access := JObj(map["accounts" := JObj(AccountRoles(f, d.roles))])])
  }

  /** `GetAgentRoles.prepare_sync_payload`: the loop fills a bots map and an accounts
    * map; only the accounts map reaches the payload. */
  method PrepareRolesPayload(f: TrackingFields, d: RolesData) returns (p: Json)
    ensures p == RolesPayload(f, d)
  {
    var bots: map<string, Json> := map[];
    var accounts: map<string, Json> := map[];
    var i := 0;
    while i < |d.roles|
      invariant 0 <= i <= |d.roles|
      invariant bots == Assign(d.roles[..i], RoleBotKey(f), RoleEntry)
      invariant accounts == Assign(d.roles[..i], RoleAccountKey(f), RoleEntry)
    {
      assert d.roles[..i + 1][..i] == d.roles[..i];
      var item := d.roles[i];
      bots := bots[Key(f.botId, IntStr(item.botId)) := JObj(map["role" := item.role])];
      accounts := accounts[Key(f.accountId, IntStr(item.accountId)) := JObj(map["role" := item.role])];
      i := i + 1;
    }
    assert d.roles[..i] == d.roles;
    p := JObj(map[f.statusId := d.status, f.access := JObj(map["accounts" := JObj(accounts)])]);
  }

  /** The roles payload holds only the status and the access entry; the accounts map has
    * exactly one entry per account of the rows, holding the role of that account's last row. */
  lemma RolesPayloadFields(f: TrackingFields, d: RolesData)
    requires f.statusId != f.access
    ensures var p := RolesPayload(f, d);
      p.fields.Keys == {f.statusId, f.access}
      && p.fields[f.statusId] == d.status
      && p.fields[f.access] == JObj(map["accounts" := JObj(AccountRoles(f, d.roles))])
    ensures forall k :: k in AccountRoles(f, d.roles) <==> exists i :: 0 <= i < |d.roles| && Key(f.accountId, IntStr(d.roles[i].accountId)) == k
    ensures forall i :: 0 <= i < |d.roles| && (forall j :: i < j < |d.roles| ==> d.roles[j].accountId != d.roles[i].accountId) ==>
      AccountRoles(f, d.roles)[Key(f.accountId, IntStr(d.roles[i].accountId))] == JObj(map["role" := d.roles[i].role])
  {
    var rows := d.roles;
    AssignAll(rows, RoleAccountKey(f), RoleEntry);
    forall i | 0 <= i < |rows| && (forall j :: i < j < |rows| ==> rows[j].accountId != rows[i].accountId)
      ensures AccountRoles(f, rows)[Key(f.accountId, IntStr(rows[i].accountId))] == JObj(map["role" := rows[i].role])
    {
      forall j | i < j < |rows|
        ensures RoleAccountKey(f)(rows[j]) != RoleAccountKey(f)(rows[i])
      {
        KeyInjective(f.accountId, IntStr(rows[j].accountId), IntStr(rows[i].accountId));
        IntStrInjective(rows[j].accountId, rows[i].accountId);
      }
      assert IsLast(rows, RoleAccountKey(f), RoleAccountKey(f)(rows[i]), i);
    }
  }

  /** `GetAgentRoles`: found only with both roles and a status; no search-index data. */
  function RolesGetter(st: AgentStore, f: TrackingFields): Getter<Option<RolesData>> {
    Getter((kw: Kwargs) => RolesFromSql(st, Kw(kw, "agent_id")), (d: Option<RolesData>) => d.Some?,
           EmptySearch(), (d: Option<RolesData>, es: Json, kw: Kwargs) => if d.Some? then RolesPayload(f, d.value) else JNull)
  }

  /** Roles are cached by the first miss and served from the cache next time when the
    * agent has both roles and a status; otherwise the result is `{}` and nothing is written. */
  lemma AgentRolesCached(e: Entries, st: AgentStore, f: TrackingFields, key: string, agentId: int)
    requires !Truthy(ReadJson(e, key))
    ensures var first := ReadThroughSpec(e, JsonRead, key, RolesGetter(st, f), AgentArgs(agentId));
      var id := JInt(agentId);
      (|st.roles(id)| == 0 || st.status(id).None? ==> first.result == Empty && Run(e, first.events) == e)
      && (|st.roles(id)| > 0 && st.status(id).Some? ==>
            first.result == RolesPayload(f, RolesData(st.roles(id), st.status(id).value))
            && ReadThroughSpec(Run(e, first.events), JsonRead, key, RolesGetter(st, f), AgentArgs(agentId))
               == Sync(first.result, [CacheOp(JsonGet(key))]))
  {
    assert Kw(AgentArgs(agentId), "agent_id") == JInt(agentId);
    var first := ReadThroughSpec(e, JsonRead, key, RolesGetter(st, f), AgentArgs(agentId));
    if RolesFromSql(st, JInt(agentId)).None? {
      assert first.events == [CacheOp(JsonGet(key)), StoreQuery(AgentArgs(agentId)), SearchQuery(AgentArgs(agentId))];
      RunWithoutWrites(e, first.events);
    } else {
      ReadThroughFillThenHit(e, JsonRead, key, RolesGetter(st, f), AgentArgs(agentId));
    }
  }

  /** `ManageAgent.get_agent_roles`: GET_JSON on AGENT_ROLE(agent_id), filled on a miss. */
  method GetAgentRoles(net: Network, st: AgentStore, f: TrackingFields, agentRole: KeyTemplate, agentId: int) returns (r: Json)
    modifies net
    ensures var spec := ReadThroughSpec(old(net.entries), JsonRead, Key(agentRole, IntStr(agentId)), RolesGetter(st, f), AgentArgs(agentId));
      r == spec.result && net.trace == old(net.trace) + spec.events && net.entries == Run(old(net.entries), spec.events)
  {
    r := ReadThrough(net, JsonRead, Key(agentRole, IntStr(agentId)), RolesGetter(st, f), AgentArgs(agentId));
  }

  /** The cached agents after `remove_none_from_list`; rebuilding each as a dict fails
    * on a cached value that is not one. */
  function CachedAgents(vs: seq<Json>): (r: Result<seq<Json>>)
    ensures r.Ok? <==> forall a :: a in RemoveNone(vs) ==> a.JObj?
    ensures r.Ok? ==> r.value == RemoveNone(vs)
  {
    if forall a :: a in RemoveNone(vs) ==> a.JObj? then Ok(RemoveNone(vs)) else Failure("AttributeError: items")
  }

  predicate HasId(a: Json) {
    a.JObj? && "id" in a.fields
  }

  /** `set(agent_ids) - set(available_agent_ids)` listed in first-occurrence order. */
  function Unseen(ids: seq<int>, available: set<Json>): seq<int>
    decreases |ids|
  {
    if |ids| == 0 then []
    else
      var init := Unseen(ids[..|ids| - 1], available);
      var x := ids[|ids| - 1];
      if x in init || JInt(x) in available then init else init + [x]
  }

  /** The listed ids are exactly the requested ids without an available id, each once. */
  lemma {:induction false} UnseenMembers(ids: seq<int>, available: set<Json>)
    ensures forall x :: x in Unseen(ids, available) <==> x in ids && JInt(x) !in available
    ensures forall i, j :: 0 <= i < j < |Unseen(ids, available)| ==> Unseen(ids, available)[i] != Unseen(ids, available)[j]
    decreases |ids|
  {
    if |ids| > 0 {
      var init := ids[..|ids| - 1];
      UnseenMembers(init, available);
      assert ids == init + [ids[|ids| - 1]];
    }
  }

  /** `get_missing_agent_ids`: nothing when every requested agent came back; otherwise
    * the requested ids no cached agent carries as its `id`, reading `id` from each
    * cached agent (a KeyError when one has none). */
  function MissingAgentIds(data: seq<Json>, ids: seq<int>): (r: Result<seq<int>>)
    ensures |data| == |ids| ==> r == Ok([])
    ensures |data| != |ids| ==> (r.Ok? <==> forall a :: a in data ==> HasId(a))
  {
    if |data| == |ids| then Ok([])
    else if forall a :: a in data ==> HasId(a) then Ok(Unseen(ids, set a | a in data && HasId(a) :: a.fields["id"]))
    else Failure("KeyError: 'id'")
  }

  /** When the counts differ, an id is listed (once) exactly when it was requested and no
    * cached agent has it as its `id`. */
  lemma MissingAgentIdsMembers(data: seq<Json>, ids: seq<int>)
    requires |data| != |ids| && MissingAgentIds(data, ids).Ok?
    ensures var m := MissingAgentIds(data, ids).value;
      (forall x :: x in m <==> (x in ids && forall a :: a in data ==> a.fields["id"] != JInt(x)))
      && (forall i, j :: 0 <= i < j < |m| ==> m[i] != m[j])
  {
    var available := set a | a in data && HasId(a) :: a.fields["id"];
    UnseenMembers(ids, available);
    forall x
      ensures JInt(x) in available <==> exists a :: a in data && a.fields["id"] == JInt(x)
    {
      if exists a :: a in data && a.fields["id"] == JInt(x) {
        var a :| a in data && a.fields["id"] == JInt(x);
        assert a.fields["id"] in available;
      }
    }
  }

  function AgentIdArgs(ids: seq<int>): seq<Json> {
    MapSeq(ids, (i: int) => JInt(i))
  }

  function AgentCacheKey(agentData: KeyTemplate): AgentRow -> string {
    (a: AgentRow) => Key(agentData, IntStr(a.id))
  }

  /** `handle_missing_agents`' result: the payloads of the fetched rows, in row order. */
  function MissingAgents(st: AgentStore, missing: seq<int>): (r: seq<Json>)
    ensures missing == [] ==> r == []
  {
    if |missing| == 0 then [] else MapSeq(st.multiple(AgentIdArgs(missing)), AgentPayload)
  }

  /** The calls `handle_missing_agents` makes: none for no ids; otherwise one batched
    * query and one SET_JSON per fetched row, under that row's AGENT_DATA key. */
  function MissingAgentEvents(st: AgentStore, agentData: KeyTemplate, missing: seq<int>): seq<Event> {
    if |missing| == 0 then []
    else [BatchQuery(AgentIdArgs(missing))] + RowWrites(st.multiple(AgentIdArgs(missing)), AgentCacheKey(agentData), AgentPayload)
  }

  /** The non-empty case of `handle_missing_agents`. */
  method FetchAndCacheAgents(net: Network, st: AgentStore, agentData: KeyTemplate, ids: seq<Json>)
    returns (ps: seq<Json>)
    modifies net
    ensures ps == MapSeq(st.multiple(ids), AgentPayload)
    ensures net.trace == old(net.trace) + ([BatchQuery(ids)] + RowWrites(st.multiple(ids), AgentCacheKey(agentData), AgentPayload))
    ensures net.entries == Run(old(net.entries), [BatchQuery(ids)] + RowWrites(st.multiple(ids), AgentCacheKey(agentData), AgentPayload))
  {
    ghost var e0 := net.entries;
    ghost var t0 := net.trace;
    net.Perform(BatchQuery(ids));
    RunOne(e0, BatchQuery(ids));
    var rows := st.multiple(ids);
    ps := CacheRowsInOrder(net, rows, AgentCacheKey(agentData), AgentPayload);
    ghost var w := RowWrites(rows, AgentCacheKey(agentData), AgentPayload);
    RunAppend(e0, [BatchQuery(ids)], w);
    AppendAssoc(t0, [BatchQuery(ids)], w);
  }

  /** `GetMultipleAgentDetails.handle_missing_agents`. */
  method HandleMissingAgents(net: Network, st: AgentStore, agentData: KeyTemplate, missing: seq<int>)
    returns (ps: seq<Json>)
    modifies net
    ensures ps == MissingAgents(st, missing)
    ensures net.trace == old(net.trace) + MissingAgentEvents(st, agentData, missing)
    ensures net.entries == Run(old(net.entries), MissingAgentEvents(st, agentData, missing))
  {
    if |missing| == 0 {
      ps := [];
      assert Run(net.entries, []) == net.entries;
    } else {
      ps := FetchAndCacheAgents(net, st, agentData, AgentIdArgs(missing));
    }
  }

  /** `ManageAgent.get_multiple_agent_details`' result: the cached agents followed by the
    * fetched ones, or the error raised on the way. */
  function MultipleAgents(e: Entries, st: AgentStore, agentData: KeyTemplate, ids: seq<int>): Result<seq<Json>> {
    match CachedAgents(ReadMany(e, IdKeys(agentData, ids)))
    case Failure(err) => Failure(err)
    case Ok(data) =>
      match MissingAgentIds(data, ids)
      case Failure(err) => Failure(err)
      case Ok(missing) => Ok(data + MissingAgents(st, missing))
  }

  /** The calls after the multi-get: those of `handle_missing_agents`, unless an error
    * was raised before it. */
  function MultipleAgentFills(e: Entries, st: AgentStore, agentData: KeyTemplate, ids: seq<int>): seq<Event> {
    match CachedAgents(ReadMany(e, IdKeys(agentData, ids)))
    case Failure(_) => []
    case Ok(data) =>
      match MissingAgentIds(data, ids)
      case Failure(_) => []
      case Ok(missing) => MissingAgentEvents(st, agentData, missing)
  }

  /** `ManageAgent.get_multiple_agent_details`. */
  method GetMultipleAgentDetails(net: Network, st: AgentStore, agentData: KeyTemplate, ids: seq<int>)
    returns (r: Result<seq<Json>>)
    modifies net
    ensures r == MultipleAgents(old(net.entries), st, agentData, ids)
    ensures net.trace == old(net.trace) + [CacheOp(JsonMGet(IdKeys(agentData, ids)))] + MultipleAgentFills(old(net.entries), st, agentData, ids)
    ensures net.entries == Run(old(net.entries), MultipleAgentFills(old(net.entries), st, agentData, ids))
  {
    var vs := net.GetMultiple(IdKeys(agentData, ids));
    var cached := CachedAgents(vs);
    if cached.Failure? {
      r := Failure(cached.error);
      assert Run(net.entries, []) == net.entries;
      return;
    }
    var missing := MissingAgentIds(cached.value, ids);
    if missing.Failure? {
      r := Failure(missing.error);
      assert Run(net.entries, []) == net.entries;
      return;
    }
    var fetched := HandleMissingAgents(net, st, agentData, missing.value);
    r := Ok(cached.value + fetched);
  }

  /** When every requested agent is cached as a dict, the result is the cached list and
    * neither the store nor the cache is touched again. */
  lemma AllAgentsCached(e: Entries, st: AgentStore, agentData: KeyTemplate, ids: seq<int>)
    requires forall i :: 0 <= i < |ids| ==> ReadJson(e, Key(agentData, IntStr(ids[i]))).JObj?
    ensures MultipleAgents(e, st, agentData, ids) == Ok(ReadMany(e, IdKeys(agentData, ids)))
    ensures MultipleAgentFills(e, st, agentData, ids) == []
  {
    var keys := IdKeys(agentData, ids);
    var vs := ReadMany(e, keys);
    assert forall i :: 0 <= i < |vs| ==> vs[i].JObj? by {
      forall i | 0 <= i < |vs| ensures vs[i].JObj? {
        assert vs[i] == ReadJson(e, Key(agentData, IntStr(ids[i])));
      }
    }
    RemoveNoneWithoutNone(vs);
    assert CachedAgents(vs) == Ok(vs);
    assert MissingAgentIds(vs, ids) == Ok([]);
    assert vs + MissingAgents(st, []) == vs;
  }

  /** A non-empty fill writes each fetched row under that row's AGENT_DATA key, after
    * the one batched query. */
  lemma FetchedAgentsWritten(st: AgentStore, agentData: KeyTemplate, missing: seq<int>)
    requires |missing| > 0
    ensures var rows := st.multiple(AgentIdArgs(missing));
      var evs := MissingAgentEvents(st, agentData, missing);
      |evs| == |rows| + 1 && evs[0] == BatchQuery(AgentIdArgs(missing))
      && forall i :: 0 <= i < |rows| ==>
            evs[i + 1] == CacheOp(JsonSet(Key(agentData, IntStr(rows[i].id)), AgentPayload(rows[i])))
  {
    var rows := st.multiple(AgentIdArgs(missing));
    QueryThenWrites(BatchQuery(AgentIdArgs(missing)), rows, AgentCacheKey(agentData), AgentPayload);
  }

  /** When the counts differ and the missing ids are non-empty, the result ends with one
    * payload per fetched row, each also written under that row's AGENT_DATA key. */
  lemma FetchedAgentsCached(e: Entries, st: AgentStore, agentData: KeyTemplate, missing: seq<int>)
    requires |missing| > 0
    ensures var rows := st.multiple(AgentIdArgs(missing));
      var evs := MissingAgentEvents(st, agentData, missing);
      |MissingAgents(st, missing)| == |rows|
      && |evs| == |rows| + 1 && evs[0] == BatchQuery(AgentIdArgs(missing))
      && forall i :: 0 <= i < |rows| ==>
            MissingAgents(st, missing)[i] == AgentPayload(rows[i])
            && evs[i + 1] == CacheOp(JsonSet(Key(agentData, IntStr(rows[i].id)), AgentPayload(rows[i])))
  {
    FetchedAgentsWritten(st, agentData, missing);
  }

  /** `GetUserPreferences`: found when the user has a preference row; the payload is its
    * `preferences` value. */
  function PreferencesGetter(st: AgentStore): Getter<Option<Json>> {
    Getter((kw: Kwargs) => st.preferences(Kw(kw, "user_id")), (d: Option<Json>) => d.Some?,
           EmptySearch(), (d: Option<Json>, es: Json, kw: Kwargs) => if d.Some? then d.value else JNull)
  }

  function UserArgs(userId: int): Kwargs {
    map["user_id" := Value(JInt(userId))]
  }

  /** A user's preferences are written on every miss; they are served from the cache
    * next time only when they form a truthy document. */
  lemma UserPreferencesCaching(e: Entries, st: AgentStore, key: string, userId: int)
    requires !Truthy(ReadJson(e, key)) && st.preferences(JInt(userId)).Some?
    ensures var first := ReadThroughSpec(e, JsonRead, key, PreferencesGetter(st), UserArgs(userId));
      var prefs := st.preferences(JInt(userId)).value;
      first.result == prefs
      && (Truthy(prefs) && !IsScalar(prefs) ==>
            ReadThroughSpec(Run(e, first.events), JsonRead, key, PreferencesGetter(st), UserArgs(userId))
            == Sync(prefs, [CacheOp(JsonGet(key))]))
      && (!Truthy(prefs) || IsScalar(prefs) ==> !Truthy(ReadJson(Run(e, first.events), key)))
  {
    assert Kw(UserArgs(userId), "user_id") == JInt(userId);
    var prefs := st.preferences(JInt(userId)).value;
    if Truthy(prefs) && !IsScalar(prefs) {
      ReadThroughFillThenHit(e, JsonRead, key, PreferencesGetter(st), UserArgs(userId));
    } else {
      ReadThroughNeverHits(e, JsonRead, key, PreferencesGetter(st), UserArgs(userId));
    }
  }

  /** `ManageAgent.get_user_preferences`: GET_JSON on USER_PREFERENCE(user_id), filled on a miss. */
  method GetUserPreferences(net: Network, st: AgentStore, userPreference: KeyTemplate, userId: int) returns (r: Json)
    modifies net
    ensures var spec := ReadThroughSpec(old(net.entries), JsonRead, Key(userPreference, IntStr(userId)), PreferencesGetter(st), UserArgs(userId));
      r == spec.result && net.trace == old(net.trace) + spec.events && net.entries == Run(old(net.entries), spec.events)
  {
    r := ReadThrough(net, JsonRead, Key(userPreference, IntStr(userId)), PreferencesGetter(st), UserArgs(userId));
  }

  function RecipientsArg(recipients: seq<int>): Arg {
    Value(JList(MapSeq(recipients, (i: int) => JInt(i))))
  }

  function PreferenceEntry(p: PreferenceRow): Json {
    JObj(map["user_id" := p.userId, "notification_events" := p.notificationEvents])
  }

  /** The result of `get_user_notification_preferences`: one entry per row, in row order. */
  function NotificationPreferences(rows: seq<PreferenceRow>): (r: Json)
    ensures r.JObj? && r.fields.Keys == {"user_notification_preferences"}
    ensures var l := r.fields["user_notification_preferences"];
      l.JList? && |l.items| == |rows|
      && forall i :: 0 <= i < |rows| ==>
           l.items[i].JObj? && l.items[i].fields.Keys == {"user_id", "notification_events"}
           && l.items[i].fields["user_id"] == rows[i].userId
           && l.items[i].fields["notification_events"] == rows[i].notificationEvents
  {
    JObj(map["user_notification_preferences" := JList(MapSeq(rows, PreferenceEntry))])
  }

  /** `ManageAgent.get_user_notification_preferences`: one store query and no cache call;
    * no rows give an empty list. */
  method GetUserNotificationPreferences(net: Network, st: AgentStore, recipients: seq<int>) returns (r: Json)
    modifies net
    ensures r == NotificationPreferences(st.notificationPreferences(recipients))
    ensures net.entries == old(net.entries)
    ensures net.trace == old(net.trace) + [StoreQuery(map["recipients" := RecipientsArg(recipients)])]
  {
    net.Perform(StoreQuery(map["recipients" := RecipientsArg(recipients)]));
    var rows := st.notificationPreferences(recipients);
    var list: seq<Json> := [];
    if |rows| > 0 {
      list := MapSeq(rows, PreferenceEntry);
    }
    r := JObj(map["user_notification_preferences" := JList(list)]);
  }

  /** The result of `get_user_notification_tokens`: the tokens in row order. */
  function NotificationTokens(tokens: seq<Json>): (r: Json)
    ensures r.JObj? && r.fields.Keys == {"user_notification_tokens"}
    ensures r.fields["user_notification_tokens"] == JList(tokens)
  {
    JObj(map["user_notification_tokens" := JList(tokens)])
  }

  /** `ManageAgent.get_user_notification_tokens`: one store query and no cache call. */
  method GetUserNotificationTokens(net: Network, st: AgentStore, recipients: seq<int>, kind: Json) returns (r: Json)
    modifies net
    ensures r == NotificationTokens(st.notificationTokens(recipients, kind))
    ensures net.entries == old(net.entries)
    ensures net.trace == old(net.trace) + [StoreQuery(map["recipients" := RecipientsArg(recipients), "_type" := Value(kind)])]
  {
    net.Perform(StoreQuery(map["recipients" := RecipientsArg(recipients), "_type" := Value(kind)]));
    var tokens := st.notificationTokens(recipients, kind);
    var list: seq<Json> := [];
    if |tokens| > 0 {
      list := tokens;
    }
    r := JObj(map["user_notification_tokens" := JList(list)]);
  }
}
