/** Visitors: the visitor lookups by visitor key and by external key, the visitor
  * payload built from the store, the search index and the default-name counter, the
  * schema the lookups put on a visitor before returning it, and the default-name
  * counter and series arithmetic. */
module Visitor {
  import opened Json
  import opened Strings
  import opened Cache
  import opened Handler
  import opened Batch
  import opened CommonUtility

  /** A visitor row: the fields the payload copies, and the row's own key, under which
    * the search index is asked. */
  datatype VisitorRow = VisitorRow(id: Json, key: string, externalKey: Json, accountId: int, channelId: Json)

  /** One variable of the search-index hit: its name and its stored fields. */
  datatype EsVariable = EsVariable(name: string, fields: map<string, Json>)

  /** The search-index hit of the visitor's variables: `_source.account_id` and
    * `_source.variables` (None and [] when the hit has no `_source`). */
  datatype EsVariables = EsVariables(accountId: Json, variables: seq<EsVariable>)

  /** One conversation of the summary index, read through `_source`; a missing field is None. */
  datatype Conversation = Conversation(externalKey: Json, botId: Json, threadKey: Json, title: Json)

  /** What the search lookup of the visitor Getter returns when the store found the visitor. */
  datatype VisitorEs = VisitorEs(variables: EsVariables, conversations: seq<Conversation>)

  /** The store, the search index and the variable lookup as the visitor code sees them:
    * the visitor rows by visitor key; the visitor key of an external key; the variables
    * hit and the conversations by the row's key; an account's variables
    * (`ManageVariable().get_variables(account_id) or {}`); the visitor count of an account. */
  datatype VisitorStore = VisitorStore(
    visitors: Json -> seq<VisitorRow>,
    visitorKeys: Json -> Option<string>,
    esVariables: string -> EsVariables,
    conversations: string -> seq<Conversation>,
    accountVariables: Json -> map<string, Json>,
    visitorCount: int -> int)

  /** The names the visitor code takes from enums not part of this model:
    * `VisitorVariablesNameEnum` (the search prefix and the variable pattern),
    * `IgnoreVisitorVariablesEnum`, `SystemVariablesEnum.CONTACT_ID` and its parameter,
    * `VisitorActiveConversationKeyEnum.SUFFIX` (two placeholders), the field each
    * `EsKeysOfVariableMapping` value names, and `VariablesTypeEnum.CONTACT`. */
  datatype VisitorNames = VisitorNames(
    esPrefix: string,
    pattern: KeyTemplate,
    ignored: set<string>,
    contactIdName: string,
    contactIdParameter: string,
    naming: VariableNaming,
    valueField: ValueKey -> string,
    suffix: (Json, Json) -> string,
    contactType: string)

  /** The default-name settings: `MAX_SERIES_NO_FOR_VISITOR_COUNT`, `VISITOR_NAME_PREFIX`,
    * `VISITOR_NAME_SERIES`, `VISITOR_NAME_PATTERN` (prefix, series, sequence) and the
    * VISITOR_DEFAULT_NAME key template. */
  datatype NameConfig = NameConfig(maxCount: int, prefix: Json, series: seq<string>,
                                   pattern: (Json, string, int) -> string, counterKey: KeyTemplate)

  /** The configurations the model covers: a positive maximum and a non-empty series.
    * With a zero maximum Python raises ZeroDivisionError on `%` of a truthy counter,
    * and with an empty series IndexError; a negative maximum raises nothing, but the
    * model does not cover it. */
  predicate ValidNameConfig(cfg: NameConfig) {
    cfg.maxCount > 0 && |cfg.series| > 0
  }

  /** The RedisKeyEnum templates of the visitor lookups. */
  datatype VisitorKeys = VisitorKeys(visitor: KeyTemplate, external: KeyTemplate)

  /** `str()` of a visitor key read back from the cache, as the key templates format it.
    * A string entry holds a str, an int or a bool. */
  function KeyText(v: Json): string {
    match v
    case JStr(s) => s
    case JInt(i) => IntStr(i)
    case JBool(b) => BoolStr(b)
    case _ => ""
  }

  // ---------------------------------------------------------------- default name

  /** The counter and series `get_visitor_pattern` returns. */
  datatype Pattern = Pattern(counter: int, series: string)

  /** `math.ceil(count / max)` for a positive `max`. */
  function CeilDiv(count: int, max: int): (q: int)
    requires max > 0
    ensures (q - 1) * max < count <= q * max
  {
    -((-count) / max)
  }

  /** `VisitorDefaultName.get_visitor_pattern`: a zero or missing count gives the first
    * series; otherwise the counter is `count % max`, with 0 read as `max`, and the
    * series is `VISITOR_NAME_SERIES[(ceil(count / max) % len) - 1]`, where index -1 is
    * the last series. */
  function VisitorPattern(count: Option<int>, max: int, series: seq<string>): (p: Pattern)
    requires max > 0 && |series| > 0
    ensures count.None? || count.value == 0 ==> p == Pattern(1, series[0])
    ensures 1 <= p.counter <= max
    ensures p.series in series
  {
    if count.None? || count.value == 0 then Pattern(1, series[0])
    else
      var c := count.value;
      var counter := if c % max == 0 then max else c % max;
      var index := CeilDiv(c, max) % |series| - 1;
      Pattern(counter, if index < 0 then series[|series| + index] else series[index])
  }

  /** For a nonzero count the counter is `((count - 1) mod max) + 1`, and the series is
    * the `(ceil(count / max) - 1) mod len`-th: the -1 index wraps to the last series. */
  lemma MulAtLeast(d: int, m: int)
    requires d >= 1 && m > 0
    ensures d * m >= m
  {
    assert d * m == (d - 1) * m + m;
  }

  /** Euclidean division is unique: `x == a * m + b` with `0 <= b < m` makes `b` the remainder. */
  lemma ModUnique(x: int, a: int, m: int, b: int)
    requires m > 0 && 0 <= b < m && x == a * m + b
    ensures x % m == b
  {
    var q := x / m;
    var r := x % m;
    assert x == q * m + r && 0 <= r < m;
    assert (q - a) * m == b - r;
    if q - a >= 1 {
      MulAtLeast(q - a, m);
    } else if a - q >= 1 {
      MulAtLeast(a - q, m);
    }
  }

  /** The remainder of the predecessor: one less, or `m - 1` after a multiple of `m`. */
  lemma PredMod(c: int, m: int)
    requires m > 0
    ensures (c - 1) % m == if c % m == 0 then m - 1 else c % m - 1
  {
    var q := c / m;
    if c % m == 0 {
      ModUnique(c - 1, q - 1, m, m - 1);
    } else {
      ModUnique(c - 1, q, m, c % m - 1);
    }
  }

  /** For a nonzero count the counter is `((count - 1) mod max) + 1`, and the series is
    * the `(ceil(count / max) - 1) mod len`-th: the -1 index wraps to the last series. */
  lemma VisitorPatternCycle(count: int, max: int, series: seq<string>)
    requires max > 0 && |series| > 0 && count != 0
    ensures VisitorPattern(Some(count), max, series).counter == (count - 1) % max + 1
    ensures VisitorPattern(Some(count), max, series).series == series[(CeilDiv(count, max) - 1) % |series|]
  {
    PredMod(count, max);
    PredMod(CeilDiv(count, max), |series|);
  }

  /** The counter the INCREMENT_VALUE calls leave, and the calls made. */
  datatype Counted = Counted(count: Option<int>, events: seq<Event>)

  function CounterKey(cfg: NameConfig, accountId: int): string {
    Key(cfg.counterKey, IntStr(accountId))
  }

  function IncrementCall(k: string): Event {
    CacheOp(JsonNumIncrBy(k, "counter", 1))
  }

  function SeedCall(k: string, count: int): Event {
    CacheOp(JsonSetNx(k, JObj(map["counter" := JInt(count)])))
  }

  /** The counter part of `get_default_name_series_and_counter`: increment the account's
    * counter; when that fails, count the account's visitors in the store, seed the
    * counter with SET_JSON_NX and increment once more. The seed is written only to a
    * missing key, so the second increment gives the visitor count plus one exactly
    * when the key was missing, and fails like the first otherwise. */
  function CounterSpec(e: Entries, st: VisitorStore, cfg: NameConfig, accountId: int): Counted {
    var k := CounterKey(cfg, accountId);
    var first := Incremented(e, k, "counter", 1);
    if first.Some? then Counted(first, [IncrementCall(k)])
    else
      Counted(if k in e then None else Some(st.visitorCount(accountId) + 1),
              [IncrementCall(k), CountQuery(JInt(accountId)), SeedCall(k, st.visitorCount(accountId)), IncrementCall(k)])
  }

  /** The failed increment changes nothing, and the seed lands only on a missing key. */
  lemma SeedThenIncrement(e: Entries, k: string, count: int)
    requires Incremented(e, k, "counter", 1).None?
    ensures Step(e, IncrementCall(k)) == e
    ensures Incremented(Step(e, SeedCall(k, count)), k, "counter", 1) == if k in e then None else Some(count + 1)
  {
    if k !in e {
      assert Step(e, SeedCall(k, count))[k] == Document(JObj(map["counter" := JInt(count)]));
    }
  }

  /** The default name and the calls made to build it. */
  datatype Named = Named(name: string, events: seq<Event>)

  /** `VisitorDefaultName.get_default_name`. */
  function DefaultNameSpec(e: Entries, st: VisitorStore, cfg: NameConfig, accountId: int): Named
    requires ValidNameConfig(cfg)
  {
    var c := CounterSpec(e, st, cfg, accountId);
    var p := VisitorPattern(c.count, cfg.maxCount, cfg.series);
    Named(cfg.pattern(cfg.prefix, p.series, p.counter), c.events)
  }

  /** `VisitorDefaultName.get_default_name_series_and_counter`. */
  method SeriesAndCounter(net: Network, st: VisitorStore, cfg: NameConfig, accountId: int) returns (p: Pattern)
    requires ValidNameConfig(cfg)
    modifies net
    ensures p == VisitorPattern(CounterSpec(old(net.entries), st, cfg, accountId).count, cfg.maxCount, cfg.series)
    ensures net.trace == old(net.trace) + CounterSpec(old(net.entries), st, cfg, accountId).events
    ensures net.entries == Run(old(net.entries), CounterSpec(old(net.entries), st, cfg, accountId).events)
  {
    ghost var e0 := net.entries;
    ghost var t0 := net.trace;
    var k := CounterKey(cfg, accountId);
    var counter := net.Increment(k, "counter", 1);
    RunOne(e0, IncrementCall(k));
    if counter.None? {
      ghost var inc := [IncrementCall(k)];
      net.Perform(CountQuery(JInt(accountId)));
      RunSnoc(e0, inc, CountQuery(JInt(accountId)));
      AppendAssoc(t0, inc, [CountQuery(JInt(accountId))]);
      ghost var counted := inc + [CountQuery(JInt(accountId))];
      var count := st.visitorCount(accountId);
      SeedThenIncrement(e0, k, count);
      net.Perform(SeedCall(k, count));
      RunSnoc(e0, counted, SeedCall(k, count));
      AppendAssoc(t0, counted, [SeedCall(k, count)]);
      ghost var seeded := counted + [SeedCall(k, count)];
      counter := net.Increment(k, "counter", 1);
      RunSnoc(e0, seeded, IncrementCall(k));
      AppendAssoc(t0, seeded, [IncrementCall(k)]);
      assert seeded + [IncrementCall(k)] == CounterSpec(e0, st, cfg, accountId).events;
    }
    p := VisitorPattern(counter, cfg.maxCount, cfg.series);
  }

  /** `VisitorDefaultName.get_default_name`. Its series roll-over for a counter above the
    * maximum cannot be taken: the counter never exceeds the maximum. */
  method DefaultName(net: Network, st: VisitorStore, cfg: NameConfig, accountId: int) returns (name: string)
    requires ValidNameConfig(cfg)
    modifies net
    ensures name == DefaultNameSpec(old(net.entries), st, cfg, accountId).name
    ensures net.trace == old(net.trace) + DefaultNameSpec(old(net.entries), st, cfg, accountId).events
    ensures net.entries == Run(old(net.entries), DefaultNameSpec(old(net.entries), st, cfg, accountId).events)
  {
    var p := SeriesAndCounter(net, st, cfg, accountId);
    if p.counter > cfg.maxCount {
      assert false;
    }
    name := cfg.pattern(cfg.prefix, p.series, p.counter);
  }

  // ---------------------------------------------------------------- variables

  /** The name of a visitor variable: it has the search prefix and is not ignored. */
  predicate IsVisitorVariable(names: VisitorNames, name: string) {
    StartsWith(name, names.esPrefix) && name !in names.ignored
  }

  /** The pattern a visitor variable is stored under: the prefix removed, in the pattern. */
  function VariableParameter(names: VisitorNames, name: string): string {
    Key(names.pattern, Replace(name, names.esPrefix, ""))
  }

  /** The variable is kept under some name: as a visitor variable or as the contact id. */
  predicate Relevant(names: VisitorNames, item: EsVariable) {
    IsVisitorVariable(names, item.name) || item.name == names.contactIdName
  }

  /** The variable is stored under `k`. */
  predicate Produces(names: VisitorNames, item: EsVariable, k: string) {
    (IsVisitorVariable(names, item.name) && VariableParameter(names, item.name) == k)
    || (item.name == names.contactIdName && k == names.contactIdParameter)
  }

  /** `GetVisitorByVisitorKey.get_value`: the field the variable's format names, None when
    * there is no such field. */
  function ValueOf(names: VisitorNames, accountVariables: map<string, Json>, item: EsVariable): Result<Json> {
    match GetVariableInfo(names.naming, accountVariables, item.name)
    case Failure(err) => Failure(err)
    case Ok(info) =>
      Ok(if info.valueKey.Some? && names.valueField(info.valueKey.value) in item.fields
         then item.fields[names.valueField(info.valueKey.value)] else JNull)
  }

  function Entry(v: Json): Json {
    JObj(map["value" := v])
  }

  /** One iteration of the filter loop. */
  function FilterStep(names: VisitorNames, accountVariables: map<string, Json>, m: map<string, Json>, item: EsVariable)
    : Result<map<string, Json>>
  {
    if !Relevant(names, item) then Ok(m)
    else match ValueOf(names, accountVariables, item)
      case Failure(err) => Failure(err)
      case Ok(v) =>
        var m1 := if IsVisitorVariable(names, item.name) then m[VariableParameter(names, item.name) := Entry(v)] else m;
        Ok(if item.name == names.contactIdName then m1[names.contactIdParameter := Entry(v)] else m1)
  }

  /** The filter loop of `filter_visitor_variables_from_es_result` over the variables. */
  function FilterVariables(names: VisitorNames, accountVariables: map<string, Json>, items: seq<EsVariable>)
    : Result<map<string, Json>>
    decreases |items|
  {
    if |items| == 0 then Ok(map[])
    else match FilterVariables(names, accountVariables, items[..|items| - 1])
      case Failure(err) => Failure(err)
      case Ok(m) => FilterStep(names, accountVariables, m, items[|items| - 1])
  }

  /** `filter_visitor_variables_from_es_result` on a variables hit. */
  function FilterEsResult(names: VisitorNames, st: VisitorStore, hit: EsVariables): Result<map<string, Json>> {
    FilterVariables(names, st.accountVariables(hit.accountId), hit.variables)
  }

  /** One step of the filter fails exactly on a kept variable whose value cannot be
    * read; otherwise it adds the names the variable is stored under, with its value. */
  lemma FilterStepFacts(names: VisitorNames, av: map<string, Json>, m: map<string, Json>, item: EsVariable)
    ensures FilterStep(names, av, m, item).Failure? <==> Relevant(names, item) && ValueOf(names, av, item).Failure?
    ensures FilterStep(names, av, m, item).Ok? ==>
      var m1 := FilterStep(names, av, m, item).value;
      (forall k :: k in m1 <==> k in m || Produces(names, item, k))
      && (forall k :: k in m1 && Produces(names, item, k) ==>
            ValueOf(names, av, item).Ok? && m1[k] == Entry(ValueOf(names, av, item).value))
      && (forall k :: k in m1 && !Produces(names, item, k) ==> m1[k] == m[k])
  {
  }

  /** The filter fails exactly when reading a kept variable's value fails. */
  lemma {:induction false} FilterVariablesFailure(names: VisitorNames, av: map<string, Json>, items: seq<EsVariable>)
    ensures FilterVariables(names, av, items).Failure? <==>
      exists i :: 0 <= i < |items| && Relevant(names, items[i]) && ValueOf(names, av, items[i]).Failure?
    decreases |items|
  {
    if |items| > 0 {
      var n := |items| - 1;
      var init := items[..n];
      FilterVariablesFailure(names, av, init);
      assert forall i :: 0 <= i < n ==> init[i] == items[i];
      if FilterVariables(names, av, init).Ok? {
        FilterStepFacts(names, av, FilterVariables(names, av, init).value, items[n]);
      }
    }
  }

  /** The filter keeps exactly the visitor variables, under their stripped pattern, and
    * the contact id, under its parameter. */
  lemma {:induction false} FilterVariablesDomain(names: VisitorNames, av: map<string, Json>, items: seq<EsVariable>)
    requires FilterVariables(names, av, items).Ok?
    ensures forall k :: k in FilterVariables(names, av, items).value <==>
      exists i :: 0 <= i < |items| && Produces(names, items[i], k)
    decreases |items|
  {
    if |items| > 0 {
      var n := |items| - 1;
      var init := items[..n];
      FilterVariablesDomain(names, av, init);
      var m0 := FilterVariables(names, av, init).value;
      FilterStepFacts(names, av, m0, items[n]);
      forall k
        ensures k in FilterVariables(names, av, items).value <==> exists i :: 0 <= i < |items| && Produces(names, items[i], k)
      {
        if exists i :: 0 <= i < |items| && Produces(names, items[i], k) {
          var i :| 0 <= i < |items| && Produces(names, items[i], k);
          if i < n {
            assert Produces(names, init[i], k);
          }
        }
        if exists i :: 0 <= i < n && Produces(names, init[i], k) {
          var i :| 0 <= i < n && Produces(names, init[i], k);
          assert Produces(names, items[i], k);
        }
      }
    }
  }

  /** Every entry of the filter is `{"value": v}`, where `v` is the value of a variable
    * stored under that name. */
  lemma {:induction false} FilterVariablesValues(names: VisitorNames, av: map<string, Json>, items: seq<EsVariable>)
    requires FilterVariables(names, av, items).Ok?
    ensures var m := FilterVariables(names, av, items).value;
      forall k :: k in m ==>
        exists i :: (0 <= i < |items| && Produces(names, items[i], k)
                     && ValueOf(names, av, items[i]).Ok? && m[k] == Entry(ValueOf(names, av, items[i]).value))
    decreases |items|
  {
    if |items| > 0 {
      var n := |items| - 1;
      var init := items[..n];
      FilterVariablesValues(names, av, init);
      var m0 := FilterVariables(names, av, init).value;
      var m := FilterVariables(names, av, items).value;
      FilterStepFacts(names, av, m0, items[n]);
      forall k | k in m
        ensures exists i :: (0 <= i < |items| && Produces(names, items[i], k)
                             && ValueOf(names, av, items[i]).Ok? && m[k] == Entry(ValueOf(names, av, items[i]).value))
      {
        if !Produces(names, items[n], k) {
          var i :| 0 <= i < |init| && Produces(names, init[i], k)
            && ValueOf(names, av, init[i]).Ok? && m0[k] == Entry(ValueOf(names, av, init[i]).value);
          assert items[i] == init[i];
        }
      }
    }
  }

  /** A failure on a prefix of the variables is a failure of the whole filter. */
  lemma {:induction false} FilterFailureStays(names: VisitorNames, av: map<string, Json>, items: seq<EsVariable>, j: int)
    requires 0 <= j <= |items| && FilterVariables(names, av, items[..j]).Failure?
    ensures FilterVariables(names, av, items) == FilterVariables(names, av, items[..j])
    decreases |items| - j
  {
    if j < |items| {
      assert items[..j + 1][..j] == items[..j];
      FilterFailureStays(names, av, items, j + 1);
    } else {
      assert items[..j] == items;
    }
  }

  /** `GetVisitorByVisitorKey.filter_visitor_variables_from_es_result`. */
  method FilterVisitorVariables(names: VisitorNames, st: VisitorStore, hit: EsVariables)
    returns (r: Result<map<string, Json>>)
    ensures r == FilterEsResult(names, st, hit)
  {
    var accountVariables := st.accountVariables(hit.accountId);
    var items := hit.variables;
    var variables: map<string, Json> := map[];
    var i := 0;
    while i < |items|
      invariant 0 <= i <= |items|
      invariant FilterVariables(names, accountVariables, items[..i]) == Ok(variables)
    {
      assert items[..i + 1][..i] == items[..i];
      var item := items[i];
      assert FilterVariables(names, accountVariables, items[..i + 1]) == FilterStep(names, accountVariables, variables, item);
      if Relevant(names, item) {
        var value := ValueOf(names, accountVariables, item);
        if value.Failure? {
          FilterFailureStays(names, accountVariables, items, i + 1);
          return Failure(value.error);
        }
        if IsVisitorVariable(names, item.name) {
          variables := variables[VariableParameter(names, item.name) := Entry(value.value)];
        }
        if item.name == names.contactIdName {
          variables := variables[names.contactIdParameter := Entry(value.value)];
        }
      }
      i := i + 1;
    }
    assert items[..i] == items;
    r := Ok(variables);
  }

  // ---------------------------------------------------------------- payload

  function ConversationKey(names: VisitorNames): Conversation -> string {
    (c: Conversation) => names.suffix(c.externalKey, c.botId)
  }

  function ThreadKey(c: Conversation): Json {
    c.threadKey
  }

  /** The active conversations: each conversation's thread key under its suffix key, a
    * later conversation winning. */
  function ActiveConversations(names: VisitorNames, cs: seq<Conversation>): map<string, Json> {
    Assign(cs, ConversationKey(names), ThreadKey)
  }

  /** The `default_name` the conversation loop leaves: the last conversation's title. */
  function LastTitle(cs: seq<Conversation>): Option<Json> {
    if |cs| == 0 then None else Some(cs[|cs| - 1].title)
  }

  /** The visitor payload: the filtered variables, the active conversations, the first
    * row's id, external key, account and channel, and the default name. */
  function Payload(vars: map<string, Json>, active: map<string, Json>, row: VisitorRow, defaultName: Json): Json {
    JObj(map["variables" := JObj(vars), "active_conversations" := JObj(active),
             "id" := row.id, "external_key" := row.externalKey, "account_id" := JInt(row.accountId),
             "channel_id" := row.channelId, "default_name" := defaultName])
  }

  /** The payload's keys and fields. */
  lemma PayloadShape(vars: map<string, Json>, active: map<string, Json>, row: VisitorRow, defaultName: Json)
    ensures var p := Payload(vars, active, row, defaultName);
      p.JObj? && Truthy(p)
      && p.fields.Keys == {"variables", "active_conversations", "id", "external_key", "account_id", "channel_id", "default_name"}
      && p.fields["variables"] == JObj(vars) && p.fields["active_conversations"] == JObj(active)
      && p.fields["id"] == row.id && p.fields["external_key"] == row.externalKey
      && p.fields["account_id"] == JInt(row.accountId) && p.fields["channel_id"] == row.channelId
      && p.fields["default_name"] == defaultName
  {
    assert "id" in Payload(vars, active, row, defaultName).fields;
  }

  /** The conversations left a truthy `default_name`: the last one's title. */
  predicate HasTitle(cs: seq<Conversation>) {
    |cs| > 0 && Truthy(cs[|cs| - 1].title)
  }

  /** `GetVisitorByVisitorKey.prepare_sync_payload`: the last conversation's title when it
    * is truthy, else a generated default name, whose counter calls are the only calls. */
  function PrepareSpec(e: Entries, st: VisitorStore, names: VisitorNames, cfg: NameConfig, row: VisitorRow, es: VisitorEs)
    : Outcome
    requires ValidNameConfig(cfg)
  {
    match FilterEsResult(names, st, es.variables)
    case Failure(err) => Outcome(Failure(err), [])
    case Ok(vars) =>
      var active := ActiveConversations(names, es.conversations);
      if HasTitle(es.conversations) then
        Outcome(Ok(Payload(vars, active, row, es.conversations[|es.conversations| - 1].title)), [])
      else
        var named := DefaultNameSpec(e, st, cfg, row.accountId);
        Outcome(Ok(Payload(vars, active, row, JStr(named.name))), named.events)
  }

  /** The visitor payload holds the filtered variables, the active conversations and the
    * first row's id, external key, account and channel, and always a `default_name`:
    * the last conversation's title when truthy, else a generated name; only the
    * generated name makes calls. */
  lemma PayloadFields(e: Entries, st: VisitorStore, names: VisitorNames, cfg: NameConfig, row: VisitorRow, es: VisitorEs)
    requires ValidNameConfig(cfg) && FilterEsResult(names, st, es.variables).Ok?
    ensures var p := PrepareSpec(e, st, names, cfg, row, es).result;
      p.Ok? && p.value.JObj? && Truthy(p.value)
      && p.value.fields.Keys == {"variables", "active_conversations", "id", "external_key", "account_id", "channel_id", "default_name"}
      && p.value.fields["variables"] == JObj(FilterEsResult(names, st, es.variables).value)
      && p.value.fields["active_conversations"] == JObj(ActiveConversations(names, es.conversations))
      && p.value.fields["id"] == row.id && p.value.fields["external_key"] == row.externalKey
      && p.value.fields["account_id"] == JInt(row.accountId) && p.value.fields["channel_id"] == row.channelId
    ensures var p := PrepareSpec(e, st, names, cfg, row, es);
      var title := LastTitle(es.conversations);
      title.Some? && Truthy(title.value) ==> p.result.value.fields["default_name"] == title.value && p.events == []
    ensures var p := PrepareSpec(e, st, names, cfg, row, es);
      var title := LastTitle(es.conversations);
      title.None? || !Truthy(title.value) ==>
        p.result.value.fields["default_name"] == JStr(DefaultNameSpec(e, st, cfg, row.accountId).name)
        && p.events == DefaultNameSpec(e, st, cfg, row.accountId).events
  {
    var vars := FilterEsResult(names, st, es.variables).value;
    var active := ActiveConversations(names, es.conversations);
    var cs := es.conversations;
    if HasTitle(cs) {
      PayloadShape(vars, active, row, cs[|cs| - 1].title);
    } else {
      PayloadShape(vars, active, row, JStr(DefaultNameSpec(e, st, cfg, row.accountId).name));
    }
  }

  /** `GetVisitorByVisitorKey.prepare_sync_payload`: the variables filter, the row's fields,
    * the conversation loop, and the default name when no conversation gave a truthy title. */
  method PrepareVisitorPayload(net: Network, st: VisitorStore, names: VisitorNames, cfg: NameConfig, row: VisitorRow,
                               es: VisitorEs)
    returns (r: Result<Json>)
    requires ValidNameConfig(cfg)
    modifies net
    ensures r == PrepareSpec(old(net.entries), st, names, cfg, row, es).result
    ensures net.trace == old(net.trace) + PrepareSpec(old(net.entries), st, names, cfg, row, es).events
    ensures net.entries == Run(old(net.entries), PrepareSpec(old(net.entries), st, names, cfg, row, es).events)
  {
    var variables := FilterVisitorVariables(names, st, es.variables);
    if variables.Failure? {
      assert Run(net.entries, []) == net.entries;
      return Failure(variables.error);
    }
    var cs := es.conversations;
    var active: map<string, Json> := map[];
    var title: Option<Json> := None;
    var i := 0;
    while i < |cs|
      invariant 0 <= i <= |cs|
      invariant active == Assign(cs[..i], ConversationKey(names), ThreadKey)
      invariant title == LastTitle(cs[..i])
    {
      assert cs[..i + 1][..i] == cs[..i];
      active := active[names.suffix(cs[i].externalKey, cs[i].botId) := cs[i].threadKey];
      title := Some(cs[i].title);
      i := i + 1;
    }
    assert cs[..i] == cs;
    assert title.Some? && Truthy(title.value) <==> HasTitle(cs);
    var defaultName := if title.Some? then title.value else JNull;
    if !Truthy(defaultName) {
      var name := DefaultName(net, st, cfg, row.accountId);
      defaultName := JStr(name);
    } else {
      assert Run(net.entries, []) == net.entries;
    }
    r := Ok(Payload(variables.value, active, row, defaultName));
  }

  // ---------------------------------------------------------------- sync and lookups

  function VisitorArgs(visitorKey: Json, expire: Json): Kwargs {
    map["visitor_key" := Value(visitorKey), "redis_key_expire_time" := Value(expire)]
  }

  /** `os.environ.get("REDIS_VISITOR_KEY_EXPIRATION_TIME", 604800)`. */
  function ExpireSetting(env: Option<string>): Json {
    if env.Some? then JStr(env.value) else JInt(604800)
  }

  /** The search-index lookup of the visitor Getter for a found row. */
  function RowEs(st: VisitorStore, row: VisitorRow): VisitorEs {
    VisitorEs(st.esVariables(row.key), st.conversations(row.key))
  }

  /** The write of the payload under `key`, and its expiry when the setting is truthy. */
  function PayloadWrites(key: string, p: Json, expire: Json): seq<Event> {
    [CacheOp(WriteCall(key, p))] + (if Truthy(expire) then [CacheOp(Expire(key, expire))] else [])
  }

  /** The part of `sync_data` after the store found the visitor: the payload, then its
    * write and expiry; a payload that cannot be built raises before any write. */
  function FoundSyncSpec(e: Entries, st: VisitorStore, names: VisitorNames, cfg: NameConfig, key: string,
                         row: VisitorRow, expire: Json): Outcome
    requires ValidNameConfig(cfg)
  {
    var prep := PrepareSpec(e, st, names, cfg, row, RowEs(st, row));
    if prep.result.Failure? then prep
    else Outcome(prep.result, prep.events + PayloadWrites(key, prep.result.value, expire))
  }

  /** `sync_data` with `GetVisitorByVisitorKey` under `key`: the store, then the search
    * index (only with a store result), then the payload, written and given an expiry. */
  function VisitorSyncSpec(e: Entries, st: VisitorStore, names: VisitorNames, cfg: NameConfig, key: string,
                           visitorKey: Json, expire: Json): Outcome
    requires ValidNameConfig(cfg)
  {
    var kw := VisitorArgs(visitorKey, expire);
    var rows := st.visitors(visitorKey);
    var queries := [StoreQuery(kw), SearchQuery(kw)];
    if |rows| == 0 then Outcome(Ok(Empty), queries)
    else
      var f := FoundSyncSpec(e, st, names, cfg, key, rows[0], expire);
      Outcome(f.result, queries + f.events)
  }

  method WritePayload(net: Network, key: string, p: Json, expire: Json)
    modifies net
    ensures net.trace == old(net.trace) + PayloadWrites(key, p, expire)
    ensures net.entries == Run(old(net.entries), PayloadWrites(key, p, expire))
  {
    ghost var e0 := net.entries;
    var _ := SetDataInCache(net, key, p);
    RunOne(e0, CacheOp(WriteCall(key, p)));
    if Truthy(expire) {
      SetRedisKeyExpire(net, key, expire);
      RunSnoc(e0, [CacheOp(WriteCall(key, p))], CacheOp(Expire(key, expire)));
    } else {
      assert PayloadWrites(key, p, expire) == [CacheOp(WriteCall(key, p))];
    }
  }

  /** The store and search lookups of `sync_data`, which only record. */
  method Queries(net: Network, kw: Kwargs)
    modifies net
    ensures net.trace == old(net.trace) + [StoreQuery(kw), SearchQuery(kw)]
    ensures net.entries == old(net.entries) == Run(old(net.entries), [StoreQuery(kw), SearchQuery(kw)])
  {
    net.Perform(StoreQuery(kw));
    net.Perform(SearchQuery(kw));
    RunWithoutWrites(net.entries, [StoreQuery(kw), SearchQuery(kw)]);
  }

  /** The found-visitor part of `sync_data`. */
  method FoundSync(net: Network, st: VisitorStore, names: VisitorNames, cfg: NameConfig, key: string,
                   row: VisitorRow, expire: Json)
    returns (r: Result<Json>)
    requires ValidNameConfig(cfg)
    modifies net
    ensures var f := FoundSyncSpec(old(net.entries), st, names, cfg, key, row, expire);
      r == f.result && net.trace == old(net.trace) + f.events && net.entries == Run(old(net.entries), f.events)
  {
    ghost var e0 := net.entries;
    ghost var prep := PrepareSpec(e0, st, names, cfg, row, RowEs(st, row));
    r := PrepareVisitorPayload(net, st, names, cfg, row, RowEs(st, row));
    if r.Failure? {
      return;
    }
    WritePayload(net, key, r.value, expire);
    RunAppend(e0, prep.events, PayloadWrites(key, r.value, expire));
    AppendAssoc(old(net.trace), prep.events, PayloadWrites(key, r.value, expire));
  }

  /** `SyncDataHandler.sync_data` with `GetVisitorByVisitorKey`, whose payload shaper
    * itself updates the cache when it generates a default name. */
  method VisitorSyncData(net: Network, st: VisitorStore, names: VisitorNames, cfg: NameConfig, key: string,
                         visitorKey: Json, expire: Json)
    returns (r: Result<Json>)
    requires ValidNameConfig(cfg)
    modifies net
    ensures var s := VisitorSyncSpec(old(net.entries), st, names, cfg, key, visitorKey, expire);
      r == s.result && net.trace == old(net.trace) + s.events && net.entries == Run(old(net.entries), s.events)
  {
    ghost var e0 := net.entries;
    ghost var t0 := net.trace;
    var kw := VisitorArgs(visitorKey, expire);
    var rows := st.visitors(visitorKey);
    Queries(net, kw);
    if |rows| == 0 {
      return Ok(Empty);
    }
    ghost var f := FoundSyncSpec(e0, st, names, cfg, key, rows[0], expire);
    assert VisitorSyncSpec(e0, st, names, cfg, key, visitorKey, expire) == Outcome(f.result, [StoreQuery(kw), SearchQuery(kw)] + f.events);
    r := FoundSync(net, st, names, cfg, key, rows[0], expire);
    RunAppend(e0, [StoreQuery(kw), SearchQuery(kw)], f.events);
    AppendAssoc(t0, [StoreQuery(kw), SearchQuery(kw)], f.events);
  }

  /** A found visitor is written once, as a document, under its key, and the expiry
    * follows the write exactly when the expiry setting is truthy; with no environment
    * setting it is 604800 seconds. A visitor the store does not know gives `{}` and no
    * cache call. */
  lemma VisitorSyncWrites(e: Entries, st: VisitorStore, names: VisitorNames, cfg: NameConfig, key: string,
                          visitorKey: Json, env: Option<string>)
    requires ValidNameConfig(cfg)
    ensures var s := VisitorSyncSpec(e, st, names, cfg, key, visitorKey, ExpireSetting(env));
      |st.visitors(visitorKey)| == 0 ==>
        (s.result == Ok(Empty) && forall i :: 0 <= i < |s.events| ==> !IsCacheCall(s.events[i]))
    ensures var s := VisitorSyncSpec(e, st, names, cfg, key, visitorKey, ExpireSetting(env));
      s.result.Ok? && |st.visitors(visitorKey)| > 0 ==> s.result.value.JObj?
    ensures var s := VisitorSyncSpec(e, st, names, cfg, key, visitorKey, ExpireSetting(env));
      s.result.Ok? && |st.visitors(visitorKey)| > 0 && env.None? ==>
        (|s.events| >= 2 && s.events[|s.events| - 2] == CacheOp(JsonSet(key, s.result.value))
         && s.events[|s.events| - 1] == CacheOp(Expire(key, JInt(604800))))
  {
    var s := VisitorSyncSpec(e, st, names, cfg, key, visitorKey, ExpireSetting(env));
    var rows := st.visitors(visitorKey);
    if |rows| > 0 && s.result.Ok? {
      VisitorSyncFound(e, st, names, cfg, key, visitorKey, ExpireSetting(env));
      if env.None? {
        var w := PayloadWrites(key, s.result.value, ExpireSetting(env));
        assert w == [CacheOp(JsonSet(key, s.result.value)), CacheOp(Expire(key, JInt(604800)))];
      }
    }
  }

  /** A found visitor whose payload could be built: a dict, and the calls are the two
    * queries, the payload's own counter calls, then the write and its expiry. */
  lemma VisitorSyncFound(e: Entries, st: VisitorStore, names: VisitorNames, cfg: NameConfig, key: string,
                         visitorKey: Json, expire: Json)
    requires ValidNameConfig(cfg) && |st.visitors(visitorKey)| > 0
    requires VisitorSyncSpec(e, st, names, cfg, key, visitorKey, expire).result.Ok?
    ensures var s := VisitorSyncSpec(e, st, names, cfg, key, visitorKey, expire);
      var row := st.visitors(visitorKey)[0];
      var kw := VisitorArgs(visitorKey, expire);
      s.result.value.JObj?
      && s.events == [StoreQuery(kw), SearchQuery(kw)] + PrepareSpec(e, st, names, cfg, row, RowEs(st, row)).events
                     + PayloadWrites(key, s.result.value, expire)
  {
    var row := st.visitors(visitorKey)[0];
    var prep := PrepareSpec(e, st, names, cfg, row, RowEs(st, row));
    assert prep.result.Ok?;
    PayloadFields(e, st, names, cfg, row, RowEs(st, row));
    var kw := VisitorArgs(visitorKey, expire);
    AppendAssoc([StoreQuery(kw), SearchQuery(kw)], prep.events, PayloadWrites(key, prep.result.value, expire));
  }

  /** After a fill the key holds the payload as a document: the counter calls the
    * payload needed come before the write, and the expiry changes no value. */
  lemma FoundSyncReadBack(e: Entries, st: VisitorStore, names: VisitorNames, cfg: NameConfig, key: string,
                          row: VisitorRow, expire: Json)
    requires ValidNameConfig(cfg) && FoundSyncSpec(e, st, names, cfg, key, row, expire).result.Ok?
    ensures var f := FoundSyncSpec(e, st, names, cfg, key, row, expire);
      f.result.value.JObj? && Truthy(f.result.value) && ReadJson(Run(e, f.events), key) == f.result.value
  {
    var prep := PrepareSpec(e, st, names, cfg, row, RowEs(st, row));
    PayloadFields(e, st, names, cfg, row, RowEs(st, row));
    RunAppend(e, prep.events, PayloadWrites(key, prep.result.value, expire));
    WritesReadBack(Run(e, prep.events), key, prep.result.value, expire);
  }

  /** A dict written by the payload writes is read back by GET_JSON. */
  lemma WritesReadBack(e: Entries, key: string, p: Json, expire: Json)
    requires p.JObj?
    ensures ReadJson(Run(e, PayloadWrites(key, p, expire)), key) == p
  {
    var w := CacheOp(WriteCall(key, p));
    var expiry := if Truthy(expire) then [CacheOp(Expire(key, expire))] else [];
    RunAppend(e, [w], expiry);
    RunOne(e, w);
    RunWithoutWrites(Step(e, w), expiry);
  }

  /** Every value of the map is a dict. */
  predicate AllDicts(m: map<string, Json>) {
    forall k :: k in m ==> m[k].JObj?
  }

  /** A visitor `_format_visitor_schema` can rewrite: a dict whose `variables` is a dict of dicts. */
  predicate Formattable(v: Json) {
    v.JObj? && "variables" in v.fields && v.fields["variables"].JObj? && AllDicts(v.fields["variables"].fields)
  }

  function Typed(vars: map<string, Json>, contactType: string): map<string, Json>
    requires AllDicts(vars)
  {
    map k | k in vars :: JObj(vars[k].fields["type" := JStr(contactType)])
  }

  /** `_format_visitor_schema(visitor_key, visitor)`, which raises on any other shape. */
  function FormattedVisitor(visitorKey: Json, v: Json, contactType: string): Result<Json> {
    if Formattable(v) then
      Ok(JObj(v.fields["key" := visitorKey]["is_new" := JBool(false)]
                      ["variables" := JObj(Typed(v.fields["variables"].fields, contactType))]))
    else Failure("visitor schema")
  }

  /** Formatting sets `key` and `is_new` to False and every variable's `type` to
    * contact, and keeps every other field, every variable and every variable's other fields. */
  lemma FormattedVisitorFields(visitorKey: Json, v: Json, contactType: string)
    requires Formattable(v)
    ensures var f := FormattedVisitor(visitorKey, v, contactType).value;
      var vars := v.fields["variables"].fields;
      f.JObj? && f.fields.Keys == v.fields.Keys + {"key", "is_new"}
      && f.fields["key"] == visitorKey && f.fields["is_new"] == JBool(false)
      && (forall k :: k in v.fields && k !in {"key", "is_new", "variables"} ==> f.fields[k] == v.fields[k])
      && f.fields["variables"].JObj? && f.fields["variables"].fields.Keys == vars.Keys
      && (forall n :: n in vars ==>
            f.fields["variables"].fields[n].JObj?
            && f.fields["variables"].fields[n].fields.Keys == vars[n].fields.Keys + {"type"}
            && f.fields["variables"].fields[n].fields["type"] == JStr(contactType)
            && forall g :: g in vars[n].fields && g != "type" ==> f.fields["variables"].fields[n].fields[g] == vars[n].fields[g])
  {
  }

  /** Formatting twice is formatting once. */
  lemma FormatIdempotent(visitorKey: Json, v: Json, contactType: string)
    requires Formattable(v)
    ensures Formattable(FormattedVisitor(visitorKey, v, contactType).value)
    ensures FormattedVisitor(visitorKey, FormattedVisitor(visitorKey, v, contactType).value, contactType)
         == FormattedVisitor(visitorKey, v, contactType)
  {
    var f := FormattedVisitor(visitorKey, v, contactType).value;
    var vars := v.fields["variables"].fields;
    var typed := Typed(vars, contactType);
    forall k | k in typed
      ensures Typed(typed, contactType)[k] == typed[k]
    {
      assert typed[k].fields["type" := JStr(contactType)] == typed[k].fields;
    }
    assert Typed(typed, contactType) == typed;
    assert f.fields["key" := visitorKey]["is_new" := JBool(false)]["variables" := JObj(typed)] == f.fields;
  }

  /** `ManageVisitor._format_visitor_schema`: sets the key and `is_new`, then each
    * variable's type, one variable at a time. */
  method FormatVisitorSchema(visitorKey: Json, visitor: Json, contactType: string) returns (r: Result<Json>)
    ensures r == FormattedVisitor(visitorKey, visitor, contactType)
  {
    if !visitor.JObj? {
      return Failure("visitor schema");
    }
    var fields := visitor.fields["key" := visitorKey]["is_new" := JBool(false)];
    if "variables" !in fields || !fields["variables"].JObj? {
      return Failure("visitor schema");
    }
    var vars := fields["variables"].fields;
    assert vars == visitor.fields["variables"].fields;
    var updated := vars;
    var todo := vars.Keys;
    while todo != {}
      invariant todo <= vars.Keys && updated.Keys == vars.Keys
      invariant forall k :: k in todo ==> updated[k] == vars[k]
      invariant forall k :: k in vars && k !in todo ==> vars[k].JObj? && updated[k] == JObj(vars[k].fields["type" := JStr(contactType)])
      decreases todo
    {
      var k :| k in todo;
      if !vars[k].JObj? {
        return Failure("visitor schema");
      }
      updated := updated[k := JObj(vars[k].fields["type" := JStr(contactType)])];
      todo := todo - {k};
    }
    assert updated == Typed(vars, contactType);
    r := Ok(JObj(fields["variables" := JObj(updated)]));
  }

  /** `__get_visitor_by_visitor_key` before the schema: a truthy cache value, or what
    * `sync_data` returns; the expiry is REDIS_VISITOR_KEY_EXPIRATION_TIME, 604800
    * seconds by default. */
  function LookupSpec(e: Entries, st: VisitorStore, names: VisitorNames, cfg: NameConfig, keys: VisitorKeys,
                      visitorKey: Json, env: Option<string>): Outcome
    requires ValidNameConfig(cfg)
  {
    var key := Key(keys.visitor, KeyText(visitorKey));
    var cached := ReadJson(e, key);
    if Truthy(cached) then Outcome(Ok(cached), [CacheOp(JsonGet(key))])
    else
      var s := VisitorSyncSpec(e, st, names, cfg, key, visitorKey, ExpireSetting(env));
      Outcome(s.result, [CacheOp(JsonGet(key))] + s.events)
  }

  /** `if visitor: self._format_visitor_schema(visitor_key, visitor)`. */
  function FormatTruthy(visitorKey: Json, r: Result<Json>, contactType: string): Result<Json> {
    if r.Ok? && Truthy(r.value) then FormattedVisitor(visitorKey, r.value, contactType) else r
  }

  /** What `__get_visitor_by_visitor_key` returns. */
  function VisitorLookup(e: Entries, st: VisitorStore, names: VisitorNames, cfg: NameConfig, keys: VisitorKeys,
                         visitorKey: Json, env: Option<string>): Result<Json>
    requires ValidNameConfig(cfg)
  {
    FormatTruthy(visitorKey, LookupSpec(e, st, names, cfg, keys, visitorKey, env).result, names.contactType)
  }

  /** The cache read of `__get_visitor_by_visitor_key` and its fallback to `sync_data`. */
  method ReadOrSync(net: Network, st: VisitorStore, names: VisitorNames, cfg: NameConfig, keys: VisitorKeys,
                    visitorKey: Json, env: Option<string>)
    returns (r: Result<Json>)
    requires ValidNameConfig(cfg)
    modifies net
    ensures var s := LookupSpec(old(net.entries), st, names, cfg, keys, visitorKey, env);
      r == s.result && net.trace == old(net.trace) + s.events && net.entries == Run(old(net.entries), s.events)
  {
    ghost var e0 := net.entries;
    ghost var t0 := net.trace;
    var key := Key(keys.visitor, KeyText(visitorKey));
    var visitor := net.GetJson(key);
    RunOne(e0, CacheOp(JsonGet(key)));
    if Truthy(visitor) {
      return Ok(visitor);
    }
    ghost var s := VisitorSyncSpec(e0, st, names, cfg, key, visitorKey, ExpireSetting(env));
    r := VisitorSyncData(net, st, names, cfg, key, visitorKey, ExpireSetting(env));
    RunAppend(e0, [CacheOp(JsonGet(key))], s.events);
    AppendAssoc(t0, [CacheOp(JsonGet(key))], s.events);
  }

  /** The schema step on a lookup result. */
  method FormatFound(visitorKey: Json, found: Result<Json>, contactType: string) returns (r: Result<Json>)
    ensures r == FormatTruthy(visitorKey, found, contactType)
  {
    r := found;
    if found.Ok? && Truthy(found.value) {
      r := FormatVisitorSchema(visitorKey, found.value, contactType);
    }
  }

  /** `ManageVisitor.__get_visitor_by_visitor_key`. */
  method GetVisitorByVisitorKey(net: Network, st: VisitorStore, names: VisitorNames, cfg: NameConfig, keys: VisitorKeys,
                                visitorKey: Json, env: Option<string>)
    returns (r: Result<Json>)
    requires ValidNameConfig(cfg)
    modifies net
    ensures r == VisitorLookup(old(net.entries), st, names, cfg, keys, visitorKey, env)
    ensures var s := LookupSpec(old(net.entries), st, names, cfg, keys, visitorKey, env);
      net.trace == old(net.trace) + s.events && net.entries == Run(old(net.entries), s.events)
  {
    var found := ReadOrSync(net, st, names, cfg, keys, visitorKey, env);
    r := FormatFound(visitorKey, found, names.contactType);
  }

  /** The visitor document written by a fill is the unformatted payload (the schema is
    * put on after the write), and the next lookup finds it with one read and returns
    * the same visitor. */
  lemma {:induction false} VisitorFillThenHit(e: Entries, st: VisitorStore, names: VisitorNames, cfg: NameConfig,
                                              keys: VisitorKeys, visitorKey: Json, env: Option<string>)
    requires ValidNameConfig(cfg)
    requires !Truthy(ReadJson(e, Key(keys.visitor, KeyText(visitorKey))))
    requires var key := Key(keys.visitor, KeyText(visitorKey));
      var s := VisitorSyncSpec(e, st, names, cfg, key, visitorKey, ExpireSetting(env));
      |st.visitors(visitorKey)| > 0 && s.result.Ok?
    ensures var key := Key(keys.visitor, KeyText(visitorKey));
      var first := LookupSpec(e, st, names, cfg, keys, visitorKey, env);
      var s := VisitorSyncSpec(e, st, names, cfg, key, visitorKey, ExpireSetting(env));
      ReadJson(Run(e, first.events), key) == s.result.value
      && LookupSpec(Run(e, first.events), st, names, cfg, keys, visitorKey, env)
         == Outcome(first.result, [CacheOp(JsonGet(key))])
    ensures var first := LookupSpec(e, st, names, cfg, keys, visitorKey, env);
      VisitorLookup(Run(e, first.events), st, names, cfg, keys, visitorKey, env)
      == VisitorLookup(e, st, names, cfg, keys, visitorKey, env)
  {
    var key := Key(keys.visitor, KeyText(visitorKey));
    var kw := VisitorArgs(visitorKey, ExpireSetting(env));
    var rows := st.visitors(visitorKey);
    var f := FoundSyncSpec(e, st, names, cfg, key, rows[0], ExpireSetting(env));
    FoundSyncReadBack(e, st, names, cfg, key, rows[0], ExpireSetting(env));
    var before := [CacheOp(JsonGet(key))] + [StoreQuery(kw), SearchQuery(kw)];
    AppendAssoc([CacheOp(JsonGet(key))], [StoreQuery(kw), SearchQuery(kw)], f.events);
    assert LookupSpec(e, st, names, cfg, keys, visitorKey, env).events == before + f.events;
    RunAppend(e, before, f.events);
    RunWithoutWrites(e, before);
  }

  /** The external-key Getter: the store's visitor key for the external key, written
    * as a string; its search lookup returns None. */
  function ExternalKeyGetter(st: VisitorStore): Getter<Option<string>> {
    Getter((kw: Kwargs) => st.visitorKeys(Kw(kw, "external_key")), (d: Option<string>) => d.Some?,
           NoSearch(), (d: Option<string>, es: Json, kw: Kwargs) => if d.Some? then JStr(d.value) else JNull)
  }

  function ExternalArgs(externalKey: string): Kwargs {
    map["external_key" := Value(JStr(externalKey))]
  }

  /** `ManageVisitor.__get_visitor_by_external_key`: GET on VISITOR_EXTERNAL_KEY(external_key),
    * filled on a miss, never given an expiry. */
  method GetVisitorKeyByExternalKey(net: Network, st: VisitorStore, keys: VisitorKeys, externalKey: string)
    returns (r: Json)
    modifies net
    ensures var spec := ReadThroughSpec(old(net.entries), StringRead, Key(keys.external, externalKey), ExternalKeyGetter(st), ExternalArgs(externalKey));
      r == spec.result && net.trace == old(net.trace) + spec.events && net.entries == Run(old(net.entries), spec.events)
  {
    r := ReadThrough(net, StringRead, Key(keys.external, externalKey), ExternalKeyGetter(st), ExternalArgs(externalKey));
  }

  /** `__get_visitor_by_visitor_key`'s result and calls. */
  function FormattedLookup(e: Entries, st: VisitorStore, names: VisitorNames, cfg: NameConfig, keys: VisitorKeys,
                           visitorKey: Json, env: Option<string>): Outcome
    requires ValidNameConfig(cfg)
  {
    Outcome(VisitorLookup(e, st, names, cfg, keys, visitorKey, env), LookupSpec(e, st, names, cfg, keys, visitorKey, env).events)
  }

  /** `ManageVisitor.get_visitor`: the given key, or else the one resolved from the
    * external key; `{}` when there is none. */
  function GetVisitorSpec(e: Entries, st: VisitorStore, names: VisitorNames, cfg: NameConfig, keys: VisitorKeys,
                          key: string, externalKey: string, env: Option<string>): Outcome
    requires ValidNameConfig(cfg)
  {
    if key != "" then FormattedLookup(e, st, names, cfg, keys, JStr(key), env)
    else
      var resolved := ReadThroughSpec(e, StringRead, Key(keys.external, externalKey), ExternalKeyGetter(st), ExternalArgs(externalKey));
      if !Truthy(resolved.result) then Outcome(Ok(Empty), resolved.events)
      else
        var l := FormattedLookup(Run(e, resolved.events), st, names, cfg, keys, resolved.result, env);
        Outcome(l.result, resolved.events + l.events)
  }

  /** A given key is used as is and the external key is never read; without one, an
    * external key that resolves to nothing gives `{}` and never reads a visitor. */
  lemma GetVisitorKeyResolution(e: Entries, st: VisitorStore, names: VisitorNames, cfg: NameConfig, keys: VisitorKeys,
                                key: string, externalKey: string, env: Option<string>)
    requires ValidNameConfig(cfg)
    ensures key != "" ==> GetVisitorSpec(e, st, names, cfg, keys, key, externalKey, env).events[0]
                          == CacheOp(JsonGet(Key(keys.visitor, key)))
    ensures key == "" ==> GetVisitorSpec(e, st, names, cfg, keys, key, externalKey, env).events[0]
                          == CacheOp(StrGet(Key(keys.external, externalKey)))
    ensures key == "" && !Truthy(ReadScalar(e, Key(keys.external, externalKey)))
            && st.visitorKeys(JStr(externalKey)).None? ==>
      GetVisitorSpec(e, st, names, cfg, keys, key, externalKey, env)
      == Outcome(Ok(Empty), [CacheOp(StrGet(Key(keys.external, externalKey))), StoreQuery(ExternalArgs(externalKey)),
                            SearchQuery(ExternalArgs(externalKey))])
  {
    assert Kw(ExternalArgs(externalKey), "external_key") == JStr(externalKey);
  }

  /** `ManageVisitor.get_visitor`. */
  method GetVisitor(net: Network, st: VisitorStore, names: VisitorNames, cfg: NameConfig, keys: VisitorKeys,
                    key: string, externalKey: string, env: Option<string>)
    returns (r: Result<Json>)
    requires ValidNameConfig(cfg)
    modifies net
    ensures var s := GetVisitorSpec(old(net.entries), st, names, cfg, keys, key, externalKey, env);
      r == s.result && net.trace == old(net.trace) + s.events && net.entries == Run(old(net.entries), s.events)
  {
    ghost var e0 := net.entries;
    ghost var t0 := net.trace;
    if key != "" {
      assert GetVisitorSpec(e0, st, names, cfg, keys, key, externalKey, env) == FormattedLookup(e0, st, names, cfg, keys, JStr(key), env);
      r := GetVisitorByVisitorKey(net, st, names, cfg, keys, JStr(key), env);
      return;
    }
    ghost var resolved := ReadThroughSpec(e0, StringRead, Key(keys.external, externalKey), ExternalKeyGetter(st), ExternalArgs(externalKey));
    var visitorKey := GetVisitorKeyByExternalKey(net, st, keys, externalKey);
    if !Truthy(visitorKey) {
      assert GetVisitorSpec(e0, st, names, cfg, keys, key, externalKey, env) == Outcome(Ok(Empty), resolved.events);
      return Ok(Empty);
    }
    ghost var e1 := net.entries;
    ghost var l := FormattedLookup(e1, st, names, cfg, keys, visitorKey, env);
    assert GetVisitorSpec(e0, st, names, cfg, keys, key, externalKey, env) == Outcome(l.result, resolved.events + l.events);
    r := GetVisitorByVisitorKey(net, st, names, cfg, keys, visitorKey, env);
    RunAppend(e0, resolved.events, l.events);
    AppendAssoc(t0, resolved.events, l.events);
  }

  /** `ManageVisitor.redis_get_visitor`: the cached visitor, formatted, or `{}`. */
  function CachedVisitor(e: Entries, names: VisitorNames, keys: VisitorKeys, visitorKey: Json): (r: Result<Json>)
    ensures !Truthy(ReadJson(e, Key(keys.visitor, KeyText(visitorKey)))) ==> r == Ok(Empty)
    ensures Truthy(ReadJson(e, Key(keys.visitor, KeyText(visitorKey)))) ==>
      r == FormattedVisitor(visitorKey, ReadJson(e, Key(keys.visitor, KeyText(visitorKey))), names.contactType)
  {
    var v := ReadJson(e, Key(keys.visitor, KeyText(visitorKey)));
    if Truthy(v) then FormattedVisitor(visitorKey, v, names.contactType) else Ok(Empty)
  }

  /** `ManageVisitor.redis_get_visitor`: one GET_JSON and nothing else, so the store is
    * never queried and the cache never written. */
  method RedisGetVisitor(net: Network, names: VisitorNames, keys: VisitorKeys, visitorKey: Json) returns (r: Result<Json>)
    modifies net
    ensures r == CachedVisitor(old(net.entries), names, keys, visitorKey)
    ensures net.entries == old(net.entries)
    ensures net.trace == old(net.trace) + [CacheOp(JsonGet(Key(keys.visitor, KeyText(visitorKey))))]
  {
    var visitor := net.GetJson(Key(keys.visitor, KeyText(visitorKey)));
    if Truthy(visitor) {
      r := FormatVisitorSchema(visitorKey, visitor, names.contactType);
    } else {
      r := Ok(Empty);
    }
  }

  /** `ManageVisitor.redis_get_visitor_key`: one GET on VISITOR_EXTERNAL_KEY(external_key). */
  method RedisGetVisitorKey(net: Network, keys: VisitorKeys, externalKey: string) returns (r: Json)
    modifies net
    ensures r == ReadScalar(old(net.entries), Key(keys.external, externalKey))
    ensures net.entries == old(net.entries)
    ensures net.trace == old(net.trace) + [CacheOp(StrGet(Key(keys.external, externalKey)))]
  {
    r := net.Get(Key(keys.external, externalKey));
  }
}
