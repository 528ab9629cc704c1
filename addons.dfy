/** Addons: the function catalogue a code block looks up by function name across
  * the connected addons' keys, the placeholder parameters read out of an addon
  * script, and the single-key facades for auth parameters, addon functions,
  * third-party variable mappings and webhook details. */
module Addons {
  import opened Json
  import opened Strings
  import opened Cache
  import opened Handler
  import opened Batch

  // ---------------------------------------------------------------------------
  // Script placeholders: re.findall("¿·(.+?)·\?", script)
  // ---------------------------------------------------------------------------

  const Open: string := "¿·"
  const Close: string := "·?"

  /** `'¿·' + name + '·?'`, the key a placeholder is stored under. */
  const ParameterTemplate: KeyTemplate := KeyTemplate(Open, Close)

  function ParameterKey(name: string): string {
    Key(ParameterTemplate, name)
  }

  /** No line break among `s[lo..hi]` (the regex `.` does not match one). */
  predicate NoBreakIn(s: string, lo: int, hi: int)
    requires 0 <= lo && hi <= |s|
  {
    forall m :: lo <= m < hi ==> s[m] != '\n'
  }

  /** The end of the shortest placeholder body that starts at `b` and is at least
    * `s[b..j]`: the first `c >= j` where the closing `·?` occurs, as long as no line
    * break was passed. */
  function FindClose(s: string, b: nat, j: nat): (c: Option<nat>)
    requires b < j <= |s|
    requires NoBreakIn(s, b, j - 1)
    ensures c.Some? ==> j <= c.value && OccursAt(s, Close, c.value) && NoBreakIn(s, b, c.value)
    ensures c.Some? ==> forall m :: j <= m < c.value ==> !OccursAt(s, Close, m)
    decreases |s| - j
  {
    if s[j - 1] == '\n' then None
    else if OccursAt(s, Close, j) then Some(j)
    else if j < |s| then FindClose(s, b, j + 1)
    else None
  }

  /** The placeholder names `re.findall` returns, scanning from index `i`: at each
    * position an opening `¿·` followed by the shortest non-empty single-line body and
    * a closing `·?` is a match and the scan resumes after it; otherwise the scan
    * moves on by one character. */
  function Placeholders(s: string, i: nat): seq<string>
    decreases |s| - i
  {
    if i + 3 > |s| then []
    else if OccursAt(s, Open, i) && FindClose(s, i + 2, i + 3).Some? then
      var c := FindClose(s, i + 2, i + 3).value;
      [s[i + 2..c]] + Placeholders(s, c + 2)
    else Placeholders(s, i + 1)
  }

  /** A name as `re.findall` can return it from `s`: non-empty, without a line break,
    * and present in `s` wrapped as its parameter key. */
  predicate FoundName(s: string, name: string) {
    |name| > 0 && (forall m :: 0 <= m < |name| ==> name[m] != '\n') && Contains(s, ParameterKey(name))
  }

  /** The name a match yields is non-empty, has no line break, and appears in the
    * script wrapped as its parameter key. */
  lemma MatchOccurs(s: string, i: nat)
    requires i + 3 <= |s| && OccursAt(s, Open, i) && FindClose(s, i + 2, i + 3).Some?
    ensures FoundName(s, s[i + 2..FindClose(s, i + 2, i + 3).value])
  {
    var c := FindClose(s, i + 2, i + 3).value;
    var body := s[i + 2..c];
    assert s[i..c + 2] == s[i..i + 2] + body + s[c..c + 2];
    assert s[i..i + |ParameterKey(body)|] == ParameterKey(body);
    assert OccursAt(s, ParameterKey(body), i);
    assert forall m :: 0 <= m < |body| ==> body[m] == s[i + 2 + m];
  }

  /** Every name found is non-empty, has no line break, and appears in the script
    * wrapped as its parameter key. */
  lemma {:induction false} PlaceholdersOccur(s: string, i: nat)
    ensures forall k :: 0 <= k < |Placeholders(s, i)| ==> FoundName(s, Placeholders(s, i)[k])
    decreases |s| - i
  {
    if i + 3 <= |s| {
      if OccursAt(s, Open, i) && FindClose(s, i + 2, i + 3).Some? {
        var c := FindClose(s, i + 2, i + 3).value;
        PlaceholdersOccur(s, c + 2);
        MatchOccurs(s, i);
        var ps := Placeholders(s, i);
        var rest := Placeholders(s, c + 2);
        assert ps == [s[i + 2..c]] + rest;
        assert forall k :: 0 < k < |ps| ==> ps[k] == rest[k - 1];
      } else {
        PlaceholdersOccur(s, i + 1);
      }
    }
  }

  /** A script without an opening `¿·` has no placeholders. */
  lemma {:induction false} NoOpenNoPlaceholders(s: string, i: nat)
    requires !Contains(s, Open)
    ensures Placeholders(s, i) == []
    decreases |s| - i
  {
    if i + 3 <= |s| {
      assert !OccursAt(s, Open, i);
      NoOpenNoPlaceholders(s, i + 1);
    }
  }

  // ---------------------------------------------------------------------------
  // parse_parameters_from_code
  // ---------------------------------------------------------------------------

  /** Python's `name in keys` for the value stored under 'keys'. */
  function Member(keys: Json, name: string): Result<bool> {
    match keys
    case JObj(fields) => Ok(name in fields)
    case JList(items) => Ok(JStr(name) in items)
    case JStr(s) => Ok(Contains(s, name))
    case _ => Failure("TypeError: argument of type is not iterable")
  }

  /** The value one placeholder gets: `keys[name]['value']` when the name is among
    * the keys, None when it is not; indexing anything but a dict of dicts raises. */
  function ParameterValue(keys: Json, name: string): Result<Json> {
    match Member(keys, name)
    case Failure(err) => Failure(err)
    case Ok(present) =>
      if !present then Ok(JNull)
      else if keys.JObj? && keys.fields[name].JObj? && "value" in keys.fields[name].fields then
        Ok(keys.fields[name].fields["value"])
      else Failure("TypeError or KeyError: no 'value' under the name")
  }

  /** The parameter dict after the loop has seen the placeholders `ps`. */
  function ParameterFold(keys: Json, ps: seq<string>): Result<map<string, Json>>
    decreases |ps|
  {
    if |ps| == 0 then Ok(map[])
    else
      match ParameterFold(keys, ps[..|ps| - 1])
      case Failure(err) => Failure(err)
      case Ok(m) =>
        match ParameterValue(keys, ps[|ps| - 1])
        case Failure(err) => Failure(err)
        case Ok(v) => Ok(m[ParameterKey(ps[|ps| - 1]) := v])
  }

  /** `auth_parameters` is a dict with truthy 'keys'. */
  predicate HasKeys(auth: Json) {
    auth.JObj? && Truthy(GetOr(auth, "keys", JNull))
  }

  /** `GetAddonsByKey.parse_parameters_from_code`. */
  function ParseParameters(script: string, auth: Json): Result<map<string, Json>> {
    if !HasKeys(auth) then Ok(map[])
    else ParameterFold(auth.fields["keys"], Placeholders(script, 0))
  }

  /** Once the loop raised, the remaining placeholders change nothing. */
  lemma {:induction false} ParameterFoldFailureStays(keys: Json, ps: seq<string>, j: nat)
    requires j <= |ps| && ParameterFold(keys, ps[..j]).Failure?
    ensures ParameterFold(keys, ps) == ParameterFold(keys, ps[..j])
    decreases |ps| - j
  {
    if j < |ps| {
      assert ps[..j + 1][..j] == ps[..j];
      ParameterFoldFailureStays(keys, ps, j + 1);
    } else {
      assert ps[..j] == ps;
    }
  }

  /** The loop raises exactly when some placeholder's value cannot be read. */
  lemma {:induction false} ParameterFoldFailure(keys: Json, ps: seq<string>)
    ensures ParameterFold(keys, ps).Failure? <==> exists i :: 0 <= i < |ps| && ParameterValue(keys, ps[i]).Failure?
    decreases |ps|
  {
    if |ps| > 0 {
      var init := ps[..|ps| - 1];
      ParameterFoldStep(keys, ps);
      ParameterFoldFailure(keys, init);
      if exists i :: 0 <= i < |init| && ParameterValue(keys, init[i]).Failure? {
        var i :| 0 <= i < |init| && ParameterValue(keys, init[i]).Failure?;
        assert ps[i] == init[i];
      }
      if exists i :: 0 <= i < |ps| && ParameterValue(keys, ps[i]).Failure? {
        var i :| 0 <= i < |ps| && ParameterValue(keys, ps[i]).Failure?;
        if i < |init| {
          assert init[i] == ps[i];
        }
      }
    }
  }

  /** One more placeholder fails the loop exactly when the loop had failed or its value
    * cannot be read; otherwise it adds that value under its key. */
  lemma ParameterFoldStep(keys: Json, ps: seq<string>)
    requires |ps| > 0
    ensures var init, last := ps[..|ps| - 1], ps[|ps| - 1];
      ParameterFold(keys, ps).Failure? <==> ParameterFold(keys, init).Failure? || ParameterValue(keys, last).Failure?
    ensures var init, last := ps[..|ps| - 1], ps[|ps| - 1];
      ParameterFold(keys, ps).Ok? ==>
        ParameterFold(keys, ps).value == ParameterFold(keys, init).value[ParameterKey(last) := ParameterValue(keys, last).value]
  {
  }

  /** Without a failure, the dict has one entry per placeholder, under its parameter key. */
  lemma {:induction false} ParameterFoldKeys(keys: Json, ps: seq<string>)
    requires ParameterFold(keys, ps).Ok?
    ensures forall k :: k in ParameterFold(keys, ps).value <==> exists i :: 0 <= i < |ps| && k == ParameterKey(ps[i])
    decreases |ps|
  {
    if |ps| > 0 {
      var init := ps[..|ps| - 1];
      ParameterFoldStep(keys, ps);
      ParameterFoldKeys(keys, init);
      var m := ParameterFold(keys, init).value;
      forall k
        ensures k in ParameterFold(keys, ps).value <==> exists i :: 0 <= i < |ps| && k == ParameterKey(ps[i])
      {
        if k in m {
          var i :| 0 <= i < |init| && k == ParameterKey(init[i]);
          assert ps[i] == init[i];
        }
        if exists i :: 0 <= i < |ps| && k == ParameterKey(ps[i]) {
          var i :| 0 <= i < |ps| && k == ParameterKey(ps[i]);
          if i < |init| {
            assert init[i] == ps[i];
          }
        }
      }
    }
  }

  /** Without a failure, each placeholder's key holds that placeholder's value. */
  lemma {:induction false} ParameterFoldValues(keys: Json, ps: seq<string>)
    requires ParameterFold(keys, ps).Ok?
    ensures forall i :: 0 <= i < |ps| ==>
      ParameterValue(keys, ps[i]).Ok? && ParameterKey(ps[i]) in ParameterFold(keys, ps).value &&
        ParameterFold(keys, ps).value[ParameterKey(ps[i])] == ParameterValue(keys, ps[i]).value
    decreases |ps|
  {
    if |ps| > 0 {
      var init := ps[..|ps| - 1];
      var last := ps[|ps| - 1];
      ParameterFoldStep(keys, ps);
      ParameterFoldValues(keys, init);
      forall i | 0 <= i < |ps|
        ensures ParameterValue(keys, ps[i]).Ok? && ParameterKey(ps[i]) in ParameterFold(keys, ps).value &&
        ParameterFold(keys, ps).value[ParameterKey(ps[i])] == ParameterValue(keys, ps[i]).value
      {
        if i < |init| {
          assert ps[i] == init[i];
          KeyInjective(ParameterTemplate, ps[i], last);
        }
      }
    }
  }

  /** Without a failure, the dict has one entry per placeholder, under its parameter
    * key, holding that placeholder's value. */
  lemma ParameterFoldEntries(keys: Json, ps: seq<string>)
    requires ParameterFold(keys, ps).Ok?
    ensures forall k :: k in ParameterFold(keys, ps).value <==> exists i :: 0 <= i < |ps| && k == ParameterKey(ps[i])
    ensures forall i :: 0 <= i < |ps| ==>
      ParameterValue(keys, ps[i]).Ok? && ParameterFold(keys, ps).value[ParameterKey(ps[i])] == ParameterValue(keys, ps[i]).value
  {
    ParameterFoldKeys(keys, ps);
    ParameterFoldValues(keys, ps);
  }

  /** What `parse_parameters_from_code` promises: `{}` without a dict that has truthy
    * 'keys'; otherwise, unless reading a value raises, one entry per placeholder of the
    * script, keyed `'¿·name·?'`, holding `keys[name]['value']` when the name is a key
    * and None when it is not. */
  lemma ParseParametersEntries(script: string, auth: Json)
    ensures !HasKeys(auth) ==> ParseParameters(script, auth) == Ok(map[])
    ensures HasKeys(auth) && ParseParameters(script, auth).Ok? ==>
      var ps := Placeholders(script, 0);
      var keys := auth.fields["keys"];
      (forall k :: k in ParseParameters(script, auth).value <==> exists i :: 0 <= i < |ps| && k == ParameterKey(ps[i]))
      && (forall i :: 0 <= i < |ps| ==>
            Contains(script, ParameterKey(ps[i]))
            && (keys.JObj? && ps[i] !in keys.fields ==> ParseParameters(script, auth).value[ParameterKey(ps[i])] == JNull)
            && (keys.JObj? && ps[i] in keys.fields ==>
                  keys.fields[ps[i]].JObj? && "value" in keys.fields[ps[i]].fields
                  && ParseParameters(script, auth).value[ParameterKey(ps[i])] == keys.fields[ps[i]].fields["value"]))
  {
    if HasKeys(auth) && ParseParameters(script, auth).Ok? {
      assert ParseParameters(script, auth) == ParameterFold(auth.fields["keys"], Placeholders(script, 0));
      ParameterFoldEntries(auth.fields["keys"], Placeholders(script, 0));
      PlaceholdersOccur(script, 0);
    }
  }

  /** The parameter loop of `parse_parameters_from_code`. */
  method ParseParametersFromCode(script: string, auth: Json) returns (r: Result<map<string, Json>>)
    ensures r == ParseParameters(script, auth)
  {
    var parameters := Placeholders(script, 0);
    if !HasKeys(auth) {
      return Ok(map[]);
    }
    var keys := auth.fields["keys"];
    var obj: map<string, Json> := map[];
    var i := 0;
    while i < |parameters|
      invariant 0 <= i <= |parameters|
      invariant ParameterFold(keys, parameters[..i]) == Ok(obj)
    {
      var parameterKey := ParameterKey(parameters[i]);
      ghost var before := obj;
      obj := obj[parameterKey := JNull];
      var value := ParameterValue(keys, parameters[i]);
      assert parameters[..i + 1][..i] == parameters[..i];
      if value.Failure? {
        ParameterFoldFailureStays(keys, parameters, i + 1);
        return Failure(value.error);
      }
      obj := obj[parameterKey := value.value];
      assert obj == before[parameterKey := value.value];
      i := i + 1;
    }
    assert parameters[..i] == parameters;
    r := Ok(obj);
  }

  // ---------------------------------------------------------------------------
  // GetAddonsByKey: the payload cached per addons key
  // ---------------------------------------------------------------------------

  /** A row of the addons-by-redis-key query. */
  datatype AddonRow = AddonRow(functionName: string, script: string, scriptLanguage: Json,
                               authParameter: Json, addonVersionId: Json)

  /** `{function_name, script, script_language}` plus the parsed `parameter`. */
  function FunctionEntry(row: AddonRow, parameter: map<string, Json>): Json {
    JObj(map["function_name" := JStr(row.functionName), "script" := JStr(row.script),
             "script_language" := row.scriptLanguage, "parameter" := JObj(parameter)])
  }

  /** `GetAddonsByKey.get_function_data`. */
  function FunctionData(row: AddonRow): Result<Json> {
    match ParseParameters(row.script, row.authParameter)
    case Failure(err) => Failure(err)
    case Ok(parameter) => Ok(FunctionEntry(row, parameter))
  }

  method GetFunctionData(row: AddonRow) returns (r: Result<Json>)
    ensures r == FunctionData(row)
  {
    var parameter := ParseParametersFromCode(row.script, row.authParameter);
    if parameter.Failure? {
      return Failure(parameter.error);
    }
    r := Ok(FunctionEntry(row, parameter.value));
  }

  /** The 'functions' list after the loop has seen `rows`. */
  function AllFunctions(rows: seq<AddonRow>): Result<seq<Json>>
    decreases |rows|
  {
    if |rows| == 0 then Ok([])
    else
      match AllFunctions(rows[..|rows| - 1])
      case Failure(err) => Failure(err)
      case Ok(fs) =>
        match FunctionData(rows[|rows| - 1])
        case Failure(err) => Failure(err)
        case Ok(f) => Ok(fs + [f])
  }

  function LastVersion(rows: seq<AddonRow>): Json {
    if |rows| == 0 then JNull else rows[|rows| - 1].addonVersionId
  }

  /** `GetAddonsByKey.prepare_sync_payload`. */
  function AddonsPayload(rows: seq<AddonRow>): Result<Json> {
    match AllFunctions(rows)
    case Failure(err) => Failure(err)
    case Ok(fs) => Ok(JObj(map["functions" := JList(fs), "addon_version_id" := LastVersion(rows)]))
  }

  lemma {:induction false} AllFunctionsFailureStays(rows: seq<AddonRow>, j: nat)
    requires j <= |rows| && AllFunctions(rows[..j]).Failure?
    ensures AllFunctions(rows) == AllFunctions(rows[..j])
    decreases |rows| - j
  {
    if j < |rows| {
      assert rows[..j + 1][..j] == rows[..j];
      AllFunctionsFailureStays(rows, j + 1);
    } else {
      assert rows[..j] == rows;
    }
  }

  /** The list holds one function per row, in row order, unless some row's
    * parameters cannot be parsed. */
  lemma {:induction false} AllFunctionsInOrder(rows: seq<AddonRow>)
    ensures AllFunctions(rows).Failure? <==> exists i :: 0 <= i < |rows| && FunctionData(rows[i]).Failure?
    ensures AllFunctions(rows).Ok? ==> |AllFunctions(rows).value| == |rows|
    ensures AllFunctions(rows).Ok? ==>
      forall i :: 0 <= i < |rows| ==> FunctionData(rows[i]).Ok? && AllFunctions(rows).value[i] == FunctionData(rows[i]).value
    decreases |rows|
  {
    if |rows| > 0 {
      var init := rows[..|rows| - 1];
      AllFunctionsInOrder(init);
      if exists i :: 0 <= i < |init| && FunctionData(init[i]).Failure? {
        var i :| 0 <= i < |init| && FunctionData(init[i]).Failure?;
        assert rows[i] == init[i];
      }
      if exists i :: 0 <= i < |rows| && FunctionData(rows[i]).Failure? {
        var i :| 0 <= i < |rows| && FunctionData(rows[i]).Failure?;
        if i < |init| {
          assert init[i] == rows[i];
        }
      }
      if AllFunctions(rows).Ok? {
        forall i | 0 <= i < |rows|
          ensures FunctionData(rows[i]).Ok? && AllFunctions(rows).value[i] == FunctionData(rows[i]).value
        {
          if i < |init| {
            assert init[i] == rows[i];
          }
        }
      }
    }
  }

  /** What the shaper promises: one function per row in row order, and the version
    * id of the last row (None with no rows). */
  lemma AddonsPayloadShape(rows: seq<AddonRow>)
    ensures AddonsPayload(rows).Failure? <==> exists i :: 0 <= i < |rows| && FunctionData(rows[i]).Failure?
    ensures AddonsPayload(rows).Ok? ==>
      var fields := AddonsPayload(rows).value.fields;
      fields.Keys == {"functions", "addon_version_id"}
      && fields["functions"].JList? && |fields["functions"].items| == |rows|
      && (forall i :: 0 <= i < |rows| ==> fields["functions"].items[i] == FunctionData(rows[i]).value)
      && (|rows| == 0 ==> fields["addon_version_id"] == JNull)
      && (|rows| > 0 ==> fields["addon_version_id"] == rows[|rows| - 1].addonVersionId)
  {
    AllFunctionsInOrder(rows);
  }

  /** The shaping loop of `prepare_sync_payload`. */
  method PrepareAddonsPayload(rows: seq<AddonRow>) returns (r: Result<Json>)
    ensures r == AddonsPayload(rows)
  {
    var functions: seq<Json> := [];
    var version := JNull;
    var i := 0;
    while i < |rows|
      invariant 0 <= i <= |rows|
      invariant AllFunctions(rows[..i]) == Ok(functions)
      invariant version == LastVersion(rows[..i])
    {
      var f := GetFunctionData(rows[i]);
      assert rows[..i + 1][..i] == rows[..i];
      if f.Failure? {
        AllFunctionsFailureStays(rows, i + 1);
        return Failure(f.error);
      }
      functions := functions + [f.value];
      version := rows[i].addonVersionId;
      i := i + 1;
    }
    assert rows[..i] == rows;
    r := Ok(JObj(map["functions" := JList(functions), "addon_version_id" := version]));
  }

  /** The keyword arguments `get_addons` syncs with: `redis_key=addons_key`. */
  function AddonsArgs(k: string): Kwargs {
    map["redis_key" := Value(JStr(k))]
  }

  /** `sync_data` with `GetAddonsByKey` under key `k`, over a snapshot `store` of the
    * rows per redis key. The search lookup returns `{}`, so nothing is found exactly
    * when there is no row; the arguments carry no expiry, so no expiry is set. */
  function AddonsSync(store: string -> seq<AddonRow>, k: string): Outcome {
    var kw := AddonsArgs(k);
    var queries := [StoreQuery(kw), SearchQuery(kw)];
    var rows := store(k);
    if |rows| == 0 then Outcome(Ok(Empty), queries)
    else
      match AddonsPayload(rows)
      case Failure(err) => Outcome(Failure(err), queries)
      case Ok(p) => Outcome(Ok(p), queries + [CacheOp(WriteCall(k, p))])
  }

  /** The cache after the fill: the payload under the raw key when one was shaped,
    * nothing else changed. */
  lemma AddonsSyncReadBack(e: Entries, store: string -> seq<AddonRow>, k: string)
    ensures var s := AddonsSync(store, k);
      Run(e, s.events) == if |s.events| == 3 then e[k := Document(s.result.value)] else e
  {
    var s := AddonsSync(store, k);
    var kw := AddonsArgs(k);
    var queries := [StoreQuery(kw), SearchQuery(kw)];
    RunSnoc(e, [StoreQuery(kw)], SearchQuery(kw));
    RunOne(e, StoreQuery(kw));
    assert [StoreQuery(kw)] + [SearchQuery(kw)] == queries;
    if |s.events| == 3 {
      RunSnoc(e, queries, s.events[2]);
      assert s.events == queries + [s.events[2]];
    }
  }

  method AddonsSyncData(net: Network, store: string -> seq<AddonRow>, k: string) returns (r: Result<Json>)
    modifies net
    ensures r == AddonsSync(store, k).result
    ensures net.trace == old(net.trace) + AddonsSync(store, k).events
    ensures net.entries == Run(old(net.entries), AddonsSync(store, k).events)
  {
    ghost var e0 := net.entries;
    var kw := AddonsArgs(k);
    var rows := store(k);
    net.Perform(StoreQuery(kw));
    net.Perform(SearchQuery(kw));
    ghost var queries := [StoreQuery(kw), SearchQuery(kw)];
    RunSnoc(e0, [StoreQuery(kw)], SearchQuery(kw));
    RunOne(e0, StoreQuery(kw));
    assert [StoreQuery(kw)] + [SearchQuery(kw)] == queries;
    if |rows| == 0 {
      return Ok(Empty);
    }
    r := PrepareAddonsPayload(rows);
    if r.Failure? {
      return;
    }
    var written := SetDataInCache(net, k, r.value);
    RunSnoc(e0, queries, CacheOp(WriteCall(k, r.value)));
  }

  // ---------------------------------------------------------------------------
  // ManageAddons.get_addons
  // ---------------------------------------------------------------------------

  /** A dict item that names a function. */
  predicate HasName(item: Json) {
    item.JObj? && "function_name" in item.fields
  }

  predicate IsMatch(item: Json, fn: string) {
    HasName(item) && item.fields["function_name"] == JStr(fn)
  }

  /** `next((item for item in items if item["function_name"] == fn), {})`: the first
    * item naming `fn`; reading the name of an item that is not a dict, or has no
    * name, raises. */
  function NextMatch(items: seq<Json>, fn: string): (r: Result<Json>)
    ensures r.Ok? ==> r.value == Empty || IsMatch(r.value, fn)
    decreases |items|
  {
    if |items| == 0 then Ok(Empty)
    else if !HasName(items[0]) then Failure("KeyError or TypeError: item has no 'function_name'")
    else if items[0].fields["function_name"] == JStr(fn) then Ok(items[0])
    else NextMatch(items[1..], fn)
  }

  /** The generator stops at the first match: the items before it all name another
    * function; `{}` comes back only when every item was passed over. */
  lemma {:induction false} NextMatchFirst(items: seq<Json>, fn: string)
    ensures NextMatch(items, fn).Ok? && IsMatch(NextMatch(items, fn).value, fn) ==>
      exists i :: 0 <= i < |items| && items[i] == NextMatch(items, fn).value
        && forall j :: 0 <= j < i ==> HasName(items[j]) && !IsMatch(items[j], fn)
    ensures NextMatch(items, fn) == Ok(Empty) ==> forall j :: 0 <= j < |items| ==> HasName(items[j]) && !IsMatch(items[j], fn)
    ensures NextMatch(items, fn).Failure? ==> exists i :: 0 <= i < |items| && !HasName(items[i])
    decreases |items|
  {
    if |items| > 0 && HasName(items[0]) && items[0].fields["function_name"] != JStr(fn) {
      var rest := items[1..];
      NextMatchFirst(rest, fn);
      if NextMatch(items, fn).Ok? && IsMatch(NextMatch(items, fn).value, fn) {
        var i :| 0 <= i < |rest| && rest[i] == NextMatch(items, fn).value
          && forall j :: 0 <= j < i ==> HasName(rest[j]) && !IsMatch(rest[j], fn);
        assert items[i + 1] == rest[i];
        assert forall j :: 0 <= j < i + 1 ==> HasName(items[j]) && !IsMatch(items[j], fn) by {
          forall j | 0 <= j < i + 1
            ensures HasName(items[j]) && !IsMatch(items[j], fn)
          {
            if j > 0 {
              assert items[j] == rest[j - 1];
            }
          }
        }
      }
      if NextMatch(items, fn) == Ok(Empty) {
        forall j | 0 <= j < |items|
          ensures HasName(items[j]) && !IsMatch(items[j], fn)
        {
          if j > 0 {
            assert items[j] == rest[j - 1];
          }
        }
      }
      if NextMatch(items, fn).Failure? {
        var i :| 0 <= i < |rest| && !HasName(rest[i]);
        assert items[i + 1] == rest[i];
      }
    }
  }

  /** `addons_data['functions']` searched for `fn`: subscripting anything but a dict,
    * or a dict without 'functions', raises; so does reading a name off the keys of a
    * dict or the characters of a string; an empty one searches nothing. */
  function FindFunction(data: Json, fn: string): (r: Result<Json>)
    ensures r.Ok? ==> r.value == Empty || IsMatch(r.value, fn)
  {
    if !data.JObj? then Failure("TypeError: object is not subscriptable")
    else if "functions" !in data.fields then Failure("KeyError: 'functions'")
    else
      match data.fields["functions"]
      case JList(items) => NextMatch(items, fn)
      case JObj(fs) => if |fs| == 0 then Ok(Empty) else Failure("TypeError: string indices must be integers")
      case JStr(s) => if |s| == 0 then Ok(Empty) else Failure("TypeError: string indices must be integers")
      case _ => Failure("TypeError: object is not iterable")
  }

  /** `if functions_data: functions_data["addons_key"] = addons_key`. */
  function Tag(found: Result<Json>, k: string): Result<Json> {
    match found
    case Failure(err) => Failure(err)
    case Ok(item) => Ok(if item.JObj? && Truthy(item) then JObj(item.fields["addons_key" := JStr(k)]) else item)
  }

  /** Lines 62-78: GET_JSON on the templated key; a falsy value is replaced by
    * `sync_data` under the raw key. */
  function AddonsData(e: Entries, t: KeyTemplate, store: string -> seq<AddonRow>, k: string): Outcome {
    var cached := ReadJson(e, Key(t, k));
    var read := [CacheOp(JsonGet(Key(t, k)))];
    if Truthy(cached) then Outcome(Ok(cached), read)
    else
      var s := AddonsSync(store, k);
      Outcome(s.result, read + s.events)
  }

  /** One scanned key: its data, searched for the function and tagged with the key. */
  function KeyStep(e: Entries, t: KeyTemplate, store: string -> seq<AddonRow>, k: string, fn: string): Outcome {
    var d := AddonsData(e, t, store, k);
    match d.result
    case Failure(err) => Outcome(Failure(err), d.events)
    case Ok(data) => Outcome(Tag(FindFunction(data, fn), k), d.events)
  }

  /** The scan over `keys`: a key is looked at only while nothing has been found,
    * each against the cache as the earlier keys left it; a raise ends the scan. */
  function ScanSpec(e: Entries, t: KeyTemplate, store: string -> seq<AddonRow>, keys: seq<string>, fn: string): Outcome
    decreases |keys|
  {
    if |keys| == 0 then Outcome(Ok(Empty), [])
    else
      var prev := ScanSpec(e, t, store, keys[..|keys| - 1], fn);
      if prev.result.Failure? || Truthy(prev.result.value) then prev
      else
        var step := KeyStep(Run(e, prev.events), t, store, keys[|keys| - 1], fn);
        Outcome(step.result, prev.events + step.events)
  }

  /** The function found, tagged with key `k`. */
  predicate FoundUnder(v: Json, fn: string, k: string) {
    IsMatch(v, fn) && "addons_key" in v.fields && v.fields["addons_key"] == JStr(k)
  }

  /** Once a key has yielded the function (or raised), no later key is read or synced. */
  lemma {:induction false} ScanStops(e: Entries, t: KeyTemplate, store: string -> seq<AddonRow>, keys: seq<string>, fn: string, j: nat)
    requires j <= |keys|
    requires var r := ScanSpec(e, t, store, keys[..j], fn).result; r.Failure? || Truthy(r.value)
    ensures ScanSpec(e, t, store, keys, fn) == ScanSpec(e, t, store, keys[..j], fn)
    decreases |keys| - j
  {
    if j < |keys| {
      assert keys[..j + 1][..j] == keys[..j];
      ScanStops(e, t, store, keys, fn, j + 1);
    } else {
      assert keys[..j] == keys;
    }
  }

  /** A key's step yields `{}`, a raise, or the function tagged with that key. */
  lemma KeyStepFound(e: Entries, t: KeyTemplate, store: string -> seq<AddonRow>, k: string, fn: string)
    ensures var r := KeyStep(e, t, store, k, fn).result;
      r.Ok? ==> r.value == Empty || FoundUnder(r.value, fn, k)
  {
  }

  /** One more key: the scan stops where it had stopped, and otherwise ends with that
    * key's step. */
  lemma ScanSpecStep(e: Entries, t: KeyTemplate, store: string -> seq<AddonRow>, keys: seq<string>, fn: string)
    requires |keys| > 0
    ensures var prev := ScanSpec(e, t, store, keys[..|keys| - 1], fn);
      (prev.result.Failure? || Truthy(prev.result.value) ==> ScanSpec(e, t, store, keys, fn) == prev) &&
      (prev.result.Ok? && !Truthy(prev.result.value) ==>
        ScanSpec(e, t, store, keys, fn).result == KeyStep(Run(e, prev.events), t, store, keys[|keys| - 1], fn).result)
  {
  }

  /** `v` is the function tagged with some key `keys[i]`, every earlier key having
    * yielded nothing. */
  predicate FoundFirstUnder(e: Entries, t: KeyTemplate, store: string -> seq<AddonRow>, keys: seq<string>, fn: string, v: Json) {
    exists i :: 0 <= i < |keys| && ScanSpec(e, t, store, keys[..i], fn).result == Ok(Empty) && FoundUnder(v, fn, keys[i])
  }

  /** A key found in a prefix of the keys is found in the whole. */
  lemma FoundFirstExtend(e: Entries, t: KeyTemplate, store: string -> seq<AddonRow>, keys: seq<string>, n: nat, fn: string, v: Json)
    requires n <= |keys| && FoundFirstUnder(e, t, store, keys[..n], fn, v)
    ensures FoundFirstUnder(e, t, store, keys, fn, v)
  {
    var init := keys[..n];
    var i :| 0 <= i < |init| && ScanSpec(e, t, store, init[..i], fn).result == Ok(Empty) && FoundUnder(v, fn, init[i]);
    assert init[..i] == keys[..i];
    assert init[i] == keys[i];
  }

  /** The last key is found when the keys before it yielded nothing. */
  lemma FoundFirstLast(e: Entries, t: KeyTemplate, store: string -> seq<AddonRow>, keys: seq<string>, fn: string, v: Json)
    requires |keys| > 0
    requires ScanSpec(e, t, store, keys[..|keys| - 1], fn).result == Ok(Empty)
    requires FoundUnder(v, fn, keys[|keys| - 1])
    ensures FoundFirstUnder(e, t, store, keys, fn, v)
  {
  }

  /** What `get_addons` returns: `{}`, or the function named `fn` tagged with the
    * first key `keys[i]` that yields it, every earlier key having yielded nothing. */
  lemma {:induction false} ScanResult(e: Entries, t: KeyTemplate, store: string -> seq<AddonRow>, keys: seq<string>, fn: string)
    ensures var r := ScanSpec(e, t, store, keys, fn).result;
      r.Ok? ==> (r.value == Empty || FoundFirstUnder(e, t, store, keys, fn, r.value))
    decreases |keys|
  {
    if |keys| > 0 {
      var n := |keys| - 1;
      var init := keys[..n];
      ScanResult(e, t, store, init, fn);
      ScanSpecStep(e, t, store, keys, fn);
      var prev := ScanSpec(e, t, store, init, fn);
      var r := ScanSpec(e, t, store, keys, fn).result;
      if prev.result.Failure? || Truthy(prev.result.value) {
        if r.Ok? && r.value != Empty {
          FoundFirstExtend(e, t, store, keys, n, fn, r.value);
        }
      } else {
        KeyStepFound(Run(e, prev.events), t, store, keys[n], fn);
        if r.Ok? && r.value != Empty {
          assert prev.result == Ok(Empty);
          FoundFirstLast(e, t, store, keys, fn, r.value);
        }
      }
    }
  }

  /** With a template that is not the identity, a miss fills the raw key and leaves
    * the key the facade reads as it was, so the next call misses again and repeats
    * the same store queries and writes. */
  lemma AddonsMissRepeats(e: Entries, t: KeyTemplate, store: string -> seq<AddonRow>, k: string)
    requires |t.before| + |t.after| > 0
    requires !Truthy(ReadJson(e, Key(t, k)))
    ensures var first := AddonsData(e, t, store, k);
      AddonsData(Run(e, first.events), t, store, k) == first
  {
    var first := AddonsData(e, t, store, k);
    var read := CacheOp(JsonGet(Key(t, k)));
    var s := AddonsSync(store, k);
    RunAppend(e, [read], s.events);
    RunOne(e, read);
    AddonsSyncReadBack(e, store, k);
    assert |Key(t, k)| != |k|;
  }

  /** A truthy cached value is used as is, with no store call and no write. */
  lemma AddonsDataHit(e: Entries, t: KeyTemplate, store: string -> seq<AddonRow>, k: string)
    requires Truthy(ReadJson(e, Key(t, k)))
    ensures AddonsData(e, t, store, k) == Outcome(Ok(ReadJson(e, Key(t, k))), [CacheOp(JsonGet(Key(t, k)))])
    ensures forall i :: 0 <= i < |AddonsData(e, t, store, k).events| ==> !IsStoreCall(AddonsData(e, t, store, k).events[i])
  {
  }

  /** `ManageAddons.__get_addons_by_key` followed, on a miss, by `sync_data`. */
  method FetchAddons(net: Network, t: KeyTemplate, store: string -> seq<AddonRow>, k: string) returns (r: Result<Json>)
    modifies net
    ensures r == AddonsData(old(net.entries), t, store, k).result
    ensures net.trace == old(net.trace) + AddonsData(old(net.entries), t, store, k).events
    ensures net.entries == Run(old(net.entries), AddonsData(old(net.entries), t, store, k).events)
  {
    ghost var e0 := net.entries;
    ghost var t0 := net.trace;
    ghost var read := CacheOp(JsonGet(Key(t, k)));
    var cached := net.GetJson(Key(t, k));
    RunOne(e0, read);
    if Truthy(cached) {
      return Ok(cached);
    }
    ghost var s := AddonsSync(store, k);
    r := AddonsSyncData(net, store, k);
    RunAppend(e0, [read], s.events);
    AppendAssoc(t0, [read], s.events);
  }

  /** One pass of the loop body for a key, while nothing has been found. */
  method ScanKey(net: Network, t: KeyTemplate, store: string -> seq<AddonRow>, k: string, fn: string) returns (r: Result<Json>)
    modifies net
    ensures r == KeyStep(old(net.entries), t, store, k, fn).result
    ensures net.trace == old(net.trace) + KeyStep(old(net.entries), t, store, k, fn).events
    ensures net.entries == Run(old(net.entries), KeyStep(old(net.entries), t, store, k, fn).events)
  {
    var data := FetchAddons(net, t, store, k);
    if data.Failure? {
      return Failure(data.error);
    }
    r := Tag(FindFunction(data.value, fn), k);
  }

  /** `ManageAddons.get_addons`. */
  method GetAddons(net: Network, t: KeyTemplate, store: string -> seq<AddonRow>, keys: seq<string>, fn: string)
    returns (r: Result<Json>)
    modifies net
    ensures r == ScanSpec(old(net.entries), t, store, keys, fn).result
    ensures net.trace == old(net.trace) + ScanSpec(old(net.entries), t, store, keys, fn).events
    ensures net.entries == Run(old(net.entries), ScanSpec(old(net.entries), t, store, keys, fn).events)
  {
    ghost var e0 := net.entries;
    ghost var t0 := net.trace;
    var functionsData := Empty;
    var i := 0;
    while i < |keys|
      invariant 0 <= i <= |keys|
      invariant ScanSpec(e0, t, store, keys[..i], fn).result == Ok(functionsData)
      invariant net.trace == t0 + ScanSpec(e0, t, store, keys[..i], fn).events
      invariant net.entries == Run(e0, ScanSpec(e0, t, store, keys[..i], fn).events)
    {
      assert keys[..i + 1][..i] == keys[..i];
      if !Truthy(functionsData) {
        ghost var prev := ScanSpec(e0, t, store, keys[..i], fn);
        ghost var step := KeyStep(net.entries, t, store, keys[i], fn);
        var found := ScanKey(net, t, store, keys[i], fn);
        RunAppend(e0, prev.events, step.events);
        AppendAssoc(t0, prev.events, step.events);
        if found.Failure? {
          ScanStops(e0, t, store, keys, fn, i + 1);
          return found;
        }
        functionsData := found.value;
      }
      i := i + 1;
    }
    assert keys[..i] == keys;
    r := Ok(functionsData);
  }

  // ---------------------------------------------------------------------------
  // The single-key facades
  // ---------------------------------------------------------------------------

  /** `GetConnectedAddonAuthParameter` and `GetAddonAuthParameter`: the row's
    * `parameter` dict by the id passed as `idName`, returned as the payload. */
  function ParameterGetter(store: Json -> Option<map<string, Json>>, idName: string): Getter<Json> {
    Getter((kw: Kwargs) => match store(Kw(kw, idName)) case Some(p) => JObj(p) case None => JNull,
           (d: Json) => Truthy(d), EmptySearch(), (d: Json, es: Json, kw: Kwargs) => d)
  }

  function IdArgs(idName: string, id: Json): Kwargs {
    map[idName := Value(id)]
  }

  /** A non-empty parameter dict is cached as is and served from the cache on the
    * next call; an empty or missing one is never cached and always reloaded. */
  lemma ParameterFillThenHit(e: Entries, store: Json -> Option<map<string, Json>>, idName: string, id: Json, key: string)
    requires !Truthy(ReadJson(e, key))
    ensures var g := ParameterGetter(store, idName);
      var first := ReadThroughSpec(e, JsonRead, key, g, IdArgs(idName, id));
      (store(id).Some? && |store(id).value| > 0 ==>
         first.result == JObj(store(id).value)
         && ReadThroughSpec(Run(e, first.events), JsonRead, key, g, IdArgs(idName, id)) == Sync(first.result, [CacheOp(JsonGet(key))]))
      && (store(id).None? || |store(id).value| == 0 ==> first.result == Empty && Run(e, first.events) == e)
  {
    var g := ParameterGetter(store, idName);
    var kw := IdArgs(idName, id);
    assert Kw(kw, idName) == id;
    if store(id).Some? && |store(id).value| > 0 {
      ReadThroughFillThenHit(e, JsonRead, key, g, kw);
    } else {
      ReadThroughMiss(e, JsonRead, key, g, kw);
      SyncNotFound(g, key, kw);
      RunWithoutWrites(e, ReadThroughSpec(e, JsonRead, key, g, kw).events);
    }
  }

  /** `ManageConnectedAddonAuthParameters.get_connected_addon_auth_parameters`. */
  method GetConnectedAddonAuthParameters(net: Network, t: KeyTemplate, store: Json -> Option<map<string, Json>>, id: int)
    returns (r: Json)
    modifies net
    ensures var s := ReadThroughSpec(old(net.entries), JsonRead, Key(t, IntStr(id)), ParameterGetter(store, "connected_addon_auth_id"),
                                     IdArgs("connected_addon_auth_id", JInt(id)));
      r == s.result && net.trace == old(net.trace) + s.events && net.entries == Run(old(net.entries), s.events)
  {
    r := ReadThrough(net, JsonRead, Key(t, IntStr(id)), ParameterGetter(store, "connected_addon_auth_id"),
                     IdArgs("connected_addon_auth_id", JInt(id)));
  }

  /** `ManageAddonAuthParameters.get_addon_auth_parameters`. */
  method GetAddonAuthParameters(net: Network, t: KeyTemplate, store: Json -> Option<map<string, Json>>, id: int)
    returns (r: Json)
    modifies net
    ensures var s := ReadThroughSpec(old(net.entries), JsonRead, Key(t, IntStr(id)), ParameterGetter(store, "addon_version_id"),
                                     IdArgs("addon_version_id", JInt(id)));
      r == s.result && net.trace == old(net.trace) + s.events && net.entries == Run(old(net.entries), s.events)
  {
    r := ReadThrough(net, JsonRead, Key(t, IntStr(id)), ParameterGetter(store, "addon_version_id"),
                     IdArgs("addon_version_id", JInt(id)));
  }

  /** A row of the addon-functions query. */
  datatype FunctionRow = FunctionRow(functionName: string, authenticationType: Json, parameter: Json,
                                     script: Json, scriptLanguage: Json)

  function FunctionNameOf(row: FunctionRow): string {
    row.functionName
  }

  /** `GetAddonFunctions.get_function_payload`. */
  function FunctionPayload(row: FunctionRow): Json {
    JObj(map["parameter" := row.parameter, "script" := row.script, "script_language" := row.scriptLanguage])
  }

  /** `GetAddonFunctions.prepare_sync_payload`; it is only reached with at least one
    * row, and the first row's authentication type is taken. */
  function FunctionsPayload(rows: seq<FunctionRow>): Json {
    JObj(map["authentication_type" := if |rows| > 0 then rows[0].authenticationType else JNull,
             "functions" := JObj(Assign(rows, FunctionNameOf, FunctionPayload))])
  }

  /** The authentication type is the first row's, and the functions are keyed by name,
    * a later row with the same name overwriting an earlier one. */
  lemma FunctionsPayloadShape(rows: seq<FunctionRow>)
    requires |rows| > 0
    ensures FunctionsPayload(rows).fields["authentication_type"] == rows[0].authenticationType
    ensures var fs := FunctionsPayload(rows).fields["functions"].fields;
      (forall name :: name in fs <==> exists i :: 0 <= i < |rows| && rows[i].functionName == name)
      && forall i :: 0 <= i < |rows| && IsLast(rows, FunctionNameOf, rows[i].functionName, i) ==>
           fs[rows[i].functionName] == FunctionPayload(rows[i])
  {
    AssignAll(rows, FunctionNameOf, FunctionPayload);
  }

  /** The shaping loop. */
  method PrepareFunctionsPayload(rows: seq<FunctionRow>) returns (r: Json)
    requires |rows| > 0
    ensures r == FunctionsPayload(rows)
  {
    var functions := AssignLoop(rows, FunctionNameOf, FunctionPayload);
    r := JObj(map["authentication_type" := rows[0].authenticationType, "functions" := JObj(functions)]);
  }

  function FunctionsGetter(store: Json -> seq<FunctionRow>): Getter<seq<FunctionRow>> {
    Getter((kw: Kwargs) => store(Kw(kw, "addon_version_id")), (rs: seq<FunctionRow>) => |rs| > 0, EmptySearch(),
           (rs: seq<FunctionRow>, es: Json, kw: Kwargs) => FunctionsPayload(rs))
  }

  /** Found functions are cached and the next call is served from the cache; with no
    * rows the shaper is not reached and nothing is written. */
  lemma FunctionsFillThenHit(e: Entries, store: Json -> seq<FunctionRow>, id: Json, key: string)
    requires !Truthy(ReadJson(e, key))
    ensures var g := FunctionsGetter(store);
      var first := ReadThroughSpec(e, JsonRead, key, g, IdArgs("addon_version_id", id));
      (|store(id)| > 0 ==>
         first.result == FunctionsPayload(store(id))
         && ReadThroughSpec(Run(e, first.events), JsonRead, key, g, IdArgs("addon_version_id", id)) == Sync(first.result, [CacheOp(JsonGet(key))]))
      && (|store(id)| == 0 ==> first.result == Empty && Run(e, first.events) == e)
  {
    var g := FunctionsGetter(store);
    var kw := IdArgs("addon_version_id", id);
    assert Kw(kw, "addon_version_id") == id;
    if |store(id)| > 0 {
      assert "authentication_type" in FunctionsPayload(store(id)).fields;
      ReadThroughFillThenHit(e, JsonRead, key, g, kw);
    } else {
      ReadThroughMiss(e, JsonRead, key, g, kw);
      SyncNotFound(g, key, kw);
      RunWithoutWrites(e, ReadThroughSpec(e, JsonRead, key, g, kw).events);
    }
  }

  /** `ManageAddonFunctions.get_addon_functions`. */
  method GetAddonFunctions(net: Network, t: KeyTemplate, store: Json -> seq<FunctionRow>, id: int) returns (r: Json)
    modifies net
    ensures var s := ReadThroughSpec(old(net.entries), JsonRead, Key(t, IntStr(id)), FunctionsGetter(store),
                                     IdArgs("addon_version_id", JInt(id)));
      r == s.result && net.trace == old(net.trace) + s.events && net.entries == Run(old(net.entries), s.events)
  {
    r := ReadThrough(net, JsonRead, Key(t, IntStr(id)), FunctionsGetter(store), IdArgs("addon_version_id", JInt(id)));
  }

  /** A row of the third-party variable mapping query. */
  datatype MappingRow = MappingRow(kind: Json, configs: Json, mappings: Json)

  /** `GetConnectedAddonThirdPartyContactVariableMappings.prepare_sync_payload`. */
  function MappingPayload(row: MappingRow): Json {
    JObj(map["type" := row.kind, "configs" := row.configs, "mappings" := row.mappings])
  }

  function MappingGetter(store: Json -> Option<MappingRow>): Getter<Option<MappingRow>> {
    Getter((kw: Kwargs) => store(Kw(kw, "connected_addon_auth_id")), (d: Option<MappingRow>) => d.Some?, EmptySearch(),
           (d: Option<MappingRow>, es: Json, kw: Kwargs) => if d.Some? then MappingPayload(d.value) else Empty)
  }

  /** A found mapping is cached as `{type, configs, mappings}` and served from the cache
    * on the next call; a missing one writes nothing. */
  lemma MappingFillThenHit(e: Entries, store: Json -> Option<MappingRow>, id: Json, key: string)
    requires !Truthy(ReadJson(e, key))
    ensures var g := MappingGetter(store);
      var first := ReadThroughSpec(e, JsonRead, key, g, IdArgs("connected_addon_auth_id", id));
      (store(id).Some? ==>
         first.result == MappingPayload(store(id).value)
         && first.result.fields.Keys == {"type", "configs", "mappings"}
         && ReadThroughSpec(Run(e, first.events), JsonRead, key, g, IdArgs("connected_addon_auth_id", id)) == Sync(first.result, [CacheOp(JsonGet(key))]))
      && (store(id).None? ==> first.result == Empty && Run(e, first.events) == e)
  {
    var g := MappingGetter(store);
    var kw := IdArgs("connected_addon_auth_id", id);
    assert Kw(kw, "connected_addon_auth_id") == id;
    if store(id).Some? {
      assert "type" in MappingPayload(store(id).value).fields;
      ReadThroughFillThenHit(e, JsonRead, key, g, kw);
    } else {
      ReadThroughMiss(e, JsonRead, key, g, kw);
      SyncNotFound(g, key, kw);
      RunWithoutWrites(e, ReadThroughSpec(e, JsonRead, key, g, kw).events);
    }
  }

  /** `ManageConnectedAddonThirdPartyContactVariableMappings.get_connected_addon_third_party_variable_mappings`. */
  method GetConnectedAddonThirdPartyVariableMappings(net: Network, t: KeyTemplate, store: Json -> Option<MappingRow>, id: int)
    returns (r: Json)
    modifies net
    ensures var s := ReadThroughSpec(old(net.entries), JsonRead, Key(t, IntStr(id)), MappingGetter(store),
                                     IdArgs("connected_addon_auth_id", JInt(id)));
      r == s.result && net.trace == old(net.trace) + s.events && net.entries == Run(old(net.entries), s.events)
  {
    r := ReadThrough(net, JsonRead, Key(t, IntStr(id)), MappingGetter(store), IdArgs("connected_addon_auth_id", JInt(id)));
  }

  /** A connected addon found by its webhook key. */
  datatype WebhookRow = WebhookRow(connectedAddonAuthId: Json, mappings: Json, configs: Json, accountId: Json)

  /** `GetConnectedAddonDetailsByWebhookKey.prepare_sync_payload`. */
  function WebhookPayload(row: WebhookRow): Json {
    JObj(map["connected_addon_auth_id" := row.connectedAddonAuthId, "mappings" := row.mappings,
             "configs" := row.configs, "account_id" := row.accountId])
  }

  function WebhookGetter(store: Json -> Option<WebhookRow>): Getter<Option<WebhookRow>> {
    Getter((kw: Kwargs) => store(Kw(kw, "webhook_key")), (d: Option<WebhookRow>) => d.Some?, EmptySearch(),
           (d: Option<WebhookRow>, es: Json, kw: Kwargs) => if d.Some? then WebhookPayload(d.value) else Empty)
  }

  /** A connected addon found by webhook key is cached with its four fields and served
    * from the cache on the next call; an unknown webhook key writes nothing. */
  lemma WebhookFillThenHit(e: Entries, store: Json -> Option<WebhookRow>, webhookKey: Json, key: string)
    requires !Truthy(ReadJson(e, key))
    ensures var g := WebhookGetter(store);
      var first := ReadThroughSpec(e, JsonRead, key, g, IdArgs("webhook_key", webhookKey));
      (store(webhookKey).Some? ==>
         first.result == WebhookPayload(store(webhookKey).value)
         && first.result.fields.Keys == {"connected_addon_auth_id", "mappings", "configs", "account_id"}
         && ReadThroughSpec(Run(e, first.events), JsonRead, key, g, IdArgs("webhook_key", webhookKey)) == Sync(first.result, [CacheOp(JsonGet(key))]))
      && (store(webhookKey).None? ==> first.result == Empty && Run(e, first.events) == e)
  {
    var g := WebhookGetter(store);
    var kw := IdArgs("webhook_key", webhookKey);
    assert Kw(kw, "webhook_key") == webhookKey;
    if store(webhookKey).Some? {
      assert "account_id" in WebhookPayload(store(webhookKey).value).fields;
      ReadThroughFillThenHit(e, JsonRead, key, g, kw);
    } else {
      ReadThroughMiss(e, JsonRead, key, g, kw);
      SyncNotFound(g, key, kw);
      RunWithoutWrites(e, ReadThroughSpec(e, JsonRead, key, g, kw).events);
    }
  }

  /** `ManageConnectedAddonGetDetailsByWebhookKey.get_connected_addon_details_by_webhook_key`. */
  method GetConnectedAddonDetailsByWebhookKey(net: Network, t: KeyTemplate, store: Json -> Option<WebhookRow>, webhookKey: string)
    returns (r: Json)
    modifies net
    ensures var s := ReadThroughSpec(old(net.entries), JsonRead, Key(t, webhookKey), WebhookGetter(store),
                                     IdArgs("webhook_key", JStr(webhookKey)));
      r == s.result && net.trace == old(net.trace) + s.events && net.entries == Run(old(net.entries), s.events)
  {
    r := ReadThrough(net, JsonRead, Key(t, webhookKey), WebhookGetter(store), IdArgs("webhook_key", JStr(webhookKey)));
  }

  // ---------------------------------------------------------------------------
  // GetAddonVersionAndAuthDetails
  // ---------------------------------------------------------------------------

  /** `get_addon_version_id_and_connected_addon_auth_id` over snapshots of its two
    * queries: by function name alone (the version id of the row found) and by function
    * name and account (the row's two columns). */
  function AddonVersionAndAuthId(functionName: string, accountId: Json,
                                 byName: string -> Option<Json>,
                                 byAccount: (string, Json) -> Option<(Json, Json)>): (r: (Json, Json))
    ensures !Truthy(accountId) ==> r.1 == JNull
    ensures !Truthy(accountId) && byName(functionName).None? ==> r == (JNull, JNull)
    ensures Truthy(accountId) && byAccount(functionName, accountId).None? ==> r == (JNull, JNull)
    ensures r != (JNull, JNull) ==>
      (!Truthy(accountId) && byName(functionName) == Some(r.0)) || (Truthy(accountId) && byAccount(functionName, accountId) == Some(r))
  {
    if !Truthy(accountId) then
      (if byName(functionName).Some? then byName(functionName).value else JNull, JNull)
    else if byAccount(functionName, accountId).Some? then byAccount(functionName, accountId).value
    else (JNull, JNull)
  }
}
