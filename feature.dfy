/** The feature to minimum-plan mapping, cached under one fixed key. */
module Feature {
  import opened Json
  import opened Cache
  import opened Handler
  import opened Batch

  /** A row of the feature/minimum-plan query. */
  datatype MappingRow = MappingRow(featureKey: string, featureId: Json, planId: Json, stripePlanId: Json, planName: Json)

  function FeatureKeyOf(r: MappingRow): string {
    r.featureKey
  }

  /** `{id, plan: {id, stripe_plan_id, name}}` copied from a row. */
  function Entry(r: MappingRow): Json {
    JObj(map["id" := r.featureId,
             "plan" := JObj(map["id" := r.planId, "stripe_plan_id" := r.stripePlanId, "name" := r.planName])])
  }

  /** `GetFeatureMinimumPlanMapping.prepare_sync_payload`: one entry per feature key,
    * and a later row with the same key overwrites an earlier one. */
  function FeaturePayload(rows: seq<MappingRow>): (m: map<string, Json>)
    ensures forall k :: k in m <==> exists i :: 0 <= i < |rows| && rows[i].featureKey == k
    ensures forall i :: 0 <= i < |rows| && IsLast(rows, FeatureKeyOf, rows[i].featureKey, i) ==>
      m[rows[i].featureKey] == Entry(rows[i])
  {
    AssignAll(rows, FeatureKeyOf, Entry);
    Assign(rows, FeatureKeyOf, Entry)
  }

  /** The shaping loop. */
  method PrepareSyncPayload(rows: seq<MappingRow>) returns (payload: map<string, Json>)
    ensures payload == FeaturePayload(rows)
  {
    payload := AssignLoop(rows, FeatureKeyOf, Entry);
  }

  /** `GetFeatureMinimumPlanMapping` over a snapshot of the rows: found when there is a row. */
  function FeatureGetter(rows: seq<MappingRow>): Getter<seq<MappingRow>> {
    Getter((kw: Kwargs) => rows, (rs: seq<MappingRow>) => |rs| > 0, EmptySearch(),
           (rs: seq<MappingRow>, es: Json, kw: Kwargs) => JObj(FeaturePayload(rs)))
  }

  /** No rows: the fill returns `{}` and writes nothing. */
  lemma NoRowsNotCached(key: string, kw: Kwargs)
    ensures SyncSpec(FeatureGetter([]), key, kw) == Sync(Empty, [StoreQuery(kw), SearchQuery(kw)])
  {
  }

  /** `ManageFeature.get_feature_minimum_plan_mapping`: GET_JSON on the fixed key, filled on a miss. */
  method GetFeatureMinimumPlanMapping(net: Network, rows: seq<MappingRow>, key: string) returns (r: Json)
    modifies net
    ensures r == ReadThroughSpec(old(net.entries), JsonRead, key, FeatureGetter(rows), map[]).result
    ensures net.trace == old(net.trace) + ReadThroughSpec(old(net.entries), JsonRead, key, FeatureGetter(rows), map[]).events
    ensures net.entries == Run(old(net.entries), ReadThroughSpec(old(net.entries), JsonRead, key, FeatureGetter(rows), map[]).events)
  {
    r := ReadThrough(net, JsonRead, key, FeatureGetter(rows), map[]);
  }
}
