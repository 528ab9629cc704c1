/** Plans ordered by economical priority, read from the store without caching. */
module Plan {
  import opened Json
  import opened Cache

  datatype PlanRow = PlanRow(planId: Json)

  /** `GetPlansByEconomicalPriority.prepare_sync_payload`: `{"plans": [plan_id, ...]}`
    * with one id per row, in row order. */
  function PlansPayload(rows: seq<PlanRow>): (p: Json)
    ensures p.JObj? && p.fields.Keys == {"plans"} && p.fields["plans"].JList?
    ensures |p.fields["plans"].items| == |rows|
    ensures forall i :: 0 <= i < |rows| ==> p.fields["plans"].items[i] == rows[i].planId
  {
    JObj(map["plans" := JList(seq(|rows|, i requires 0 <= i < |rows| => rows[i].planId))])
  }

  /** The shaping loop, appending one plan id per row. */
  method PrepareSyncPayload(rows: seq<PlanRow>) returns (p: Json)
    ensures p == PlansPayload(rows)
  {
    var plans: seq<Json> := [];
    var i := 0;
    while i < |rows|
      invariant 0 <= i <= |rows|
      invariant plans == seq(i, j requires 0 <= j < i => rows[j].planId)
    {
      plans := plans + [rows[i].planId];
      i := i + 1;
    }
    p := JObj(map["plans" := JList(plans)]);
  }

  /** With no plan rows the result is `{"plans": []}`. */
  lemma NoPlans()
    ensures PlansPayload([]) == JObj(map["plans" := JList([])])
  {
  }

  /** `ManagePlan.get_plans_with_economical_priority`: one store query, shaped
    * directly; the cache is neither read nor written. */
  method GetPlansWithEconomicalPriority(net: Network, rows: seq<PlanRow>) returns (r: Json)
    modifies net
    ensures r == PlansPayload(rows)
    ensures net.entries == old(net.entries)
    ensures net.trace == old(net.trace) + [StoreQuery(map[])]
  {
    net.Perform(StoreQuery(map[]));
    r := PrepareSyncPayload(rows);
  }
}
