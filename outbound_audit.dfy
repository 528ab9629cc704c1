/** The latest outbound-message audit of several accounts, read from the store without caching. */
module OutboundAudit {
  import opened Json
  import opened Cache
  import opened Batch

  datatype AuditRow = AuditRow(id: Json, accountId: int, planId: Json, startAt: Json, endAt: Json,
                               outboundMessageBalance: Json, outboundMessageRemainingBalance: Json)

  function AccountKey(r: AuditRow): string {
    IntStr(r.accountId)
  }

  /** The seven audit fields of a row. */
  function AuditEntry(r: AuditRow): Json {
    JObj(map["id" := r.id, "account_id" := JInt(r.accountId), "plan_id" := r.planId,
             "start_at" := r.startAt, "end_at" := r.endAt,
             "outbound_message_balance" := r.outboundMessageBalance,
             "outbound_message_remaining_balance" := r.outboundMessageRemainingBalance])
  }

  /** `GetAccountOutboundMessageLatestAudit.prepare_sync_payload`: keyed by `str(account_id)`,
    * a later row of the same account overwriting an earlier one; no rows give `{}`. */
  function AuditPayload(rows: seq<AuditRow>): (m: map<string, Json>)
    ensures forall k :: k in m <==> exists i :: 0 <= i < |rows| && IntStr(rows[i].accountId) == k
    ensures forall i :: 0 <= i < |rows| && IsLast(rows, AccountKey, IntStr(rows[i].accountId), i) ==>
      m[IntStr(rows[i].accountId)] == AuditEntry(rows[i])
    ensures |rows| == 0 ==> m == map[]
  {
    AssignAll(rows, AccountKey, AuditEntry);
    Assign(rows, AccountKey, AuditEntry)
  }

  /** Two rows of the same account: only the later one's audit is kept. */
  lemma LaterRowOverwrites(a: AuditRow, b: AuditRow)
    requires a.accountId == b.accountId
    ensures AuditPayload([a, b]) == map[IntStr(a.accountId) := AuditEntry(b)]
  {
    assert [a, b][..1] == [a];
  }

  /** `ManageAccountOutboundMessageBalanceAudit.get_multiple_account_outbound_message_latest_audit`:
    * one store query, shaped directly; the cache is neither read nor written. */
  method GetMultipleAccountOutboundMessageLatestAudit(net: Network, audits: (Json, Json) -> seq<AuditRow>,
                                                      accountIds: Json, todayDate: Json) returns (r: Json)
    modifies net
    ensures r == JObj(AuditPayload(audits(accountIds, todayDate)))
    ensures net.entries == old(net.entries)
    ensures net.trace == old(net.trace) + [StoreQuery(map["account_ids" := Value(accountIds), "today_date" := Value(todayDate)])]
  {
    net.Perform(StoreQuery(map["account_ids" := Value(accountIds), "today_date" := Value(todayDate)]));
    var rows := audits(accountIds, todayDate);
    var m := AssignLoop(rows, AccountKey, AuditEntry);
    r := JObj(m);
  }
}
