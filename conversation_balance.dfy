/** The remaining conversation balance of an account, cached as its decimal text. */
module ConversationBalance {
  import opened Json
  import opened Cache
  import opened Handler

  /** The subscription period of an account. */
  datatype Period = Period(startAt: Json, endAt: Json)

  /** The store as the fill sees it: the current subscription period, the credited
    * balance the stored procedure reports for a period (None when it reports none),
    * the account's bot ids, and the conversation count of those bots in a period. */
  datatype BalanceStore = BalanceStore(
    period: Json -> Option<Period>,
    credited: (Json, Json, Json) -> Option<int>,
    bots: Json -> seq<int>,
    count: (Json, Json, seq<int>) -> int)

  /** `GetAccountConversationRemainingBalance.get_data_from_sql`: `{conversation_balance}`
    * when the account has a period and a non-zero credited balance, that balance less
    * the period's conversation count; None otherwise. */
  function BalanceFromSql(st: BalanceStore, accountId: Json): (r: Option<int>)
    ensures r.Some? <==> (st.period(accountId).Some?
      && var p := st.period(accountId).value;
         st.credited(p.startAt, p.endAt, accountId).Some? && st.credited(p.startAt, p.endAt, accountId).value != 0)
    ensures r.Some? ==> var p := st.period(accountId).value;
      r.value == st.credited(p.startAt, p.endAt, accountId).value - st.count(p.startAt, p.endAt, st.bots(accountId))
  {
    match st.period(accountId)
    case None => None
    case Some(p) =>
      var credited := st.credited(p.startAt, p.endAt, accountId);
      if credited.None? || credited.value == 0 then None
      else
        var count := st.count(p.startAt, p.endAt, st.bots(accountId));
        Some(if count != 0 then credited.value - count else credited.value)
  }

  /** `prepare_sync_payload`: the balance itself. */
  function BalancePayload(d: Option<int>): Json {
    if d.Some? then JInt(d.value) else JNull
  }

  function BalanceGetter(st: BalanceStore): Getter<Option<int>> {
    Getter((kw: Kwargs) => BalanceFromSql(st, Kw(kw, "account_id")), (d: Option<int>) => d.Some?,
           EmptySearch(), (d: Option<int>, es: Json, kw: Kwargs) => BalancePayload(d))
  }

  function BalanceArgs(accountId: int): Kwargs {
    map["account_id" := Value(JInt(accountId))]
  }

  /** The fill writes the balance with SET, which stores its decimal text, and that is
    * what the facade's GET reads: every balance found, 0 included, is served from the
    * cache on the next call, as a string. */
  lemma {:induction false} BalanceCached(e: Entries, key: string, st: BalanceStore, accountId: int)
    requires !Truthy(ReadScalar(e, key))
    requires BalanceFromSql(st, JInt(accountId)).Some?
    ensures var b := BalanceFromSql(st, JInt(accountId)).value;
      var first := ReadThroughSpec(e, StringRead, key, BalanceGetter(st), BalanceArgs(accountId));
      first.result == JInt(b)
      && ReadThroughSpec(Run(e, first.events), StringRead, key, BalanceGetter(st), BalanceArgs(accountId))
         == Sync(JStr(IntStr(b)), [CacheOp(ReadCall(StringRead, key))])
  {
    assert Kw(BalanceArgs(accountId), "account_id") == JInt(accountId);
    StoredText(JInt(BalanceFromSql(st, JInt(accountId)).value));
    ReadThroughFillThenHit(e, StringRead, key, BalanceGetter(st), BalanceArgs(accountId));
  }

  /** Without a subscription period nothing is cached and the caller gets `{}`. */
  lemma NoPeriodNotCached(key: string, st: BalanceStore, accountId: int)
    requires st.period(JInt(accountId)).None?
    ensures SyncSpec(BalanceGetter(st), key, BalanceArgs(accountId))
      == Sync(Empty, [StoreQuery(BalanceArgs(accountId)), SearchQuery(BalanceArgs(accountId))])
  {
    assert Kw(BalanceArgs(accountId), "account_id") == JInt(accountId);
  }

  /** `ManageAccountConversationBalanceAudit.get_account_conversation_remaining_balance`:
    * GET on ACCOUNT_CONVERSATION_REMAINING_BALANCE(account_id), filled on a miss. */
  method GetAccountConversationRemainingBalance(net: Network, st: BalanceStore, template: KeyTemplate,
                                                accountId: int) returns (r: Json)
    modifies net
    ensures var spec := ReadThroughSpec(old(net.entries), StringRead, Key(template, IntStr(accountId)), BalanceGetter(st), BalanceArgs(accountId));
      r == spec.result && net.trace == old(net.trace) + spec.events && net.entries == Run(old(net.entries), spec.events)
  {
    r := ReadThrough(net, StringRead, Key(template, IntStr(accountId)), BalanceGetter(st), BalanceArgs(accountId));
  }
}
