/** Conversations, read from the cache only, and the total conversation count of an account. */
module Conversation {
  import opened Json
  import opened Cache
  import opened Handler

  /** `ManageConversation.get_conversation`: an empty key gives `{}` without a cache call;
    * otherwise one GET_JSON on CONVERSATION(key), with a falsy document replaced by `{}`.
    * The cache is never written, so the result is the cached document or `{}`. */
  function ConversationSpec(e: Entries, conversation: KeyTemplate, key: string): (s: Sync)
    ensures key == "" ==> s == Sync(Empty, [])
    ensures key != "" ==> s.events == [CacheOp(JsonGet(Key(conversation, key)))]
    ensures Truthy(s.result) ==> key != "" && s.result == ReadJson(e, Key(conversation, key))
    ensures !Truthy(s.result) ==> s.result == Empty
  {
    if key == "" then Sync(Empty, [])
    else
      var c := ReadJson(e, Key(conversation, key));
      Sync(if Truthy(c) then c else Empty, [CacheOp(JsonGet(Key(conversation, key)))])
  }

  /** A conversation lookup leaves the cache as it was. */
  lemma {:induction false} ConversationReadOnly(e: Entries, conversation: KeyTemplate, key: string)
    ensures Run(e, ConversationSpec(e, conversation, key).events) == e
  {
    var s := ConversationSpec(e, conversation, key);
    if key != "" {
      RunOne(e, CacheOp(JsonGet(Key(conversation, key))));
    }
  }

  method GetConversation(net: Network, conversation: KeyTemplate, key: string) returns (r: Json)
    modifies net
    ensures r == ConversationSpec(old(net.entries), conversation, key).result
    ensures net.trace == old(net.trace) + ConversationSpec(old(net.entries), conversation, key).events
    ensures net.entries == old(net.entries)
  {
    var c := Empty;
    if key != "" {
      c := net.GetJson(Key(conversation, key));
    }
    r := if Truthy(c) then c else Empty;
  }

  /** `get_account_total_conversation_count`: the count the store reports for the
    * account, with one count query and no cache call. */
  method GetAccountTotalConversationCount(net: Network, count: Json -> int, accountId: Json) returns (n: int)
    modifies net
    ensures n == count(accountId)
    ensures net.entries == old(net.entries)
    ensures net.trace == old(net.trace) + [CountQuery(accountId)]
  {
    net.Perform(CountQuery(accountId));
    n := count(accountId);
  }
}
