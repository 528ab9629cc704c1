# A verified model of the read-through cache layer

This project models, in Dafny, the data-access layer of a Flask service: the
`DataAccessLib` package that serves accounts, bots, agents, visitors, add-ons,
channels, flows, features, teams, plans, conversations and their audits out of a
Redis cache, falling back to the relational store (and, for visitors, the search
index) on a miss, together with the pure helpers in `UtilsLib/utility.py`,
`UtilsLib/html_parser.py` and `app/common/utils.py`.

The pieces:

- `Cache` is the connection network made explicit. The class `Network` holds the
  cache entries (a map from key to a string entry or a RedisJSON document) and a
  trace of every call made to the cache, the store and the search index, in order.
  Its methods are the Redis commands the layer issues: GET, GET_JSON,
  GET_MULTIPLE, SET, SET_JSON, SET_JSON_NX, SET_EXPIRY_TIME and INCREMENT_VALUE.
- `Handler` is the read-through engine: a generic `Getter` (the store lookup, its
  truthiness, the search lookup and the payload shaper), `sync_data` as the method
  `SyncData`, proved equal to the specification `SyncSpec`, and the shared facade
  `ReadThrough` (read the key; on a falsy value, sync under the same key).
- `Batch` holds the generic pieces of the multi-key fills: last-write-wins
  dictionaries built from rows, row-ordered grouping, positional misses and the
  one-write-per-row cache fill.
- One module per entity file (`Account`, `Bot`, `Agent`, `Visitor`, `Addons`,
  `ConversationAssignment`, `BotChannelMapping`, `ChannelConfiguration`, `Channel`,
  `Flow`, `Feature`, `Team`, `OutboundAudit`, `Plan`, `Conversation`,
  `ProviderAuth`, `ConversationBalance`), plus `KeyMapping` for the key-to-id
  lookups, each with its Getter(s), its shapers and its facades.
- `CommonUtility` covers `DataAccessLib/common/utility.py`. The utility modules
  (`Variables`, `Numerals`, `Calendar`, `ErrorTree`, `Channels`, `Validation`)
  cover `UtilsLib/utility.py`. `HtmlParser` covers `UtilsLib/html_parser.py` and
  `OrmUtils` covers `app/common/utils.py`.

Methods that loop or change state in the source are Dafny methods with loop
invariants, proved equal to a specification function. The lemmas beside each
function state what the source promises about it.

Conventions:

- The store and the search index are snapshots passed in as functions.
- Key templates (`RedisKeyEnum`) are values `KeyTemplate(before, after)` with one
  placeholder, and the lemma `Cache.KeyInjective` shows that they are injective.
- Python truthiness is `Json.Truthy`.
- A Python exception is the `Failure` of a `Result`.

Behaviour of the source that the lemmas make explicit:

- `get_addons` reads the templated ADDONS_KEY but fills the raw key, so with a
  template other than the identity every call misses again
  (`Addons.AddonsMissRepeats`).
- A zero bot id, an unknown channel configuration and an unusable provider
  authorisation are all written to the cache in a form the next read treats as a
  miss, so they are fetched again on every call
  (`BotChannelMapping.ZeroBotIdAlwaysRefetched`,
  `ChannelConfiguration.UnknownConfigAlwaysRefetched`,
  `ProviderAuth.UnusableAuthAlwaysRefetched`).
- SET stores the text of an int, so a conversation balance comes back from a cache
  hit as a decimal string, and a balance of 0 is cached as `"0"`, which is truthy
  (`ConversationBalance.BalanceCached`).
- In `get_default_name`, when the maximum is positive and the series non-empty
  (`Visitor.ValidNameConfig`), the counter returned by `get_visitor_pattern` never
  exceeds the maximum, so the branch that rolls the series over is never taken
  (`Visitor.VisitorPattern`, `Visitor.DefaultName`). With a maximum of 0 and a falsy
  counter, `get_visitor_pattern` returns 1 and the first series, and the roll-over is
  taken; the model does not cover that configuration.

## Model

| member | source | states |
|---|---|---|
| Handler.WriteCall | app/common/DataAccessLib/handler.py:121-127 | a str or int value (bool included) is written with SET, every other value with SET_JSON at the root; the command carries the given key and value |
| Handler.SyncNotFound | app/common/DataAccessLib/handler.py:105-109 | when both results are falsy, `sync_data` returns `{}` after the two queries and makes no cache call at all |
| Handler.SyncOrder | app/common/DataAccessLib/handler.py:105-118 | the store is queried first and the search index second; every later call goes to the cache, and there is a later call exactly when something was found |
| Handler.SyncFound | app/common/DataAccessLib/handler.py:111-118 | when something was found, the result is the payload shaped from both results with `db_session` and `cache_conn` added to the arguments. That payload is written exactly once, under `key`. The expiry follows on the same key exactly when `redis_key_expire_time` is truthy |
| Handler.SyncReadBack | app/common/DataAccessLib/handler.py:113-128 | after a fill the key holds the payload: for a str or int, a string entry holding its text (an int's decimal digits, a bool's `True`/`False`); otherwise a document. No other key changes |
| Handler.BaseGetterSyncsNothing | app/common/DataAccessLib/handler.py:10-69 | the base Getter returns None everywhere, so syncing with it returns `{}` and writes nothing |
| Handler.SetDataInCache | app/common/DataAccessLib/handler.py:121-128 | issues exactly the write `WriteCall` chooses, applies it to the cache, and returns the value it was given |
| Handler.SetRedisKeyExpire | app/common/DataAccessLib/handler.py:131-133 | issues one SET_EXPIRY_TIME for the key and leaves every entry as it was |
| Handler.SyncData | app/common/DataAccessLib/handler.py:82-118 | returns `SyncSpec`'s result, makes exactly `SyncSpec`'s calls in that order, and leaves the cache as those calls make it |
| Handler.ReadThroughHit | app/common/DataAccessLib/account.py:48-57 | a truthy cache value is returned unchanged after one read, with no store or search call and no write |
| Handler.ReadThroughMiss | app/common/DataAccessLib/account.py:48-57 | on a falsy cache value the facade returns exactly what `sync_data` returns for the same key, after the one read |
| Handler.ReadThroughFillThenHit | app/common/DataAccessLib/account.py:48-57 | a miss that writes a payload of the kind the facade reads, where the value read back is truthy, makes the next call a hit with no store call. A document is read back as itself, a str or int as its text |
| Handler.ReadThroughNeverHits | app/common/DataAccessLib/account.py:48-57 | a payload whose read-back value is falsy, or that is written as one kind of entry and read as the other, is never found again, so every call goes back to the store |
| Handler.SyncRaises | app/common/DataAccessLib/handler.py:105-118 | with a store lookup or shaper that can raise, `sync_data` raises exactly when the lookup raises, or something was found and shaping it raises. A raising call makes no cache call; a returning one is the plain sync |
| Handler.SyncDataOutcome | app/common/DataAccessLib/handler.py:105-118 | the method's result, calls and cache are those of `SyncOutcome` |
| Handler.ReadThroughRaises | app/common/DataAccessLib/account.py:48-57 | a facade call that raises found a falsy cached value, its sync raised, and the cache is as it was; a returning call is the plain read-through |
| Handler.ReadThroughRaising | app/common/DataAccessLib/account.py:48-57 | the method's result, calls and cache are those of `ReadThroughOutcome` |
| Handler.ReadThrough | app/common/DataAccessLib/account.py:48-57 | reads the key with GET or GET_JSON and syncs on a falsy value; its result, trace and final cache are those of `ReadThroughSpec` |
| Cache.KeyInjective | app/common/DataAccessLib/account.py:48 | a key template maps distinct arguments to distinct keys, and equal arguments to the same key |
| CommonUtility.GetDatabase | app/common/DataAccessLib/common/utility.py:19-24 | a falsy argument selects MySQL; a truthy one is accepted exactly when it is a listed database, and any other raises `InvalidSQLDataBase` |
| CommonUtility.GetDatabaseUrl | app/common/DataAccessLib/common/utility.py:27-30 | MySQL has its URL template; any other value gives None |
| CommonUtility.AcceptedDatabaseHasUrl | app/common/DataAccessLib/common/utility.py:19-30 | every database `get_database` accepts has a URL |
| CommonUtility.AddLog | app/common/DataAccessLib/common/utility.py:33-35 | the message reaches the logger exactly when there is one |
| CommonUtility.Singleton.Call | app/common/DataAccessLib/common/utility.py:48-51 | the first call constructs the instance from its own arguments; every later call returns that same instance and ignores its arguments |
| CommonUtility.CallTwice | app/common/DataAccessLib/common/utility.py:44-51 | two calls on a singleton return the same instance, whatever their arguments |
| CommonUtility.RemoveNoneKeeps | app/common/DataAccessLib/common/utility.py:70-71 | no None is left, and every other value, falsy or not, keeps its number of occurrences |
| CommonUtility.RemoveNoneWithoutNone | app/common/DataAccessLib/common/utility.py:70-71 | a list without None is returned unchanged |
| CommonUtility.RemoveNoneOrder | app/common/DataAccessLib/common/utility.py:70-71 | the result lists the input's non-None elements in their original order, position by position |
| CommonUtility.RemoveNoneAppend | app/common/DataAccessLib/common/utility.py:70-71 | filtering a concatenation filters each part |
| CommonUtility.PatternOf | app/common/DataAccessLib/common/utility.py:74-84 | a name with the contact prefix goes into the contact pattern with the prefix removed; otherwise a name with the conversation prefix goes into the conversation pattern; any other name is returned unchanged |
| CommonUtility.ContactPattern | app/common/DataAccessLib/common/utility.py:74-81 | a contact name whose prefix occurs only at its start maps to the contact pattern around the rest of the name |
| CommonUtility.ValueKeyOf | app/common/DataAccessLib/common/utility.py:87-98 | text, name, email and phone give VALUE; date gives VALUE_DATE; number gives VALUE_DOUBLE; boolean gives VALUE_BOOLEAN; each in both directions. regex gives None |
| CommonUtility.PatternV2Last | app/common/DataAccessLib/common/utility.py:100-109 | fails exactly when some variable has no readable `normalized_parameter`. It gives None exactly when none matches; otherwise it gives the key of a matching variable after which none matches, i.e. the last match in iteration order |
| CommonUtility.PatternV2Fails | app/common/DataAccessLib/common/utility.py:100-109 | reading the variables raises exactly when some variable has no `normalized_parameter` |
| CommonUtility.PatternV2None | app/common/DataAccessLib/common/utility.py:100-109 | None exactly when every variable is readable and none matches |
| CommonUtility.PatternV2Found | app/common/DataAccessLib/common/utility.py:100-109 | a key returned belongs to a matching variable that no later variable matches |
| CommonUtility.GetVariableInfo | app/common/DataAccessLib/common/utility.py:115-126 | "conversation_created_at" is a date with VALUE_DATE whatever the map. Otherwise a missing variable or format means text with VALUE, and a string format comes back with its value key. A present variable that is not a dict raises |
| Account.PartitionLists | app/common/DataAccessLib/account.py:263-277 | the partition lists the ids of the non-deleted bots and of the deleted bots, each in row order |
| Account.PartitionPermutation | app/common/DataAccessLib/account.py:263-277 | every bot's id lands in exactly one of the two lists: together they are a permutation of all the ids |
| Account.GetDeletedNonDeletedBots | app/common/DataAccessLib/account.py:271-277 | the loop returns exactly the partition, non-deleted first |
| Account.AccountBotListsSelect | app/common/DataAccessLib/account.py:338-347 | an account is present exactly when some bot row has it, and its lists are the partition of its own bots |
| Account.ParseSqlAccountBots | app/common/DataAccessLib/account.py:338-347 | the loop builds exactly the per-account partition |
| Account.AccountPopupsSelect | app/common/DataAccessLib/account.py:350-357 | an account is present exactly when some popup row has it, and its list is its own popup messages in row order |
| Account.ParseSqlAccountPopupMessages | app/common/DataAccessLib/account.py:350-357 | the loop builds exactly the per-account popup lists |
| Account.FoldAddFeature | app/common/DataAccessLib/account.py:362-366 | adding features one by one fills a dict by feature key, a later row winning |
| Account.AccountFeaturesSelect | app/common/DataAccessLib/account.py:359-367 | an account is present exactly when some feature row has it; its features are its own rows filled by feature key, so a later row with the same key overwrites an earlier one |
| Account.ParseSqlAccountFeatures | app/common/DataAccessLib/account.py:359-367 | the loop builds exactly the per-account feature dicts |
| Account.AccountObjectRaises | app/common/DataAccessLib/account.py:207-234 | building the account object raises exactly when `int()` of `is_domain_restricted` raises, or a truthy `registered_domains` or `site_url` is not JSON text; the exception is the first of those in keyword order |
| Account.ConvertedColumns | app/common/DataAccessLib/account.py:215-226 | when nothing raises: `operating_hours` is its `json.dumps` text if truthy, else None; `is_domain_restricted` is its `int()`; `registered_domains` is kept only when it is truthy and parses to a truthy value, else None; `site_url` is its parsed value if truthy, else None |
| Account.AccountObjectFields | app/common/DataAccessLib/account.py:207-234 | an object that does not raise has exactly the sixteen copied columns and the nine computed keys; the copied columns are unchanged, the computed keys hold the account id, the converted columns, both bot lists, the subscription and the popup messages |
| Account.AccountFromSql | app/common/DataAccessLib/account.py:155-171 | None exactly when the account has no row; otherwise the first row and the partition of the account's bots |
| Account.AccountNotFound | app/common/DataAccessLib/account.py:48-57 | a miss on an account with no row answers `{}` and writes nothing |
| Account.AccountUnconvertible | app/common/DataAccessLib/account.py:48-57 | a miss on an account whose row does not convert raises that exception and writes nothing |
| Account.AccountFilled | app/common/DataAccessLib/account.py:48-57 | a miss on an account that converts returns its object, and the next call is one GET_JSON serving it |
| Account.AccountCached | app/common/DataAccessLib/account.py:48-57 | on a miss: a missing account gives `{}` and leaves the cache as it was; an unconvertible one raises and leaves it as it was; an existing one is cached and served from the cache on the next call |
| Account.GetAccountDetails | app/common/DataAccessLib/account.py:48-57 | GET_JSON on ACCOUNT_DATA(account_id) with the account Getter and its exceptions: the raising read-through's result, calls and final cache |
| Batch.MapResultsStep | app/common/DataAccessLib/account.py:392-400 | one step of a loop that stops at the first raise: a raising row ends the whole loop with its exception, a value extends the prefix's values |
| Batch.MapResultsOk | app/common/DataAccessLib/account.py:392-400 | a loop over the rows gives values exactly when no row raises, and then one value per row, each that row's value |
| Batch.MapResultsFirstFailure | app/common/DataAccessLib/account.py:392-400 | a loop that raises does so with the exception of the first row that raises |
| Batch.MapResultsPrefix | app/common/DataAccessLib/account.py:392-400 | rows after a raising prefix are never reached: the loop's outcome is the prefix's |
| Account.BatchPayloadsRows | app/common/DataAccessLib/account.py:392-400 | a batch that does not raise gives one payload per account row, in row order, each that row's payload |
| Account.BatchGetDataFromSql | app/common/DataAccessLib/account.py:370-400 | the three groupings of bots, popup messages and features, then one payload per account row; the first row that raises is the exception |
| Account.RowPayloads | app/common/DataAccessLib/account.py:392-400 | the loop gives exactly the rows' payloads in row order, or the exception of the first row that raises |
| Account.PrepareRow | app/common/DataAccessLib/account.py:393-399 | a row's payload takes its bot lists, popup messages and features from the groupings; an account the groupings do not mention gets empty lists, `[]` and `{}` |
| Account.MissingDetails | app/common/DataAccessLib/account.py:422-431 | no missing id gives `{}`; otherwise the call raises exactly when the batch does |
| Account.MissingRaisesWritesNothing | app/common/DataAccessLib/account.py:424-429 | a batch that raises leaves every cache entry as it was: no SET_JSON happens before the exception |
| Account.HandleMissingAccountDetails | app/common/DataAccessLib/account.py:413-431 | no ids: `{}` and no call at all. Otherwise one batched store query; if a row raises, that exception and no write; else one SET_JSON per returned account under its ACCOUNT_DATA key, in row order, and the result maps `str(account_id)` to each payload |
| Batch.IdKeys | app/common/DataAccessLib/account.py:66 | one templated key per requested id, in order; the account, bot-trigger (bot.py:77) and agent (agent.py:69) multi-gets all build their keys this way |
| Account.MissingAccountIdsMembers | app/common/DataAccessLib/account.py:327-331 | an id is fetched from the store exactly when some position holding it came back falsy from the multi-get |
| Account.MultipleDetailsEntries | app/common/DataAccessLib/account.py:66-79 | the call raises exactly when the fill of the missing ids raises. Otherwise every requested id has an entry; an id the store did not return keeps its cached value, a hit or the falsy value of a miss; a fetched id gets its fresh payload; no other key appears |
| Account.GetMultipleAccountDetails | app/common/DataAccessLib/account.py:66-79 | one GET_MULTIPLE over the keys, then exactly the calls of the missing-ids fill; the result is the merged dict, or the fill's exception |
| Account.GetAccountBots | app/common/DataAccessLib/account.py:280-286 | the ids of the store's rows, in row order, after one store query; the cache is untouched |
| Account.EmptyLists | app/common/DataAccessLib/account.py:294 | an empty list for exactly the requested ids |
| Account.MultipleAccountBotsEntries | app/common/DataAccessLib/account.py:288-300 | every requested account has an entry, `[]` when it has no bot; an account's list is its bots' ids as strings, in row order |
| Account.GetMultipleAccountBots | app/common/DataAccessLib/account.py:288-300 | one batched store query and the mapping loop, with no cache call |
| Account.GetAccountTotalVisitorCount | app/common/DataAccessLib/account.py:303-306 | the count the store reports, after one count query; the cache is untouched |
| Account.UsedFromSearch | app/common/DataAccessLib/account.py:476-485 | `{}` without store data; with it, the used count over the allowance's period |
| Account.MaxOutbound | app/common/DataAccessLib/account.py:502 | among the modelled values (None, bool, int, str, list, dict; no float), `config.get("max_outbound_messages", 0)` is a number to subtract from exactly when `config` is a dict and the value is absent (then 0), an int or a bool |
| Account.RemainingNotFound | app/common/DataAccessLib/account.py:466-473 | without an allowance row the call answers `{}` after one GET and the two queries, and changes no entry |
| Account.RemainingFound | app/common/DataAccessLib/account.py:488-502 | with an allowance row the payload is the decimal string of `max_outbound_messages` (0 when absent) minus the used count. A `config` that is not a dict raises AttributeError; among the modelled values, a maximum that is neither int nor bool (None, str, list or dict) raises TypeError |
| Account.RemainingBalance | app/common/DataAccessLib/account.py:89-98 | OUTBOUND_REMAINING_BALANCE is read with GET. With a usable allowance the fill caches and returns that string, and the next call is one GET serving it. With an unusable one the call raises and changes no entry; without one, `{}` and no write |
| Account.GetOutboundMessagesRemainingBalance | app/common/DataAccessLib/account.py:89-98 | GET on OUTBOUND_REMAINING_BALANCE(account_id) with the remaining-balance Getter and its exceptions: the raising read-through's result, calls and final cache |
| Account.GetAccountIdFromAccountKey | app/common/DataAccessLib/account.py:581-594 | GET on ACCOUNT_KEY_ID_MAPPING(account_key): `int()` of a hit, whose ValueError is kept, or the unconverted sync result of a miss |
| KeyMapping.IdFromKeySpec | app/common/DataAccessLib/account.py:585-594 | a truthy cached value is converted with `int()`; a string converts exactly when it is an optional minus sign followed by decimal digits, the form the model accepts; a falsy value gives the unconverted sync result |
| KeyMapping.UnknownKeyNotCached | app/common/DataAccessLib/account.py:625-632 | a key the store does not map is answered `{}`, and the fill makes only its two queries |
| KeyMapping.IntIdStable | app/common/DataAccessLib/account.py:581-651 | a non-zero integer id is returned as itself by the miss that caches it. Every later hit reads back its decimal text, which `int()` turns back into the same id |
| KeyMapping.StringIdChangesTypeOnHit | app/common/DataAccessLib/account.py:581-651 | an id the store holds as a decimal string is returned as that string by the miss that caches it, and as an int by every later hit |
| KeyMapping.GetIdByKey | app/common/DataAccessLib/account.py:581-594 | one GET on the mapping key, then the sync calls only on a falsy value; the result is `IdFromKeySpec` |
| Bot.ChannelConfigurations | app/common/DataAccessLib/bot.py:115-130 | `{}` for every channel except Facebook Messenger and for a Messenger bot without a configuration row; otherwise that row as a dict |
| Bot.CreatedByNameParts | app/common/DataAccessLib/bot.py:179-195 | the name splits at the separator back into the first and last names, a missing one read as ""; with both missing it is a single space |
| Bot.BotFromSql | app/common/DataAccessLib/bot.py:146-153 | None exactly when the bot has no row; otherwise the row and its channel configurations |
| Bot.BotPayload | app/common/DataAccessLib/bot.py:164-201 | an existing bot's payload is a non-empty dict, so a cached one is always a hit |
| Bot.BotMapComputed | app/common/DataAccessLib/bot.py:181-200 | the computed keys hold `bot_id` as `bot_lead_id`, `version_id` and `preview_version_id` as `latest_publish_version_id` and `latest_preview_version_id`, the channel, the creator's name, `str()` of `created_at` and the channel configurations |
| Bot.BotPayloadFields | app/common/DataAccessLib/bot.py:178-201 | the payload has exactly the 24 keys of the dict: the 17 copied columns unchanged and the 7 computed keys; no other row attribute (such as the creator's names) appears; the renames, the `str()` of `created_at`, the id, the channel, the name and the configurations as above |
| Bot.BotCached | app/common/DataAccessLib/bot.py:38-48 | a missing bot gives `{}` and leaves the cache as it was; an existing one is cached on the first miss and served from the cache on the next call |
| Bot.GetBotDetails | app/common/DataAccessLib/bot.py:38-48 | GET_JSON on BOT_DATA(bot_id) with the bot Getter: the read-through's result, calls and final cache |
| Bot.BotFlowCaching | app/common/DataAccessLib/bot.py:223-266 | a version's dialog is returned and written on a miss. It is found again only when it is a truthy document; a falsy dialog, or one written as a string and read with GET_JSON, sends every call back to the store |
| Bot.GetBotFlowDetails | app/common/DataAccessLib/bot.py:57-68 | GET_JSON on BOT_FLOW(version_id) with the flow Getter: the read-through's result, calls and final cache |
| Bot.MissingRules | app/common/DataAccessLib/bot.py:340-352 | no missing bot gives `{}` |
| Bot.MissingRulesTruthy | app/common/DataAccessLib/bot.py:344-351 | only truthy rules are returned, each the rules of a fetched row of that bot |
| Bot.FetchAndCacheRules | app/common/DataAccessLib/bot.py:343-351 | one batched query, then one SET_JSON per row with truthy rules, in row order; the result maps `str(bot_id)` to its rules, a later row winning |
| Bot.HandleMissingBotTriggerRules | app/common/DataAccessLib/bot.py:331-352 | no ids: `{}` and no call at all; otherwise the batched query and the writes of the rows with truthy rules |
| Bot.MissingRuleIdsMembers | app/common/DataAccessLib/bot.py:288-291 | a bot is fetched from the store exactly when some position holding it came back falsy from the multi-get |
| Bot.MultipleTriggerRulesEntries | app/common/DataAccessLib/bot.py:77-90 | every requested bot has an entry. A bot without freshly fetched truthy rules keeps its cached value; a fetched bot gets its rules; no other key appears |
| Bot.GetMultipleBotTriggerRules | app/common/DataAccessLib/bot.py:70-90 | one GET_MULTIPLE over the keys, then exactly the calls of the missing-ids fill; the result is the merged dict |
| Bot.GetBotVersions | app/common/DataAccessLib/bot.py:358-363 | the version ids of the bot's versions, in row order, after one store query; the cache is untouched |
| Bot.GetBotIdByPublishKey | app/common/DataAccessLib/bot.py:370-384 | GET on BOT_PUBLISH_KEY_ID_MAPPING(publish_key): `int()` of a hit, or the unconverted sync result of a miss |
| Agent.AgentPayload | app/common/DataAccessLib/agent.py:187-209 | an agent's payload is a non-empty dict, so a cached one is always a hit |
| Agent.AgentPayloadFields | app/common/DataAccessLib/agent.py:201-209 | a missing first or last name becomes ""; the email, id and image name are copied, and the master user type goes under `user_type_id`; there are no other keys |
| Agent.AgentCached | app/common/DataAccessLib/agent.py:37-46 | a missing agent gives `{}` and leaves the cache as it was; an existing one is cached on the first miss and served from the cache on the next call |
| Agent.GetAgentDetails | app/common/DataAccessLib/agent.py:37-46 | GET_JSON on AGENT_DATA(agent_id) with the agent Getter: the read-through's result, calls and final cache |
| Agent.RolesFromSql | app/common/DataAccessLib/agent.py:244-249 | found exactly when both the roles rows and the status row exist |
| Agent.RolesPayload | app/common/DataAccessLib/agent.py:274-287 | the roles payload is a non-empty dict |
| Agent.PrepareRolesPayload | app/common/DataAccessLib/agent.py:274-287 | the loop, which also fills a bots map that is dropped, returns exactly the roles payload |
| Agent.RolesPayloadFields | app/common/DataAccessLib/agent.py:274-287 | the payload holds only the status and the access entry. The accounts map has exactly one entry per formatted account id of the rows, holding the role of that account's last row |
| Agent.AgentRolesCached | app/common/DataAccessLib/agent.py:56-65 | without roles or without a status the result is `{}` and nothing is written; with both, the roles are cached on the first miss and served from the cache next time |
| Agent.GetAgentRoles | app/common/DataAccessLib/agent.py:56-65 | GET_JSON on AGENT_ROLE(agent_id) with the roles Getter: the read-through's result, calls and final cache |
| Agent.CachedAgents | app/common/DataAccessLib/agent.py:71-73 | the cached agents with the Nones dropped; rebuilding each as a dict fails exactly when one is not a dict |
| Agent.UnseenMembers | app/common/DataAccessLib/agent.py:314 | the set difference lists exactly the requested ids without an available id, each once |
| Agent.MissingAgentIds | app/common/DataAccessLib/agent.py:309-316 | equal counts give `[]`; otherwise reading `id` succeeds exactly when every cached agent has one |
| Agent.MissingAgentIdsMembers | app/common/DataAccessLib/agent.py:309-316 | when the counts differ, an id is listed, once, exactly when it was requested and no cached agent carries it as its `id` |
| Agent.MissingAgents | app/common/DataAccessLib/agent.py:328-340 | no missing ids give `[]` |
| Agent.FetchAndCacheAgents | app/common/DataAccessLib/agent.py:330-338 | one batched query, then one SET_JSON per fetched row under that row's AGENT_DATA key; the result is the rows' payloads in row order |
| Agent.HandleMissingAgents | app/common/DataAccessLib/agent.py:319-340 | no ids: `[]` and no call at all; otherwise the batched query and the writes |
| Agent.GetMultipleAgentDetails | app/common/DataAccessLib/agent.py:67-80 | one GET_MULTIPLE, then the fill's calls unless reading the cached agents raised; the result is the cached agents followed by the fetched ones |
| Agent.AllAgentsCached | app/common/DataAccessLib/agent.py:67-80 | when every requested agent is cached as a dict, the result is the cached list and neither the store nor the cache is called again |
| Agent.FetchedAgentsWritten | app/common/DataAccessLib/agent.py:330-338 | a non-empty fill makes the batched query first and writes row `i` under that row's AGENT_DATA key at position `i + 1` |
| Agent.FetchedAgentsCached | app/common/DataAccessLib/agent.py:330-340 | a non-empty fill returns one payload per fetched row, in row order, each also written under that row's key |
| Agent.UserPreferencesCaching | app/common/DataAccessLib/agent.py:420-451 | a user's preferences are returned and written on a miss; they are served from the cache next time only when they form a truthy document |
| Agent.GetUserPreferences | app/common/DataAccessLib/agent.py:89-98 | GET_JSON on USER_PREFERENCE(user_id) with the preferences Getter: the read-through's result, calls and final cache |
| Agent.NotificationPreferences | app/common/DataAccessLib/agent.py:106-119 | one `{user_id, notification_events}` entry per row, in row order, under `user_notification_preferences`; no rows give an empty list |
| Agent.GetUserNotificationPreferences | app/common/DataAccessLib/agent.py:100-119 | one store query and no cache call; the result is that shaped list |
| Agent.NotificationTokens | app/common/DataAccessLib/agent.py:129-137 | the tokens in row order, under `user_notification_tokens` |
| Agent.GetUserNotificationTokens | app/common/DataAccessLib/agent.py:121-137 | one store query and no cache call; the result is the token list |
| Visitor.CeilDiv | app/common/DataAccessLib/visitor.py:333 | `math.ceil(count / max)` for a positive max: the least q with count <= q * max |
| Visitor.VisitorPattern | app/common/DataAccessLib/visitor.py:327-335 | a zero or missing count gives counter 1 and the first series; otherwise the counter lies in 1..max and the series is one of the configured series |
| Visitor.VisitorPatternCycle | app/common/DataAccessLib/visitor.py:330-334 | for a nonzero count the counter is ((count - 1) mod max) + 1 and the series is the (ceil(count / max) - 1) mod len-th, index -1 wrapping to the last |
| Visitor.SeedThenIncrement | app/common/DataAccessLib/visitor.py:317-323 | a failed INCREMENT_VALUE changes nothing; after SET_JSON_NX the second increment gives count + 1 exactly when the counter key was missing |
| Visitor.SeriesAndCounter | app/common/DataAccessLib/visitor.py:303-325 | increment the account's counter, on failure count the store's visitors, seed with SET_JSON_NX and increment again, then the pattern; result, calls and cache as the specification |
| Visitor.DefaultName | app/common/DataAccessLib/visitor.py:285-300 | the name from the prefix, the series and the counter, with exactly the counter calls; the roll-over branch is unreachable since the counter never exceeds the maximum |
| Visitor.FilterStepFacts | app/common/DataAccessLib/visitor.py:206-214 | one loop step fails exactly on a kept variable whose value cannot be read; otherwise it adds exactly the names the variable is stored under, with `{"value": v}`, and keeps every other entry |
| Visitor.FilterVariablesFailure | app/common/DataAccessLib/visitor.py:198-215 | the filter fails exactly when some kept variable's value cannot be read |
| Visitor.FilterVariablesDomain | app/common/DataAccessLib/visitor.py:198-215 | the filter's keys are exactly the prefix-stripped patterns of the visitor variables and the contact-id parameter of a contact-id variable |
| Visitor.FilterVariablesValues | app/common/DataAccessLib/visitor.py:209-214 | every entry is `{"value": v}` for the value of some variable stored under that name |
| Visitor.FilterFailureStays | app/common/DataAccessLib/visitor.py:206-215 | a failure on a prefix of the variables is the failure of the whole filter |
| Visitor.FilterVisitorVariables | app/common/DataAccessLib/visitor.py:198-215 | the loop over the search hit's variables computes the filter specification |
| Visitor.PayloadShape | app/common/DataAccessLib/visitor.py:172-178 | the payload is a truthy dict with exactly the seven keys, holding the variables, the active conversations and the row's id, external key, account and channel |
| Visitor.PayloadFields | app/common/DataAccessLib/visitor.py:164-195 | the prepared payload holds the filtered variables, the conversations' thread keys and the row's fields; `default_name` is the last conversation's truthy title with no call, else the generated name with exactly its counter calls |
| Visitor.PrepareVisitorPayload | app/common/DataAccessLib/visitor.py:164-195 | the shaper's result, calls and cache equal the specification |
| Visitor.WritePayload | app/common/DataAccessLib/visitor.py:84-99 | SET_JSON of the payload, then SET_EXPIRY_TIME when the expiry is truthy |
| Visitor.Queries | app/common/DataAccessLib/visitor.py:138-161 | the store and the search lookups are recorded and change no cache entry |
| Visitor.FoundSync | app/common/DataAccessLib/visitor.py:164-195 | the payload, then its write and expiry; result, calls and cache as the specification |
| Visitor.VisitorSyncData | app/common/DataAccessLib/visitor.py:84-99 | `sync_data` with the visitor Getter: result, calls and cache as the specification |
| Visitor.VisitorSyncWrites | app/common/DataAccessLib/visitor.py:96-99 | an unknown visitor gives `{}` with no cache call; a found one is a dict written once under its key, followed by an expiry of 604800 seconds when the setting is absent |
| Visitor.VisitorSyncFound | app/common/DataAccessLib/visitor.py:138-195 | a found visitor's calls are the two queries, the payload's counter calls, then the write and its expiry |
| Visitor.FoundSyncReadBack | app/common/DataAccessLib/visitor.py:84-99 | after the fill the key reads back, by GET_JSON, the truthy payload that was returned |
| Visitor.WritesReadBack | app/common/DataAccessLib/visitor.py:128-136 | a dict written by the payload writes is what GET_JSON then returns |
| Visitor.FormattedVisitorFields | app/common/DataAccessLib/visitor.py:77-82 | formatting sets `key`, `is_new` to False and each variable's `type` to contact, and keeps every other field, every variable and every variable's other fields |
| Visitor.FormatIdempotent | app/common/DataAccessLib/visitor.py:77-82 | formatting a formatted visitor again changes nothing |
| Visitor.FormatVisitorSchema | app/common/DataAccessLib/visitor.py:77-82 | the loop over the variables computes the formatting specification, failing on a shape Python would raise on |
| Visitor.ReadOrSync | app/common/DataAccessLib/visitor.py:90-99 | GET_JSON and, on a falsy value, `sync_data` under the same key: result, calls and cache as the specification |
| Visitor.FormatFound | app/common/DataAccessLib/visitor.py:101-104 | a truthy result is formatted, a falsy one returned as it is |
| Visitor.GetVisitorByVisitorKey | app/common/DataAccessLib/visitor.py:84-104 | the formatted read-through result, with its calls and final cache |
| Visitor.VisitorFillThenHit | app/common/DataAccessLib/visitor.py:84-104 | after a fill the key holds the unformatted payload, and the next lookup is one GET_JSON returning the same visitor |
| Visitor.GetVisitorKeyByExternalKey | app/common/DataAccessLib/visitor.py:106-123 | GET on VISITOR_EXTERNAL_KEY(external_key), filled from the store on a miss with no expiry |
| Visitor.GetVisitorKeyResolution | app/common/DataAccessLib/visitor.py:60-75 | a given key is looked up directly, without reading the external key; with none, the external key is read first, and one that resolves to nothing gives `{}` and reads no visitor |
| Visitor.GetVisitor | app/common/DataAccessLib/visitor.py:60-75 | the visitor by key or by resolved external key: result, calls and cache as the specification |
| Visitor.CachedVisitor | app/common/DataAccessLib/visitor.py:46-58 | the formatted cached visitor when truthy, `{}` otherwise |
| Visitor.RedisGetVisitor | app/common/DataAccessLib/visitor.py:46-58 | one GET_JSON, no store query and no cache change; the result is the cached visitor |
| Visitor.RedisGetVisitorKey | app/common/DataAccessLib/visitor.py:37-44 | one GET on VISITOR_EXTERNAL_KEY(external_key) and no cache change |
| Addons.FindClose | app/common/DataAccessLib/addons.py:216 | the closing `·?` of the shortest placeholder body: the first occurrence at or after the body's minimum end, with no line break passed |
| Addons.MatchOccurs | app/common/DataAccessLib/addons.py:216 | the name one match yields is non-empty, has no line break and appears in the script as its parameter key |
| Addons.PlaceholdersOccur | app/common/DataAccessLib/addons.py:216 | every name `re.findall` returns is non-empty, single-line and present in the script as `¿·name·?` |
| Addons.NoOpenNoPlaceholders | app/common/DataAccessLib/addons.py:216 | a script without an opening `¿·` has no placeholders |
| Addons.ParameterFoldFailureStays | app/common/DataAccessLib/addons.py:221-225 | once reading a value raised, the remaining placeholders change nothing |
| Addons.ParameterFoldFailure | app/common/DataAccessLib/addons.py:221-225 | the loop raises exactly when some placeholder's value cannot be read |
| Addons.ParameterFoldStep | app/common/DataAccessLib/addons.py:221-225 | one more placeholder fails the loop exactly when it had failed or the value cannot be read; otherwise it sets that value under its key |
| Addons.ParameterFoldKeys | app/common/DataAccessLib/addons.py:221-225 | without a failure the keys are exactly the placeholders' parameter keys |
| Addons.ParameterFoldValues | app/common/DataAccessLib/addons.py:221-225 | without a failure each placeholder's key holds that placeholder's value |
| Addons.ParameterFoldEntries | app/common/DataAccessLib/addons.py:221-225 | both of the above together: one entry per placeholder, holding its value |
| Addons.ParseParametersEntries | app/common/DataAccessLib/addons.py:206-226 | `{}` unless the auth parameters are a dict with truthy `keys`; otherwise one `¿·name·?` entry per placeholder found in the script, holding `keys[name]['value']` when the name is a key and None when it is not |
| Addons.ParseParametersFromCode | app/common/DataAccessLib/addons.py:206-226 | the placeholder loop computes the parsing specification |
| Addons.GetFunctionData | app/common/DataAccessLib/addons.py:194-204 | the function's name, script and language, plus the parameters parsed from its script |
| Addons.AllFunctionsFailureStays | app/common/DataAccessLib/addons.py:186-189 | once a row's parameters raised, the remaining rows change nothing |
| Addons.AllFunctionsInOrder | app/common/DataAccessLib/addons.py:186-189 | the loop fails exactly when some row's parameters cannot be parsed; otherwise one function per row, in row order |
| Addons.AddonsPayloadShape | app/common/DataAccessLib/addons.py:152-191 | the payload has exactly `functions` and `addon_version_id`: the functions in row order and the last row's version id, None with no rows |
| Addons.PrepareAddonsPayload | app/common/DataAccessLib/addons.py:152-191 | the shaping loop computes the payload specification |
| Addons.AddonsSyncReadBack | app/common/DataAccessLib/addons.py:118-150 | after `sync_data` the raw key holds the payload as a document when one was shaped, and nothing else changes |
| Addons.AddonsSyncData | app/common/DataAccessLib/addons.py:71-78 | `sync_data` with the add-ons Getter under the raw key: result, calls and cache as the specification |
| Addons.NextMatch | app/common/DataAccessLib/addons.py:80-83 | the generator returns `{}` or an item naming the function |
| Addons.NextMatchFirst | app/common/DataAccessLib/addons.py:80-83 | a match is one of the items; `{}` only when every item names another function; a failure only on an item without a name |
| Addons.FindFunction | app/common/DataAccessLib/addons.py:80-83 | `addons_data['functions']` searched for the function: `{}` or an item naming it |
| Addons.ScanStops | app/common/DataAccessLib/addons.py:59-61 | once a key has yielded the function or raised, no later key is read or synced |
| Addons.KeyStepFound | app/common/DataAccessLib/addons.py:62-85 | one key's step yields `{}`, a raise, or the function tagged with that key |
| Addons.ScanSpecStep | app/common/DataAccessLib/addons.py:59-85 | one more key: the scan keeps a found or failed result, and otherwise ends with that key's step |
| Addons.FoundFirstExtend | app/common/DataAccessLib/addons.py:59-85 | a function found first in a prefix of the keys is found first in the whole list |
| Addons.FoundFirstLast | app/common/DataAccessLib/addons.py:59-85 | the last key's function is found first when the keys before it yielded nothing |
| Addons.ScanResult | app/common/DataAccessLib/addons.py:35-87 | the result is `{}` or the function tagged with the first key that yields it, every earlier key having yielded nothing |
| Addons.AddonsMissRepeats | app/common/DataAccessLib/addons.py:62-78 | a miss fills the raw key while the facade reads ADDONS_KEY(key), so with a non-identity template the next call misses again and repeats the same calls |
| Addons.AddonsDataHit | app/common/DataAccessLib/addons.py:62-65 | a truthy cached value is used as is, with no store call and no write |
| Addons.FetchAddons | app/common/DataAccessLib/addons.py:62-78 | GET_JSON on ADDONS_KEY(key) and, on a miss, `sync_data` under the raw key: result, calls and cache as the specification |
| Addons.ScanKey | app/common/DataAccessLib/addons.py:62-85 | one loop pass for a key: result, calls and cache as the step specification |
| Addons.GetAddons | app/common/DataAccessLib/addons.py:35-87 | the loop over the keys: result, calls and cache as the scan specification |
| Addons.ParameterFillThenHit | app/common/DataAccessLib/addons.py:334-366 | a non-empty parameter dict is cached as is and served from the cache next time; an empty or missing one is never cached and always reloaded |
| Addons.GetConnectedAddonAuthParameters | app/common/DataAccessLib/addons.py:269-316 | GET_JSON on CONNECTED_ADDON_AUTH_PARAMETER(id) with the parameter Getter: the read-through's result, calls and cache |
| Addons.GetAddonAuthParameters | app/common/DataAccessLib/addons.py:374-437 | GET_JSON on ADDON_AUTH_PARAMETER(id) with the parameter Getter: the read-through's result, calls and cache |
| Addons.FunctionsPayloadShape | app/common/DataAccessLib/addons.py:569-587 | the first row's authentication type; the functions keyed by name, a later row with the same name winning |
| Addons.PrepareFunctionsPayload | app/common/DataAccessLib/addons.py:569-580 | the shaping loop computes the payload specification |
| Addons.FunctionsFillThenHit | app/common/DataAccessLib/addons.py:495-567 | found functions are cached and served from the cache next time; with no rows nothing is written |
| Addons.GetAddonFunctions | app/common/DataAccessLib/addons.py:495-524 | GET_JSON on ADDON_FUNCTIONS(id) with the functions Getter: the read-through's result, calls and cache |
| Addons.MappingFillThenHit | app/common/DataAccessLib/addons.py:596-694 | a found mapping is cached as `{type, configs, mappings}` and served from the cache next time; a missing one writes nothing |
| Addons.GetConnectedAddonThirdPartyVariableMappings | app/common/DataAccessLib/addons.py:596-640 | GET_JSON on CONNECTED_ADDON_THIRD_PARTY_VARIABLE_MAPPINGS(id): the read-through's result, calls and cache |
| Addons.WebhookFillThenHit | app/common/DataAccessLib/addons.py:703-784 | a connected add-on found by webhook key is cached with its four fields and served from the cache next time; an unknown key writes nothing |
| Addons.GetConnectedAddonDetailsByWebhookKey | app/common/DataAccessLib/addons.py:703-729 | GET_JSON on CONNECTED_ADDON_WEBHOOK_MAPPING(webhook_key): the read-through's result, calls and cache |
| Addons.AddonVersionAndAuthId | app/common/DataAccessLib/addons.py:234-260 | without an account id, the version found by function name and None; with one, the pair found by name and account, or (None, None) |
| ConversationAssignment.Split | app/common/DataAccessLib/conversation_assignment.py:99 | `str.split(',')` never returns an empty list |
| ConversationAssignment.SplitJoin | app/common/DataAccessLib/conversation_assignment.py:99 | joining the pieces of a split gives the string back, and no piece holds the separator |
| ConversationAssignment.SplitFree | app/common/DataAccessLib/conversation_assignment.py:99 | a leading piece without the separator is kept whole by the split |
| ConversationAssignment.JoinSplit | app/common/DataAccessLib/conversation_assignment.py:99 | splitting a join of separator-free pieces gives the pieces back |
| ConversationAssignment.ParseInts | app/common/DataAccessLib/conversation_assignment.py:100 | `list(map(int, pieces))`: one integer per piece, each the parse of its piece, or a failure on a piece that does not parse |
| ConversationAssignment.IntStrFree | app/common/DataAccessLib/conversation_assignment.py:99-100 | an integer's decimal text is non-empty and holds no comma |
| ConversationAssignment.ThreadsRoundTrip | app/common/DataAccessLib/conversation_assignment.py:99-100 | the thread column parses back to exactly the ids that `GROUP_CONCAT` joined, the empty list through NULL |
| ConversationAssignment.Reversed | app/common/DataAccessLib/conversation_assignment.py:143 | the reversal: same length, element i is element len - 1 - i |
| ConversationAssignment.ReversedTwice | app/common/DataAccessLib/conversation_assignment.py:143 | reversing twice is the identity |
| ConversationAssignment.Blanks | app/common/DataAccessLib/conversation_assignment.py:145 | one entry with no threads per user, in the given order |
| ConversationAssignment.KeepNotIn | app/common/DataAccessLib/conversation_assignment.py:149 | the unassigned users are exactly the account users not assigned, in account order |
| ConversationAssignment.OrderedShape | app/common/DataAccessLib/conversation_assignment.py:138-152 | the original entries stay last and in order, after an empty entry for each account user without one; all account users when nobody was assigned; no change without account users |
| ConversationAssignment.AssignmentList.Append | app/common/DataAccessLib/conversation_assignment.py:101-104 | `append` adds the entry at the end |
| ConversationAssignment.AssignmentList.InsertFront | app/common/DataAccessLib/conversation_assignment.py:145 | `insert(0, a)` puts the entry first |
| ConversationAssignment.ReverseInPlace | app/common/DataAccessLib/conversation_assignment.py:143 | `users.reverse()` reverses the array in place |
| ConversationAssignment.ReversedSnoc | app/common/DataAccessLib/conversation_assignment.py:143-145 | reversing `s + [x]` puts x first |
| ConversationAssignment.BlanksCons | app/common/DataAccessLib/conversation_assignment.py:145 | the blanks of `[x] + s` start with x's blank |
| ConversationAssignment.InsertEach | app/common/DataAccessLib/conversation_assignment.py:144-145 | inserting each user at the front leaves the users before the entries in reverse order |
| ConversationAssignment.OrderList | app/common/DataAccessLib/conversation_assignment.py:141-145 | reversing then inserting at the front puts the users first in their original order; the users array is left reversed |
| ConversationAssignment.OrderUserAssignment | app/common/DataAccessLib/conversation_assignment.py:138-152 | the list becomes the ordered list specification; the account-user array is reversed exactly when everybody is listed because nobody was assigned |
| ConversationAssignment.EntriesFailureStays | app/common/DataAccessLib/conversation_assignment.py:96-105 | once a thread id failed to parse, the remaining rows change nothing |
| ConversationAssignment.EntriesInOrder | app/common/DataAccessLib/conversation_assignment.py:96-105 | one entry per workload row, in row order, with the row's user and parsed threads |
| ConversationAssignment.SqlAssignmentsFound | app/common/DataAccessLib/conversation_assignment.py:81-112 | nothing is found exactly when the account has no users and the workload is empty; with users but no bots every user gets an entry with no threads |
| ConversationAssignment.GetDataFromSql | app/common/DataAccessLib/conversation_assignment.py:67-112 | the store lookup, its loop and the ordering compute the lookup specification |
| ConversationAssignment.AssignmentSyncData | app/common/DataAccessLib/conversation_assignment.py:42-45 | `sync_data`: an empty list writes nothing and gives `{}`, a non-empty one is written under the key; result, calls and cache as the specification |
| ConversationAssignment.DetailsFillThenHit | app/common/DataAccessLib/conversation_assignment.py:35-46 | a miss that finds assignments caches them, and the next call is a hit returning the same list with no store call |
| ConversationAssignment.GetConversationAssignmentDetails | app/common/DataAccessLib/conversation_assignment.py:27-46 | GET_JSON on CONVERSATION_ASSIGNMENT_DATA(account_id), syncing on a miss: result, calls and cache as the specification |
| BotChannelMapping.BotIdFromSql | app/common/DataAccessLib/bot_channel_configurations_mapping.py:129-152 | the lookup chosen by channel id: Messenger by page id, web by publish key, voiceweb by webhook key; None for any other channel |
| BotChannelMapping.BotIdPayload | app/common/DataAccessLib/bot_channel_configurations_mapping.py:162-177 | `str(bot_id)` for a truthy id, `''` for 0 or no row |
| BotChannelMapping.BotIdArgsRead | app/common/DataAccessLib/bot_channel_configurations_mapping.py:143-152 | the Getter reads channel id and configuration key from the keyword arguments the facade passes |
| BotChannelMapping.UnmappedNotCached | app/common/DataAccessLib/bot_channel_configurations_mapping.py:143-152 | a channel without a lookup or a key without a row gives `{}`, with only the two lookups and no write |
| BotChannelMapping.BotIdCached | app/common/DataAccessLib/bot_channel_configurations_mapping.py:29-51 | a mapped non-zero bot id is written with SET as its decimal string and the next call is one GET returning it |
| BotChannelMapping.ZeroBotIdAlwaysRefetched | app/common/DataAccessLib/bot_channel_configurations_mapping.py:177 | a bot id of 0 is cached as `''`, which the next GET reads as a miss |
| BotChannelMapping.GetBotChannelConfigurationMapping | app/common/DataAccessLib/bot_channel_configurations_mapping.py:29-51 | GET on CHANNEL_CONFIGURATIONS_BOT_MAPPING(key), filled on a miss: the read-through's result, calls and cache |
| BotChannelMapping.BotsPayload | app/common/DataAccessLib/bot_channel_configurations_mapping.py:255-272 | the configuration key, every bot id as a string in row order, and the first bot's account id and config identity, None for both with no bot |
| BotChannelMapping.BotsAlwaysCached | app/common/DataAccessLib/bot_channel_configurations_mapping.py:232-245 | the store result is always truthy, so the first miss caches the payload even with no bot, and the next call is one GET_JSON |
| BotChannelMapping.GetBotsChannelConfigurationMapping | app/common/DataAccessLib/bot_channel_configurations_mapping.py:194-214 | GET_JSON on BOTS_CHANNEL_CONFIGURATIONS_MAPPING(key), filled on a miss: the read-through's result, calls and cache |
| ChannelConfiguration.ConfigFromSql | app/common/DataAccessLib/channel_configuration.py:69-102 | always a truthy `{"channel_configurations": ...}`: the row's columns, or `{}` for an unknown id |
| ChannelConfiguration.MissAlwaysWrites | app/common/DataAccessLib/channel_configuration.py:90-128 | every miss runs a fill and writes the configuration, or `{}` for an unknown id, under the key |
| ChannelConfiguration.UnknownConfigAlwaysRefetched | app/common/DataAccessLib/channel_configuration.py:96-128 | an unknown configuration is cached as `{}`, which the next read treats as a miss |
| ChannelConfiguration.GetChannelConfiguration | app/common/DataAccessLib/channel_configuration.py:26-48 | GET_JSON on CHANNEL_CONFIGURATION(id), filled on a miss: the read-through's result, calls and cache |
| Channel.ProviderPayload | app/common/DataAccessLib/channel.py:38-48 | a provider exactly for a row naming one, with its id, name, label, availability negated and fields (`[]` when falsy) |
| Channel.Group | app/common/DataAccessLib/channel.py:18-32 | the grouped names are exactly the grouped channels, each listed once |
| Channel.GroupSnoc | app/common/DataAccessLib/channel.py:18-32 | grouping one more row of a prefix is one loop step |
| Channel.Response | app/common/DataAccessLib/channel.py:33-36 | one response entry per distinct channel name |
| Channel.GroupNames | app/common/DataAccessLib/channel.py:18-32 | exactly the channel names of the rows are grouped |
| Channel.HasNameStep | app/common/DataAccessLib/channel.py:18-19 | a row of the name is in the prefix or is the last row |
| Channel.GroupNameStep | app/common/DataAccessLib/channel.py:18-32 | one more row adds its own name and no other |
| Channel.NewInPrefix | app/common/DataAccessLib/channel.py:19 | a name no earlier row has is not yet grouped |
| Channel.GroupFirstRow | app/common/DataAccessLib/channel.py:19-29 | a channel's id, priority, name, label, availability and fields come from its first row |
| Channel.GroupLastStep | app/common/DataAccessLib/channel.py:30-32 | one more row adds a provider to a grouped channel exactly when the row is of that channel |
| Channel.GroupProviderCount | app/common/DataAccessLib/channel.py:18-32 | a channel lists one provider per row of it, less one when its first row has no provider; later rows without one add a None |
| Channel.CountAbsent | app/common/DataAccessLib/channel.py:18-32 | a channel that was never grouped has no rows |
| Channel.GroupNamesGrow | app/common/DataAccessLib/channel.py:33-36 | reading more rows only appends names, so the response keeps first-appearance order |
| Channel.GetChannel | app/common/DataAccessLib/channel.py:15-36 | one store query, no cache access, and the grouped channels in first-appearance order |
| Channel.GroupRows | app/common/DataAccessLib/channel.py:18-32 | the grouping loop computes the grouping specification |
| Channel.ChannelList | app/common/DataAccessLib/channel.py:33-36 | the response loop lists the channels in insertion order |
| Flow.PrepareSyncPayload | app/common/DataAccessLib/flow.py:94-115 | the shaping loop computes the block map specification |
| Flow.BlocksDomain | app/common/DataAccessLib/flow.py:110-112 | one entry per block key of the rows |
| Flow.BlocksFirstId | app/common/DataAccessLib/flow.py:111-112 | a block keeps the id of the first row naming it |
| Flow.BlocksFeatureDomain | app/common/DataAccessLib/flow.py:113 | a block's features are exactly the feature keys of its rows |
| Flow.BlocksFeatureLast | app/common/DataAccessLib/flow.py:113 | a feature entry holds the feature id of the last row with that block and feature key |
| Flow.NoRowsNotCached | app/common/DataAccessLib/flow.py:79-84 | no mapping rows: the fill returns `{}` and writes nothing |
| Flow.GetDialogFeatureMapping | app/common/DataAccessLib/flow.py:28-44 | GET_JSON on DIALOG_FEATURE_MAPPING, filled on a miss: the read-through's result, calls and cache |
| Feature.FeaturePayload | app/common/DataAccessLib/feature.py:106-118 | one entry per feature key of the rows, holding the last such row's feature id and plan id, Stripe plan id and name |
| Feature.PrepareSyncPayload | app/common/DataAccessLib/feature.py:92-118 | the shaping loop computes the payload specification |
| Feature.NoRowsNotCached | app/common/DataAccessLib/feature.py:77-82 | no mapping rows: the fill returns `{}` and writes nothing |
| Feature.GetFeatureMinimumPlanMapping | app/common/DataAccessLib/feature.py:26-42 | GET_JSON on FEATURE_MINIMUM_PLAN_MAPPING, filled on a miss: the read-through's result, calls and cache |
| Team.TeamFromSql | app/common/DataAccessLib/team.py:78-84 | not found exactly when the team has no members; otherwise `agent_{user_id}` per row, in row order |
| Team.GetDataFromSql | app/common/DataAccessLib/team.py:64-84 | the member loop computes the lookup specification |
| Team.TeamPayload | app/common/DataAccessLib/team.py:95-111 | `{members: <the member list>}` |
| Team.EmptyTeamNotCached | app/common/DataAccessLib/team.py:81-84 | a team without members gives `{}`, with only the two lookups and no write |
| Team.GetTeamMembers | app/common/DataAccessLib/team.py:26-43 | GET_JSON on TEAM_DATA(team_id), filled on a miss: the read-through's result, calls and cache |
| OutboundAudit.AuditPayload | app/common/DataAccessLib/outbound_message_balance_audit.py:69-82 | keyed by `str(account_id)`: one entry per account of the rows, holding the last such row's seven audit fields; no rows give `{}` |
| OutboundAudit.LaterRowOverwrites | app/common/DataAccessLib/outbound_message_balance_audit.py:71-81 | of two rows of one account only the later one's audit is kept |
| OutboundAudit.GetMultipleAccountOutboundMessageLatestAudit | app/common/DataAccessLib/outbound_message_balance_audit.py:18-30 | one store query and no cache access; the result is the shaped audits |
| Plan.PlansPayload | app/common/DataAccessLib/plan.py:66-73 | exactly `{"plans": [...]}` with one plan id per row, in row order |
| Plan.PrepareSyncPayload | app/common/DataAccessLib/plan.py:52-73 | the shaping loop computes the payload specification |
| Plan.NoPlans | app/common/DataAccessLib/plan.py:45-50 | no plan rows give `{"plans": []}` |
| Plan.GetPlansWithEconomicalPriority | app/common/DataAccessLib/plan.py:18-26 | one store query and no cache access; the result is the shaped plan list |
| Conversation.ConversationSpec | app/common/DataAccessLib/conversation.py:22-43 | an empty key gives `{}` with no call; otherwise one GET_JSON on CONVERSATION(key); a truthy result is the cached document, any other is `{}` |
| Conversation.ConversationReadOnly | app/common/DataAccessLib/conversation.py:35-43 | a conversation lookup leaves the cache as it was |
| Conversation.GetConversation | app/common/DataAccessLib/conversation.py:22-43 | the lookup's result and calls, with the cache unchanged |
| Conversation.GetAccountTotalConversationCount | app/common/DataAccessLib/conversation.py:45-70 | the count the store reports, with one count query and no cache call |
| ProviderAuth.OneError | app/common/DataAccessLib/database/MySQL/provider_auth.py:4-15 | `.one()` returns exactly when the provider has one row; no row raises NoResultFound, several raise MultipleResultsFound |
| ProviderAuth.AuthDetailsSpec | app/common/DataAccessLib/provider_auth.py:16-32 | a truthy cached document is returned. On a miss: NoResultFound for a provider without a row, MultipleResultsFound for one with several, else the provider's auth when truthy and `{}` otherwise |
| ProviderAuth.UnknownProviderRaises | app/common/DataAccessLib/provider_auth.py:16-32 | on a miss, a provider without a row raises NoResultFound and the call writes nothing |
| ProviderAuth.UnusableAuthAlwaysRefetched | app/common/DataAccessLib/provider_auth.py:47-69 | on a miss the auth is written even when falsy; a falsy auth, or one written as a string, is not found by the next GET_JSON |
| ProviderAuth.DocumentAuthCached | app/common/DataAccessLib/provider_auth.py:16-32 | a truthy document auth is what the next GET_JSON reads |
| ProviderAuth.GetProviderAuthDetails | app/common/DataAccessLib/provider_auth.py:16-32 | the specified result or exception, with the calls and cache of the raising read-through |
| ConversationBalance.BalanceFromSql | app/common/DataAccessLib/conversation_balance_audit.py:68-104 | found exactly when the account has a period and a non-zero credited balance; the balance less the period's conversation count |
| ConversationBalance.BalanceCached | app/common/DataAccessLib/conversation_balance_audit.py:28-46 | every balance found, 0 included, is returned as an int by the miss. The miss writes it with SET as its decimal text, and the next call is one GET returning that string |
| ConversationBalance.NoPeriodNotCached | app/common/DataAccessLib/conversation_balance_audit.py:85-104 | without a subscription period nothing is written and the caller gets `{}` |
| ConversationBalance.GetAccountConversationRemainingBalance | app/common/DataAccessLib/conversation_balance_audit.py:28-46 | GET on ACCOUNT_CONVERSATION_REMAINING_BALANCE(account_id), filled on a miss: the read-through's result, calls and cache |
| Variables.PrefixesNest | app/common/UtilsLib/constants.py:28 | the contact prefix extends the system prefix, which extends the conversation prefix |
| Variables.FirstPrefixFrom | app/common/UtilsLib/utility.py:549-551 | the first prefix of the matching sequence the text starts with; none earlier matches, and None when none matches |
| Variables.VariableType | app/common/UtilsLib/utility.py:543-552 | contact, system or custom for the longest prefix the text starts with, "" without `¿·`; each in both directions |
| Variables.ChecksDisagree | app/common/UtilsLib/utility.py:840-844 | the check as written accepts every valid name, and accepts another string exactly when it is a valid name followed by one newline |
| Variables.TrailingNewlineAccepted | app/common/UtilsLib/utility.py:840-844 | the check as written accepts every valid name followed by a newline, which is not a valid name, and accepts every valid name |
| Variables.VariableByPattern | app/common/UtilsLib/utility.py:1147-1165 | as written: a variable exactly when a prefix matched and the check as written accepts the stripped name; the kind from the longest matching prefix, each in both directions |
| Variables.VariableByPatternIntended | app/common/UtilsLib/utility.py:1147-1165 | with the intended check: a variable exactly when a prefix matched and the stripped name is valid; no kind exactly when no prefix matched |
| Variables.PatternChecksDiffer | app/common/UtilsLib/utility.py:1147-1165 | the two readings find the same name and kind, and differ exactly when a prefix matched and the name is a valid name followed by one newline, which only the reading as written accepts |
| Variables.NameLacks | app/common/UtilsLib/constants.py:107 | a name the check as written accepts, trailing newline included, holds none of the marker characters |
| Variables.StripContact | app/common/UtilsLib/utility.py:1160-1161 | the replacements strip exactly a contact variable's own prefix |
| Variables.StripSystem | app/common/UtilsLib/utility.py:1160-1161 | the replacements strip exactly a system variable's own prefix |
| Variables.StripConversation | app/common/UtilsLib/utility.py:1160-1161 | the replacements strip exactly a conversation variable's own prefix |
| Variables.StripVariable | app/common/UtilsLib/utility.py:1160-1161 | the replacements leave exactly the name of a variable whose name the check as written accepts |
| Variables.VariablePrefix | app/common/UtilsLib/utility.py:1156-1159 | a variable starts with its own prefix and with no prefix tried before it |
| Variables.VariableRoundTrip | app/common/UtilsLib/utility.py:1147-1165 | every variable whose name the check as written accepts is read back with its own name and kind, by get_variable_by_pattern and by get_variable_type |
| Variables.VariableRoundTripIntended | app/common/UtilsLib/utility.py:1147-1165 | with the intended check, every variable with a valid name is read back with its own name and kind |
| Variables.NewlineVariableAccepted | app/common/UtilsLib/utility.py:1147-1165 | a variable whose name is a valid name and one newline, such as "¿·abc\n·?", is a variable with that name as written, and not one with the intended check |
| Variables.GetVariableByPattern | app/common/UtilsLib/utility.py:1147-1165 | the two loops compute get_variable_by_pattern as written |
| Variables.IsValidVariablePattern | app/common/UtilsLib/utility.py:1299-1304 | true exactly for a string that starts with "¿·" and ends with "·?": the nested prefixes make the three tries one test; any other value is false |
| Numerals.ConsecutiveIsTable | app/common/UtilsLib/constants.py:47-71 | symbols running consecutively from one code point form a digit table: one one-character symbol per digit, no two alike |
| Numerals.ArabicSymbol | app/common/UtilsLib/constants.py:47-58 | the Arabic table maps digit d to U+0660 + d |
| Numerals.UrduSymbol | app/common/UtilsLib/constants.py:60-71 | the Urdu table maps digit d to U+06F0 + d |
| Numerals.ArabicConsecutive | app/common/UtilsLib/constants.py:47-58 | the Arabic table runs from U+0660 |
| Numerals.UrduConsecutive | app/common/UtilsLib/constants.py:60-71 | the Urdu table runs from U+06F0 |
| Numerals.TablesAreDigitTables | app/common/UtilsLib/constants.py:47-71 | both tables are digit tables |
| Numerals.TranslateDigits | app/common/UtilsLib/utility.py:646-647 | through a digit table a run of digits becomes as many symbols, the k-th being the k-th digit's |
| Numerals.NumeralPerDigit | app/common/UtilsLib/utility.py:641-648 | one symbol per decimal digit of a non-negative number, in order |
| Numerals.NumeralNegative | app/common/UtilsLib/utility.py:641-648 | a negative number raises KeyError, since "-" has no symbol |
| Numerals.NumeralInjective | app/common/UtilsLib/utility.py:641-648 | different non-negative numbers are written differently |
| Numerals.GetUrduOrArabicNumeric | app/common/UtilsLib/utility.py:641-648 | a single digit looked up directly, otherwise the digit loop: computes the specification |
| Numerals.TranslateFailureStays | app/common/UtilsLib/utility.py:646-647 | once a prefix fails to translate, the whole number raises KeyError |
| Numerals.FailureIsKeyError | app/common/UtilsLib/utility.py:646-647 | the only failure is KeyError |
| Calendar.DaysInMonth | app/common/UtilsLib/utility.py:733-742 | every month has 28 to 31 days |
| Calendar.NextMonthAdvances | app/common/UtilsLib/utility.py:727-730 | the next month is a month and the next one in the count; the year grows exactly after December |
| Calendar.LastDayOfMonth | app/common/UtilsLib/utility.py:733-742 | a date exactly for a month and year `datetime` accepts: the month's last valid day, the day after it being invalid |
| Calendar.BillingCycleDateInMonth | app/common/UtilsLib/utility.py:745-754 | for a four-digit year and a real month, the given day when the month has it, otherwise the month's last day |
| Calendar.BillingCycleDateBadMonth | app/common/UtilsLib/utility.py:749-754 | no date for a month outside 1 to 12 |
| ErrorTree.MessagesAreLeaves | app/common/UtilsLib/utility.py:1468-1478 | the collected messages are exactly the string leaves of the tree |
| ErrorTree.DictMessagesAreLeaves | app/common/UtilsLib/utility.py:1472-1474 | a dict's messages are the string leaves under its values |
| ErrorTree.ListMessagesAreLeaves | app/common/UtilsLib/utility.py:1475-1477 | a list's messages are the string leaves under its items |
| ErrorTree.GetAllNestedErrorMessages | app/common/UtilsLib/utility.py:1468-1478 | the recursion computes the leaf specification, depth first |
| ErrorTree.CharItems | app/common/UtilsLib/utility.py:1421-1423 | iterating a string yields one message per character, at the same path |
| ErrorTree.BelowTrans | app/common/UtilsLib/utility.py:1412-1416 | a path below a path below a field is below the field |
| ErrorTree.PathBelow | app/common/UtilsLib/utility.py:1412-1416 | a key's path, `[i]` or `.name`, is strictly below its parent |
| ErrorTree.NestedItemsBelow | app/common/UtilsLib/utility.py:1410-1424 | every message find_nested_items reports sits strictly below the field it was given |
| ErrorTree.NestedUpToBelow | app/common/UtilsLib/utility.py:1411-1424 | the same for the first n entries |
| ErrorTree.ValueItemsAt | app/common/UtilsLib/utility.py:1417-1423 | a value's messages sit at its path or below it |
| ErrorTree.ListItemsAt | app/common/UtilsLib/utility.py:1420-1423 | a list's messages sit at its own path |
| ErrorTree.Texts | app/common/UtilsLib/utility.py:1420-1423 | the message of each located message, in order |
| ErrorTree.TextsAppend | app/common/UtilsLib/utility.py:1419-1423 | messages of concatenated lists concatenate |
| ErrorTree.NestedItemsAgree | app/common/UtilsLib/utility.py:1410-1478 | on the trees the validator produces, find_nested_items succeeds and reports exactly the messages get_all_nested_error_messages collects, in the same order |
| ErrorTree.NestedUpToAgree | app/common/UtilsLib/utility.py:1410-1478 | the same for the first n entries |
| ErrorTree.ValueItemsAgree | app/common/UtilsLib/utility.py:1417-1478 | the same for one value |
| ErrorTree.ListItemsAgree | app/common/UtilsLib/utility.py:1420-1477 | the same for a list of strings |
| ErrorTree.ClassifyAll | app/common/UtilsLib/utility.py:1421-1423 | one classification per message, in order |
| ErrorTree.ClassifyAppend | app/common/UtilsLib/utility.py:1419-1423 | classifying concatenated lists concatenates |
| ErrorTree.NestedUpToFailureStays | app/common/UtilsLib/utility.py:1411-1424 | once an entry raised, the remaining entries change nothing |
| ErrorTree.ListItemsFailureStays | app/common/UtilsLib/utility.py:1421-1423 | once an item raised, the remaining items change nothing |
| ErrorTree.PrepareFailureStays | app/common/UtilsLib/utility.py:1400-1406 | once a field raised, the remaining fields change nothing |
| ErrorTree.NestedStepOk | app/common/UtilsLib/utility.py:1411-1424 | one more entry extends the exceptions with that value's |
| ErrorTree.NestedStepFailure | app/common/UtilsLib/utility.py:1411-1424 | an entry that raises makes the whole call raise |
| ErrorTree.PrepareStepOk | app/common/UtilsLib/utility.py:1400-1406 | one more field extends the exceptions with that field's |
| ErrorTree.PrepareStepFailure | app/common/UtilsLib/utility.py:1400-1406 | a field that raises makes the whole call raise |
| ErrorTree.PrepareEach | app/common/UtilsLib/utility.py:1420-1423 | the message loop of a value that is not a dict computes its exceptions |
| ErrorTree.FindValueItems | app/common/UtilsLib/utility.py:1417-1423 | one value's exceptions: the nested dict's, or one per message |
| ErrorTree.FindNestedItems | app/common/UtilsLib/utility.py:1410-1424 | the loop computes the find_nested_items specification |
| ErrorTree.FieldExceptions | app/common/UtilsLib/utility.py:1400-1406 | one field's exceptions: a non-list value's nested ones, one per message of a list |
| ErrorTree.PrepareErrorResponse | app/common/UtilsLib/utility.py:1398-1407 | the loop computes the prepare_error_response specification |
| ErrorTree.FillUpToOk | app/common/UtilsLib/utility.py:1432-1435 | filling succeeds when the payload has every placeholder value |
| ErrorTree.FillUpToPlain | app/common/UtilsLib/utility.py:1432-1435 | a message without "{" is kept as it is |
| ErrorTree.FillField | app/common/UtilsLib/utility.py:1427-1460 | a message starting with "{var1}" starts, once filled, with the field's path |
| ErrorTree.StripHeadReplace | app/common/UtilsLib/utility.py:1435 | `replace` of a leading pattern the rest lacks swaps that pattern only |
| ErrorTree.ParseUpToShape | app/common/UtilsLib/utility.py:1427-1441 | on the payloads the classifier builds, one error per exception, in order, with its code, payload and filled message |
| ErrorTree.ParseResponseShape | app/common/UtilsLib/utility.py:1427-1441 | exactly `{'ok': False, 'errors': [...]}` with one error per exception |
| ErrorTree.ParseUpToFailureStays | app/common/UtilsLib/utility.py:1429-1437 | once an exception raised, the remaining ones change nothing |
| ErrorTree.FillUpToFailureStays | app/common/UtilsLib/utility.py:1432-1435 | once a placeholder raised, the remaining ones change nothing |
| ErrorTree.ParseResponseOf | app/common/UtilsLib/utility.py:1427-1441 | the two loops compute the parse_response specification |
| ErrorTree.FillMessage | app/common/UtilsLib/utility.py:1432-1435 | the placeholder loop computes the filled message |
| Validation.FormatOfValue | app/common/UtilsLib/utility.py:1204-1214 | each format name selects its own handler and nothing else does |
| Validation.AsText | app/common/UtilsLib/utility.py:1242-1247 | `_text` leaves a string in the field and keeps a string as it is |
| Validation.Lower | app/common/UtilsLib/utility.py:1288 | ASCII lower-casing, character by character |
| Validation.ProcessRefuses | app/common/UtilsLib/utility.py:1216-1226 | refused with the value kept exactly when the variable is excluded, inactive while the status is checked, or of a format without a handler; otherwise the handler decides |
| Validation.StringFormatsKeepText | app/common/UtilsLib/utility.py:1242-1264 | text, name, email, phone and regex leave a string in the field, keep a string as it is, and return the value they keep |
| Validation.PatternFormatsValid | app/common/UtilsLib/utility.py:1242-1260 | text and names are always valid; an email or phone number is valid exactly when its text matches the pattern |
| Validation.RegexNeedsPattern | app/common/UtilsLib/utility.py:1262-1264 | a regex format raises KeyError exactly without a pattern, after the field became text; with one, valid exactly when the text matches |
| Validation.BooleanValid | app/common/UtilsLib/utility.py:1287-1296 | valid exactly when the value returned is a bool; a bool stays valid and unchanged; text is kept lower-cased |
| Validation.LowerIdempotent | app/common/UtilsLib/utility.py:1288 | lower-casing twice is lower-casing once |
| Validation.ApplyIdempotent | app/common/UtilsLib/utility.py:1242-1296 | running a handler again on the value it kept gives the same outcome |
| Validation.ProcessIdempotent | app/common/UtilsLib/utility.py:1216-1296 | processing the value `do_process` kept gives the same outcome |
| Validation.VariableValueValidation.constructor | app/common/UtilsLib/utility.py:1191-1202 | the fields as given, a missing `validation` or exclusion list read as empty |
| Validation.VariableValueValidation.DoProcess | app/common/UtilsLib/utility.py:1216-1226 | the result and the new field value are the process specification on the old value |
| Validation.VariableValueValidation.Text | app/common/UtilsLib/utility.py:1242-1247 | the text handler's outcome and new field value |
| Validation.VariableValueValidation.Name | app/common/UtilsLib/utility.py:1249-1250 | the name handler's outcome and new field value |
| Validation.VariableValueValidation.Phone | app/common/UtilsLib/utility.py:1252-1255 | the phone handler's outcome and new field value |
| Validation.VariableValueValidation.Email | app/common/UtilsLib/utility.py:1257-1260 | the email handler's outcome and new field value |
| Validation.VariableValueValidation.Regex | app/common/UtilsLib/utility.py:1262-1264 | the regex handler's outcome and new field value |
| Validation.VariableValueValidation.Number | app/common/UtilsLib/utility.py:1266-1279 | the number handler's outcome, the field unchanged |
| Validation.VariableValueValidation.Date | app/common/UtilsLib/utility.py:1281-1285 | the date handler's outcome, the field unchanged |
| Validation.VariableValueValidation.Boolean | app/common/UtilsLib/utility.py:1287-1290 | the boolean handler's outcome and the lower-cased field |
| Channels.ProviderIdInverse | app/common/UtilsLib/utility.py:1066-1081 | a provider name and id determine each other on every channel |
| Channels.WebhookForEveryProvider | app/common/UtilsLib/utility.py:1045-1063 | a provider id has a webhook builder exactly when it has a name |
| Channels.RoutesDistinct | app/common/UtilsLib/utility.py:1006-1042 | no two providers share a webhook route |
| Channels.WebhooksDistinct | app/common/UtilsLib/utility.py:1045-1063 | distinct providers get distinct webhook URLs for the same base URL and key |
| Channels.IdentifiesSupportedDialog | app/common/UtilsLib/utility.py:1503-1507 | true exactly when some message event has a supported dialog type |
| Channels.NextDialogStops | app/common/UtilsLib/utility.py:1539-1546 | None exactly on WhatsApp through Meta, 360Dialog Cloud, or 360Dialog in production, once a message event holds a supported dialog; the next key otherwise |
| Channels.Dialog360SandboxContinues | app/common/UtilsLib/utility.py:1510-1546 | 360Dialog outside production never stops the flow |
| HtmlParser.RewritesShorten | app/common/UtilsLib/html_parser.py:100-109 | every replacement is non-empty and shorter than its pattern |
| HtmlParser.RewriteUpToShrinks | app/common/UtilsLib/html_parser.py:100-109 | the replacements never lengthen the text, leave a text without any pattern unchanged, and shorten one with a pattern |
| HtmlParser.RemoveExtraLineUnchanged | app/common/UtilsLib/html_parser.py:100-109 | the text changes exactly when it holds one of the patterns |
| HtmlParser.EmptyParagraphTakesNewlines | app/common/UtilsLib/html_parser.py:100-109 | an empty paragraph between newlines becomes the new-line mark, newlines included |
| HtmlParser.RemoveExtraLineShortens | app/common/UtilsLib/html_parser.py:100-109 | remove_extra_line never lengthens a text |
| HtmlParser.StripKeepsOthers | app/common/UtilsLib/html_parser.py:112-120 | a value that is not a non-empty string is returned as it is |
| HtmlParser.StripEdges | app/common/UtilsLib/html_parser.py:112-120 | at most one character goes from each end, each a newline, the leading one exactly when it is a newline |
| HtmlParser.StripWrapped | app/common/UtilsLib/html_parser.py:112-120 | a text wrapped in one newline on each side comes back unwrapped |
| HtmlParser.StripNoEdges | app/common/UtilsLib/html_parser.py:112-120 | a string neither starting nor ending with a newline is untouched |
| OrmUtils.Filtered | app/common/utils.py:4-8 | every entry but the instance state, and nothing else |
| OrmUtils.FilteredAbsent | app/common/utils.py:4-8 | a dictionary without the instance state comes back unchanged |
| OrmUtils.FilteredIdempotent | app/common/utils.py:4-8 | filtering twice is filtering once |
| OrmUtils.FilteredSize | app/common/utils.py:4-8 | exactly one entry goes when the instance state is there, none otherwise |
| OrmUtils.FilterOrmInsertResult | app/common/utils.py:4-8 | the instance state is deleted in place and the same dictionary returned |

## Left out

- The relational store, the Redis client and the search index are not modelled as
  programs: each store query is a snapshot function passed in, and the cache is the
  map of `Cache.Network`, so SQL bodies, sessions and connection handling are outside.
- The Redis commands of CachingLib are given the usual Redis meaning, because that
  library is not part of this model: SET stores the text of a str or int (an int
  as its decimal digits, a bool as `True` or `False`) and GET returns that text,
  GET_JSON reads documents, either one reads None on an entry of the other kind,
  INCREMENT_VALUE
  fails on a missing key or field, and SET_JSON_NX writes only to an absent key.
- Key templates (`RedisKeyEnum`), `NormalizedParameterPrefix`, `VariablePatternEnum`,
  `VISITOR_NAME_SERIES` and the environment settings (for example
  `REDIS_VISITOR_KEY_EXPIRATION_TIME`) come from modules not part of this model; they
  are parameters.
- The calls to `add_log` from the entity files and every log message text are left
  out: they change no returned value and no cache entry. `add_log` itself is
  modelled by `CommonUtility.AddLog`.
- `requests_retry_session` (DataAccessLib/common/utility.py:54-66) is network setup
  with no logic to prove.
- `change_date_format` (DataAccessLib/common/utility.py:112-113) formats a date with a
  clock and calendar library, and refers to a name its file never imports.
- `decode_unicode_dict` (account.py:69) and `decode_unicode` (agent.py:72) are regex
  rewrites of escaped text; the model treats both as the identity.
- `ManageDeleteAccountResource` and `GetDeleteAccountResource` (account.py:505-574)
  compare statuses with constants of a module not part of this model.
- Agent.MissingAgentIds: lists the missing ids in their first-occurrence order,
  whereas Python's set difference has no defined order; the set of ids is the same.
- Bot.ChannelConfigurations: queries the Messenger configuration once, whereas
  bot.py:128-129 runs the same query twice; both calls see the same snapshot.
- The payload dicts are maps, so the key order of a Python dict is not modelled,
  except where the source's order matters and the model keeps a sequence.
- `SingletonDecorator` is modelled once, by `CommonUtility.Singleton`; the entity
  modules call their managers' methods directly, without an instance.
- Bot.BotPayload: `str()` of the `created_at` datetime is a parameter, because the
  datetime type and its text form are not part of this model.
- Json: the model's values have no float or Decimal, so a float read from the store
  or from a JSON config is not modelled.
- Account.MaxOutbound: a float `max_outbound_messages` lies outside the modelled
  values; account.py:502 would subtract it and return its text (for example "97.0").
- Account.RemainingFound: the same float maximum is not modelled; the TypeError case
  covers only None, str, list and dict.
- KeyMapping.IdFromKeySpec: `int()` of a string is `Json.ParseInt`, which accepts only
  an optional minus sign followed by ASCII digits. The forms Python also accepts
  (surrounding whitespace, a leading '+', '_' between digits, non-ASCII digits) are
  read as ValueError.
- Json.ParseInt: the same strict form is used wherever `int()` of a string is
  modelled: `Account.GetAccountIdFromAccountKey`, `Bot.GetBotIdByPublishKey`,
  `ConversationAssignment.ParseInts` and `Account.ConvertedColumns` (`int()` of
  `is_domain_restricted`).
- Account.JsonCodec: `json.dumps` and `json.loads` in `parse_account_object` are
  parameters; `loads` may raise, and `dumps` is taken never to raise on a column read
  from the store.
- Validation: the phone and e-mail regexes, `json.dumps`, `json.loads`,
  `_number`, `_date` and the date parser are parameters in `Validation.Library`,
  because they rest on regex, float and calendar libraries.
- Validation.Lower: lower-cases ASCII letters only, whereas `str.lower()` also folds
  other Unicode letters.
- Calendar.BillingCycleDateInMonth: treats `datetime.strptime` as the question
  whether the day exists in the month; time of day and time zones are not modelled.
- ErrorTree: `check_error_and_prepare_payload`'s matching against the error regex
  table of `UtilsLib/enum.py` is a classifier parameter; the model keeps the tree
  walk around it.
- The BeautifulSoup and html2text parts of `UtilsLib/html_parser.py` are left out;
  only its two plain-text rewrites are modelled.
- `dto_mapper` (app/common/utils.py:11-12) is a marshmallow schema call.
- Visitor.ValidNameConfig: `Visitor.VisitorPattern`, `Visitor.DefaultNameSpec`,
  `Visitor.SeriesAndCounter`, `Visitor.DefaultName` and the payload and sync members
  built on them require a positive `MAX_SERIES_NO_FOR_VISITOR_COUNT` and a non-empty
  `VISITOR_NAME_SERIES`. A zero maximum (ZeroDivisionError on a truthy counter, the
  roll-over on a falsy one), a negative maximum and an empty series (IndexError) are
  not modelled.
- `is_valid_variable` (UtilsLib/utility.py:847-883), `split_variable_and_fallback_message`
  (1104-1113) and `is_valid_branch_operator` (1174-1187) are not modelled: they are
  flow-builder validators built on regexes and enum tables of modules not part of
  this model, and no modelled operation calls them.
- The source takes no locks; concurrent fills are not modelled, and the last write
  wins.

## Findings

| source | as written | input that shows it | evidently intended | confidence | as-written member | corrected member |
|---|---|---|---|---|---|---|
| app/common/UtilsLib/utility.py:840-844 | the name check `re.match('^[a-z0-9_]+$', name)` lets one trailing newline through, because Python's `$` also matches before a final "\n" | the variable name "abc\n" | accept only a non-empty run of `[a-z0-9_]` and nothing else | not executed | Variables.LowercaseValidAsWritten, used by Variables.VariableByPattern and Variables.GetVariableByPattern, with lemmas Variables.TrailingNewlineAccepted and Variables.NewlineVariableAccepted | Variables.LowercaseValid, used by Variables.VariableByPatternIntended, with lemmas Variables.VariableRoundTripIntended and Variables.PatternChecksDiffer |
