/** The master list of channels and their providers, grouped from the store's rows. */
module Channel {
  import opened Json
  import opened Cache

  /** One row of the channel/provider join. */
  datatype ChannelRow = ChannelRow(
    channelId: Json, priority: Json, channelName: string, channelLabel: Json,
    channelAvailable: Json, channelFields: Json,
    providerId: Json, providerName: Json, providerAvailable: Json, providerFields: Json)

  /** A channel being grouped; `providers` grows as later rows of it are read. */
  datatype ChannelEntry = ChannelEntry(
    id: Json, priority: Json, name: string, labelText: Json, isComingSoon: bool, fields: Json,
    providers: seq<Json>)

  /** `ManageChannel.provider_payload`: a provider for a row naming one, None otherwise. */
  function ProviderPayload(r: ChannelRow): (p: Option<Json>)
    ensures p.Some? <==> Truthy(r.providerName)
    ensures p.Some? ==> (p.value.JObj? && "name" in p.value.fields && "is_coming_soon" in p.value.fields
      && p.value.fields["name"] == r.providerName
      && p.value.fields["is_coming_soon"] == JBool(!Truthy(r.providerAvailable)))
  {
    if Truthy(r.providerName) then
      Some(JObj(map["id" := r.providerId, "name" := r.providerName, "label" := r.providerName,
                    "is_coming_soon" := JBool(!Truthy(r.providerAvailable)),
                    "fields" := if Truthy(r.providerFields) then r.providerFields else JList([])]))
    else None
  }

  /** The entry the first row of a channel creates. */
  function NewEntry(r: ChannelRow): ChannelEntry {
    var p := ProviderPayload(r);
    ChannelEntry(r.channelId, r.priority, r.channelName, r.channelLabel, !Truthy(r.channelAvailable),
                 if Truthy(r.channelFields) then r.channelFields else JList([]),
                 if p.Some? then [p.value] else [])
  }

  /** The dict being filled, its keys kept in insertion order. */
  datatype Grouping = Grouping(names: seq<string>, channels: map<string, ChannelEntry>)

  /** The grouping loop of `get_channel` over the rows: a channel's first row creates
    * its entry, and every later row appends its provider, None included. */
  function Group(rows: seq<ChannelRow>): (g: Grouping)
    ensures forall k :: 0 <= k < |g.names| ==> g.names[k] in g.channels
    ensures forall n :: n in g.channels ==> n in g.names
    ensures forall k, l :: 0 <= k < l < |g.names| ==> g.names[k] != g.names[l]
    decreases |rows|
  {
    if |rows| == 0 then Grouping([], map[])
    else AddRow(Group(rows[..|rows| - 1]), rows[|rows| - 1])
  }

  /** One step of the grouping loop. */
  function AddRow(g: Grouping, r: ChannelRow): Grouping {
    if r.channelName !in g.channels then Grouping(g.names + [r.channelName], g.channels[r.channelName := NewEntry(r)])
    else
      var c := g.channels[r.channelName];
      Grouping(g.names, g.channels[r.channelName := c.(providers := c.providers + [OptionToJson(ProviderPayload(r))])])
  }

  /** Grouping one more row of a prefix. */
  lemma GroupSnoc(rows: seq<ChannelRow>, i: nat)
    requires i < |rows|
    ensures Group(rows[..i + 1]) == AddRow(Group(rows[..i]), rows[i])
  {
    assert rows[..i + 1][..i] == rows[..i];
  }

  function EntryJson(c: ChannelEntry): Json {
    JObj(map["id" := c.id, "priority" := c.priority, "name" := JStr(c.name), "label" := c.labelText,
             "is_coming_soon" := JBool(c.isComingSoon), "fields" := c.fields, "providers" := JList(c.providers)])
  }

  /** The response: one channel per distinct name, in order of first appearance. */
  function Response(g: Grouping): (r: seq<Json>)
    requires forall k :: 0 <= k < |g.names| ==> g.names[k] in g.channels
    ensures |r| == |g.names|
  {
    seq(|g.names|, k requires 0 <= k < |g.names| => EntryJson(g.channels[g.names[k]]))
  }

  /** The rows of one channel name. */
  function CountOf(rows: seq<ChannelRow>, name: string): nat
    decreases |rows|
  {
    if |rows| == 0 then 0
    else CountOf(rows[..|rows| - 1], name) + (if rows[|rows| - 1].channelName == name then 1 else 0)
  }

  /** Exactly the names of the rows are grouped. */
  lemma {:induction false} GroupNames(rows: seq<ChannelRow>, name: string)
    ensures name in Group(rows).channels <==> HasName(rows, name)
    decreases |rows|
  {
    if |rows| > 0 {
      GroupNames(rows[..|rows| - 1], name);
      GroupNameStep(rows, name);
      HasNameStep(rows, name);
    }
  }

  /** Some row is of the channel `name`. */
  predicate HasName(rows: seq<ChannelRow>, name: string) {
    exists i :: 0 <= i < |rows| && rows[i].channelName == name
  }

  /** A row of `name` is in the prefix or is the last row. */
  lemma HasNameStep(rows: seq<ChannelRow>, name: string)
    requires |rows| > 0
    ensures HasName(rows, name) <==> HasName(rows[..|rows| - 1], name) || rows[|rows| - 1].channelName == name
  {
    var pre := rows[..|rows| - 1];
    if HasName(pre, name) {
      var i :| 0 <= i < |pre| && pre[i].channelName == name;
      assert rows[i] == pre[i];
    }
    if HasName(rows, name) {
      var i :| 0 <= i < |rows| && rows[i].channelName == name;
      if i < |pre| {
        assert pre[i] == rows[i];
      }
    }
  }

  /** One more row adds its own name to the grouped names and no other. */
  lemma GroupNameStep(rows: seq<ChannelRow>, name: string)
    requires |rows| > 0
    ensures name in Group(rows).channels <==>
      name in Group(rows[..|rows| - 1]).channels || rows[|rows| - 1].channelName == name
  {
  }

  /** The last row's name is new when no earlier row has it. */
  lemma NewInPrefix(rows: seq<ChannelRow>, i: nat)
    requires i == |rows| - 1
    requires forall j :: 0 <= j < i ==> rows[j].channelName != rows[i].channelName
    ensures rows[i].channelName !in Group(rows[..i]).channels
  {
    var pre := rows[..i];
    assert forall j :: 0 <= j < |pre| ==> pre[j] == rows[j];
    GroupNames(pre, rows[i].channelName);
  }

  /** A channel's id, priority, label, availability and fields come from its first row. */
  lemma {:induction false} GroupFirstRow(rows: seq<ChannelRow>, i: nat)
    requires i < |rows|
    requires forall j :: 0 <= j < i ==> rows[j].channelName != rows[i].channelName
    ensures rows[i].channelName in Group(rows).channels
    ensures Group(rows).channels[rows[i].channelName].(providers := []) == NewEntry(rows[i]).(providers := [])
    decreases |rows|
  {
    var pre := rows[..|rows| - 1];
    if i == |rows| - 1 {
      NewInPrefix(rows, i);
    } else {
      forall j | 0 <= j < i
        ensures pre[j].channelName != pre[i].channelName
      {
        assert pre[j] == rows[j] && pre[i] == rows[i];
      }
      GroupFirstRow(pre, i);
      assert pre[i] == rows[i];
    }
  }

  /** One more row after a channel is grouped adds a provider to it exactly when the
    * row is of that channel. */
  lemma GroupLastStep(rows: seq<ChannelRow>, name: string)
    requires |rows| > 0 && name in Group(rows[..|rows| - 1]).channels
    ensures name in Group(rows).channels
    ensures |Group(rows).channels[name].providers|
      == |Group(rows[..|rows| - 1]).channels[name].providers| + (if rows[|rows| - 1].channelName == name then 1 else 0)
  {
  }

  /** A channel lists one provider per row of it, except that a first row without a
    * provider contributes none; later rows without one contribute a None. */
  lemma {:induction false} GroupProviderCount(rows: seq<ChannelRow>, i: nat)
    requires i < |rows|
    requires forall j :: 0 <= j < i ==> rows[j].channelName != rows[i].channelName
    ensures rows[i].channelName in Group(rows).channels
    ensures |Group(rows).channels[rows[i].channelName].providers|
      == CountOf(rows, rows[i].channelName) - (if ProviderPayload(rows[i]).Some? then 0 else 1)
    decreases |rows|
  {
    var name := rows[i].channelName;
    var pre := rows[..|rows| - 1];
    if i == |rows| - 1 {
      NewInPrefix(rows, i);
      CountAbsent(pre, name);
      assert Group(rows).channels[name] == NewEntry(rows[i]);
    } else {
      forall j | 0 <= j < i
        ensures pre[j].channelName != pre[i].channelName
      {
        assert pre[j] == rows[j] && pre[i] == rows[i];
      }
      assert pre[i] == rows[i];
      GroupProviderCount(pre, i);
      GroupLastStep(rows, name);
      assert CountOf(rows, name) == CountOf(pre, name) + (if rows[|rows| - 1].channelName == name then 1 else 0);
    }
  }

  lemma {:induction false} CountAbsent(rows: seq<ChannelRow>, name: string)
    requires name !in Group(rows).channels
    ensures CountOf(rows, name) == 0
    decreases |rows|
  {
    if |rows| > 0 {
      var pre := rows[..|rows| - 1];
      CountAbsent(pre, name);
    }
  }

  /** Reading more rows only appends names: the response keeps first-appearance order. */
  lemma {:induction false} GroupNamesGrow(rows: seq<ChannelRow>, i: nat)
    requires i <= |rows|
    ensures Group(rows[..i]).names <= Group(rows).names
    decreases |rows|
  {
    if i < |rows| {
      var pre := rows[..|rows| - 1];
      assert pre[..i] == rows[..i];
      GroupNamesGrow(pre, i);
    } else {
      assert rows[..i] == rows;
    }
  }

  /** `ManageChannel.get_channel`: one store query, the grouping loop, then the
    * dict's values in insertion order; the cache is neither read nor written. */
  method GetChannel(net: Network, rows: seq<ChannelRow>) returns (response: seq<Json>)
    modifies net
    ensures response == Response(Group(rows))
    ensures net.entries == old(net.entries)
    ensures net.trace == old(net.trace) + [StoreQuery(map[])]
  {
    net.Perform(StoreQuery(map[]));
    var g := GroupRows(rows);
    response := ChannelList(g);
  }

  /** The grouping loop of get_channel. */
  method GroupRows(rows: seq<ChannelRow>) returns (g: Grouping)
    ensures g == Group(rows)
  {
    var names: seq<string> := [];
    var parsed: map<string, ChannelEntry> := map[];
    var i := 0;
    while i < |rows|
      invariant 0 <= i <= |rows|
      invariant Grouping(names, parsed) == Group(rows[..i])
    {
      var r := rows[i];
      GroupSnoc(rows, i);
      if r.channelName !in parsed {
        parsed := parsed[r.channelName := NewEntry(r)];
        names := names + [r.channelName];
      } else {
        var provider := ProviderPayload(r);
        var c := parsed[r.channelName];
        parsed := parsed[r.channelName := c.(providers := c.providers + [OptionToJson(provider)])];
      }
      i := i + 1;
    }
    assert rows[..i] == rows;
    g := Grouping(names, parsed);
  }

  /** `list(parsed.values())`: the channels in insertion order. */
  method ChannelList(g: Grouping) returns (response: seq<Json>)
    requires forall k :: 0 <= k < |g.names| ==> g.names[k] in g.channels
    ensures response == Response(g)
  {
    response := [];
    var k := 0;
    while k < |g.names|
      invariant 0 <= k <= |g.names|
      invariant response == Response(g)[..k]
    {
      response := response + [EntryJson(g.channels[g.names[k]])];
      k := k + 1;
    }
  }
}
