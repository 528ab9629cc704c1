/** Team membership, cached per team. */
module Team {
  import opened Json
  import opened Cache
  import opened Handler

  datatype MemberRow = MemberRow(userId: int)

  /** `GetTeamMembers.get_data_from_sql`: the members as "agent_{user_id}" in row order,
    * or None (not found) when the team has no members. */
  function TeamFromSql(rows: seq<MemberRow>): (r: Option<seq<string>>)
    ensures r.None? <==> |rows| == 0
    ensures r.Some? ==> |r.value| == |rows| && forall i :: 0 <= i < |rows| ==> r.value[i] == "agent_" + IntStr(rows[i].userId)
  {
    if |rows| == 0 then None else Some(seq(|rows|, i requires 0 <= i < |rows| => "agent_" + IntStr(rows[i].userId)))
  }

  /** The loop of `get_data_from_sql` over the member rows. */
  method GetDataFromSql(rows: seq<MemberRow>) returns (r: Option<seq<string>>)
    ensures r == TeamFromSql(rows)
  {
    if |rows| == 0 {
      return None;
    }
    var members: seq<string> := [];
    var i := 0;
    while i < |rows|
      invariant 0 <= i <= |rows|
      invariant members == seq(i, j requires 0 <= j < i => "agent_" + IntStr(rows[j].userId))
    {
      members := members + ["agent_" + IntStr(rows[i].userId)];
      i := i + 1;
    }
    r := Some(members);
  }

  /** `prepare_sync_payload`: `{members: <list>}`. */
  function TeamPayload(data: Option<seq<string>>): (p: Json)
    ensures data.Some? ==> p == JObj(map["members" := JList(seq(|data.value|, i requires 0 <= i < |data.value| => JStr(data.value[i])))])
  {
    var members := if data.Some? then data.value else [];
    JObj(map["members" := JList(seq(|members|, i requires 0 <= i < |members| => JStr(members[i])))])
  }

  /** `GetTeamMembers` over the store's member query, which takes the team id. */
  function TeamGetter(members: Json -> seq<MemberRow>): Getter<Option<seq<string>>> {
    Getter((kw: Kwargs) => TeamFromSql(members(Kw(kw, "team_id"))), (d: Option<seq<string>>) => d.Some?,
           EmptySearch(), (d: Option<seq<string>>, es: Json, kw: Kwargs) => TeamPayload(d))
  }

  function TeamArgs(teamId: int): Kwargs {
    map["team_id" := Value(JInt(teamId))]
  }

  /** A team without members is not cached: the fill returns `{}` and writes nothing. */
  lemma EmptyTeamNotCached(members: Json -> seq<MemberRow>, key: string, teamId: int)
    requires members(JInt(teamId)) == []
    ensures SyncSpec(TeamGetter(members), key, TeamArgs(teamId)).result == Empty
    ensures |SyncSpec(TeamGetter(members), key, TeamArgs(teamId)).events| == 2
  {
    assert Kw(TeamArgs(teamId), "team_id") == JInt(teamId);
  }

  /** `ManageTeam.get_team_members`: GET_JSON on TEAM_DATA(team_id), filled on a miss. */
  method GetTeamMembers(net: Network, members: Json -> seq<MemberRow>, teamData: KeyTemplate, teamId: int) returns (r: Json)
    modifies net
    ensures var spec := ReadThroughSpec(old(net.entries), JsonRead, Key(teamData, IntStr(teamId)), TeamGetter(members), TeamArgs(teamId));
      r == spec.result && net.trace == old(net.trace) + spec.events && net.entries == Run(old(net.entries), spec.events)
  {
    r := ReadThrough(net, JsonRead, Key(teamData, IntStr(teamId)), TeamGetter(members), TeamArgs(teamId));
  }
}
