/** Conversation assignment per account: for every account user, the conversation
  * threads assigned to them, users without any listed first; cached under
  * CONVERSATION_ASSIGNMENT_DATA and filled from the store on a miss. */
module ConversationAssignment {
  import opened Json
  import opened Cache
  import opened Handler
  import opened Batch

  /** One entry of the cached list: `{user_id, assign_threads}`. */
  datatype Assignment = Assignment(userId: int, threads: seq<int>)

  function ThreadJson(n: int): Json {
    JInt(n)
  }

  function AssignmentJson(a: Assignment): Json {
    JObj(map["user_id" := JInt(a.userId), "assign_threads" := JList(MapSeq(a.threads, ThreadJson))])
  }

  // ---------------------------------------------------------------------------
  // The group_concat column: "3,5,8" split on ',' into ints
  // ---------------------------------------------------------------------------

  /** `s.split(sep)`: the pieces between separators; never empty. */
  function Split(s: string, sep: char): (r: seq<string>)
    ensures |r| >= 1
    decreases |s|
  {
    if |s| == 0 then [""]
    else
      var rest := Split(s[1..], sep);
      if s[0] == sep then [""] + rest else [[s[0]] + rest[0]] + rest[1..]
  }

  /** `sep.join(pieces)`. */
  function Join(pieces: seq<string>, sep: char): string
    decreases |pieces|
  {
    if |pieces| == 0 then ""
    else if |pieces| == 1 then pieces[0]
    else pieces[0] + [sep] + Join(pieces[1..], sep)
  }

  predicate Free(piece: string, sep: char) {
    forall k :: 0 <= k < |piece| ==> piece[k] != sep
  }

  /** Joining the pieces gives the string back, and no piece holds the separator. */
  lemma {:induction false} SplitJoin(s: string, sep: char)
    ensures Join(Split(s, sep), sep) == s
    ensures forall i :: 0 <= i < |Split(s, sep)| ==> Free(Split(s, sep)[i], sep)
    decreases |s|
  {
    if |s| > 0 {
      var rest := Split(s[1..], sep);
      SplitJoin(s[1..], sep);
      if s[0] == sep {
        assert Split(s, sep) == [""] + rest;
        assert ([""] + rest)[1..] == rest;
        assert Join(Split(s, sep), sep) == "" + [sep] + Join(rest, sep);
        forall i | 0 <= i < |Split(s, sep)|
          ensures Free(Split(s, sep)[i], sep)
        {
          if i > 0 {
            assert Split(s, sep)[i] == rest[i - 1];
          }
        }
      } else {
        var r := Split(s, sep);
        assert r == [[s[0]] + rest[0]] + rest[1..];
        assert r[1..] == rest[1..];
        if |rest| == 1 {
          assert Join(r, sep) == [s[0]] + rest[0];
        } else {
          assert Join(rest, sep) == rest[0] + [sep] + Join(rest[1..], sep);
          assert Join(r, sep) == [s[0]] + rest[0] + [sep] + Join(rest[1..], sep);
        }
        assert [s[0]] + s[1..] == s;
        forall i | 0 <= i < |r|
          ensures Free(r[i], sep)
        {
          if i > 0 {
            assert r[i] == rest[i];
          } else {
            assert Free(rest[0], sep);
            assert forall k :: 0 < k < |r[0]| ==> r[0][k] == rest[0][k - 1];
          }
        }
      }
    }
  }

  /** A piece without the separator splits into itself. */
  lemma {:induction false} SplitFree(p: string, rest: string, sep: char)
    requires Free(p, sep)
    ensures Split(p + rest, sep) == [p + Split(rest, sep)[0]] + Split(rest, sep)[1..]
    decreases |p|
  {
    if |p| > 0 {
      assert (p + rest)[1..] == p[1..] + rest;
      assert Free(p[1..], sep) by {
        assert forall k :: 0 <= k < |p[1..]| ==> p[1..][k] == p[k + 1];
      }
      SplitFree(p[1..], rest, sep);
      assert [p[0]] + (p[1..] + Split(rest, sep)[0]) == p + Split(rest, sep)[0];
    } else {
      assert p + rest == rest;
      assert Split(rest, sep) == [Split(rest, sep)[0]] + Split(rest, sep)[1..];
      assert p + Split(rest, sep)[0] == Split(rest, sep)[0];
    }
  }

  /** Splitting a join of separator-free pieces gives the pieces back. */
  lemma {:induction false} JoinSplit(pieces: seq<string>, sep: char)
    requires |pieces| >= 1
    requires forall i :: 0 <= i < |pieces| ==> Free(pieces[i], sep)
    ensures Split(Join(pieces, sep), sep) == pieces
    decreases |pieces|
  {
    if |pieces| == 1 {
      SplitFree(pieces[0], "", sep);
      assert pieces[0] + "" == pieces[0];
    } else {
      var tail := Join(pieces[1..], sep);
      JoinSplit(pieces[1..], sep);
      assert Join(pieces, sep) == pieces[0] + ([sep] + tail);
      SplitFree(pieces[0], [sep] + tail, sep);
      assert ([sep] + tail)[1..] == tail;
      assert Split([sep] + tail, sep) == [""] + pieces[1..];
      assert pieces[0] + "" == pieces[0];
      assert ([""] + pieces[1..])[1..] == pieces[1..];
    }
  }

  /** `list(map(int, pieces))`: the first piece that is not an integer raises. */
  function ParseInts(pieces: seq<string>): (r: Result<seq<int>>)
    ensures r.Ok? ==> |r.value| == |pieces|
    ensures r.Ok? ==> forall i :: 0 <= i < |pieces| ==> ParseInt(pieces[i]) == Ok(r.value[i])
    ensures r.Failure? ==> exists i :: 0 <= i < |pieces| && ParseInt(pieces[i]).Failure?
    decreases |pieces|
  {
    if |pieces| == 0 then Ok([])
    else
      match ParseInt(pieces[0])
      case Failure(err) => Failure(err)
      case Ok(n) =>
        match ParseInts(pieces[1..])
        case Failure(err) => Failure(err)
        case Ok(ns) => Ok([n] + ns)
  }

  /** Lines 99-100: a NULL or empty column gives no threads; otherwise the
    * comma-separated ids, each parsed with `int`. */
  function ParseThreads(concat: Option<string>): Result<seq<int>> {
    if concat.None? || concat.value == "" then Ok([])
    else ParseInts(Split(concat.value, ','))
  }

  /** What MySQL's `GROUP_CONCAT` makes of a list of ids. */
  function GroupConcat(ids: seq<int>): string {
    Join(MapSeq(ids, IntStr), ',')
  }

  lemma IntStrFree(n: int)
    ensures Free(IntStr(n), ',') && |IntStr(n)| >= 1
  {
    if n < 0 {
      assert forall k :: 0 < k < |IntStr(n)| ==> IntStr(n)[k] == NatStr(-n)[k - 1];
    }
  }

  /** The parse undoes `GROUP_CONCAT`: every id list comes back as it was stored,
    * the empty one through the NULL the column then holds. */
  lemma ThreadsRoundTrip(ids: seq<int>)
    ensures ParseThreads(if |ids| == 0 then None else Some(GroupConcat(ids))) == Ok(ids)
  {
    if |ids| > 0 {
      var pieces := MapSeq(ids, IntStr);
      forall i | 0 <= i < |pieces|
        ensures Free(pieces[i], ',')
      {
        IntStrFree(ids[i]);
      }
      JoinSplit(pieces, ',');
      IntStrFree(ids[0]);
      assert |Join(pieces, ',')| >= |pieces[0]| by {
        if |pieces| > 1 {
          assert Join(pieces, ',') == pieces[0] + [','] + Join(pieces[1..], ',');
        }
      }
      var r := ParseInts(pieces);
      forall i | 0 <= i < |ids|
        ensures ParseInt(pieces[i]) == Ok(ids[i])
      {
        ParseIntStr(ids[i]);
      }
      assert r.value == ids;
    }
  }

  // ---------------------------------------------------------------------------
  // order_user_assignment
  // ---------------------------------------------------------------------------

  function Reversed(s: seq<int>): (r: seq<int>)
    ensures |r| == |s| && forall i :: 0 <= i < |s| ==> r[i] == s[|s| - 1 - i]
  {
    seq(|s|, i requires 0 <= i < |s| => s[|s| - 1 - i])
  }

  lemma ReversedTwice(s: seq<int>)
    ensures Reversed(Reversed(s)) == s
  {
  }

  /** An entry with no threads for each user, in the given order. */
  function Blanks(users: seq<int>): (r: seq<Assignment>)
    ensures |r| == |users| && forall i :: 0 <= i < |users| ==> r[i] == Assignment(users[i], [])
  {
    seq(|users|, i requires 0 <= i < |users| => Assignment(users[i], []))
  }

  function NotIn(assignedUsers: seq<int>): int -> bool {
    (aid: int) => aid !in assignedUsers
  }

  /** The users to prepend: every account user when nobody was assignedUsers, otherwise
    * the account users left out of the assignment, in account order. */
  function Unassigned(accountUsers: seq<int>, assignedUsers: seq<int>): seq<int> {
    if |assignedUsers| == 0 then accountUsers else Keep(accountUsers, NotIn(assignedUsers))
  }

  /** The assignment list after `order_user_assignment`. */
  function Ordered(accountUsers: seq<int>, assignedUsers: seq<int>, entries: seq<Assignment>): seq<Assignment> {
    if |accountUsers| == 0 then entries else Blanks(Unassigned(accountUsers, assignedUsers)) + entries
  }

  /** A user is kept exactly when it is an account user that was not assignedUsers, and
    * the kept users keep their account order. */
  lemma {:induction false} KeepNotIn(accountUsers: seq<int>, assignedUsers: seq<int>)
    ensures forall u :: u in Keep(accountUsers, NotIn(assignedUsers)) <==> u in accountUsers && u !in assignedUsers
    ensures forall i, j :: 0 <= i < j < |Keep(accountUsers, NotIn(assignedUsers))| ==>
      exists a, b :: 0 <= a < b < |accountUsers|
        && accountUsers[a] == Keep(accountUsers, NotIn(assignedUsers))[i] && accountUsers[b] == Keep(accountUsers, NotIn(assignedUsers))[j]
    decreases |accountUsers|
  {
    if |accountUsers| > 0 {
      var init := accountUsers[..|accountUsers| - 1];
      var last := accountUsers[|accountUsers| - 1];
      KeepNotIn(init, assignedUsers);
      var kept := Keep(accountUsers, NotIn(assignedUsers));
      var k0 := Keep(init, NotIn(assignedUsers));
      assert kept == k0 + (if NotIn(assignedUsers)(last) then [last] else []);
      assert accountUsers == init + [last];
      forall i, j | 0 <= i < j < |kept|
        ensures exists a, b :: 0 <= a < b < |accountUsers| && accountUsers[a] == kept[i] && accountUsers[b] == kept[j]
      {
        if j < |k0| {
          var a, b :| 0 <= a < b < |init| && init[a] == k0[i] && init[b] == k0[j];
          assert accountUsers[a] == kept[i] && accountUsers[b] == kept[j];
        } else {
          assert kept[i] in init by {
            assert kept[i] == k0[i] && k0[i] in init;
          }
          var a :| 0 <= a < |init| && init[a] == kept[i];
          assert accountUsers[a] == kept[i] && accountUsers[|accountUsers| - 1] == kept[j];
        }
      }
    }
  }

  /** What `order_user_assignment` promises: the original entries stay last and in
    * order, preceded by an empty entry for every account user without one, in
    * account order; all account users when none was assignedUsers; no change without
    * account users. */
  lemma OrderedShape(accountUsers: seq<int>, assignedUsers: seq<int>, entries: seq<Assignment>)
    ensures var r := Ordered(accountUsers, assignedUsers, entries);
      var n := |r| - |entries|;
      0 <= n && r[n..] == entries
      && (forall i :: 0 <= i < n ==> r[i].threads == [] && r[i].userId in accountUsers && r[i].userId !in assignedUsers)
      && (forall u :: u in accountUsers && u !in assignedUsers ==> exists i :: 0 <= i < n && r[i].userId == u)
    ensures |assignedUsers| == 0 ==> Ordered(accountUsers, assignedUsers, entries) == Blanks(accountUsers) + entries
    ensures |accountUsers| == 0 ==> Ordered(accountUsers, assignedUsers, entries) == entries
  {
    var r := Ordered(accountUsers, assignedUsers, entries);
    KeepNotIn(accountUsers, assignedUsers);
    if |accountUsers| > 0 {
      var b := Blanks(Unassigned(accountUsers, assignedUsers));
      assert r[|b|..] == entries;
      forall u | u in accountUsers && u !in assignedUsers
        ensures exists i :: 0 <= i < |b| && r[i].userId == u
      {
        var us := Unassigned(accountUsers, assignedUsers);
        assert u in us;
        var i :| 0 <= i < |us| && us[i] == u;
        assert r[i] == b[i];
      }
    } else {
      assert r[0..] == entries;
    }
  }

  /** The assignment list `order_user_assignment` inserts into. */
  class AssignmentList {
    var items: seq<Assignment>

    constructor ()
      ensures items == []
    {
      items := [];
    }

    method Append(a: Assignment)
      modifies this
      ensures items == old(items) + [a]
    {
      items := items + [a];
    }

    /** `insert(0, a)`. */
    method InsertFront(a: Assignment)
      modifies this
      ensures items == [a] + old(items)
    {
      items := [a] + items;
    }
  }

  /** `users.reverse()`. */
  method ReverseInPlace(a: array<int>)
    modifies a
    ensures a[..] == Reversed(old(a[..]))
  {
    var i := 0;
    var j := a.Length - 1;
    while i < j
      invariant 0 <= i <= a.Length && j == a.Length - 1 - i
      invariant forall k :: 0 <= k < i ==> a[k] == old(a[a.Length - 1 - k]) && a[a.Length - 1 - k] == old(a[k])
      invariant forall k :: i <= k <= j ==> a[k] == old(a[k])
    {
      a[i], a[j] := a[j], a[i];
      i := i + 1;
      j := j - 1;
    }
  }

  lemma ReversedSnoc(s: seq<int>, x: int)
    ensures Reversed(s + [x]) == [x] + Reversed(s)
  {
  }

  lemma BlanksCons(x: int, s: seq<int>)
    ensures Blanks([x] + s) == [Assignment(x, [])] + Blanks(s)
  {
  }

  /** The insertion loop of `_order_list`: each user in turn is inserted at the front,
    * so the users end up before the entries in reverse order. */
  method InsertEach(users: array<int>, list: AssignmentList)
    modifies list
    ensures list.items == Blanks(Reversed(users[..])) + old(list.items)
  {
    ghost var entries := list.items;
    var i := 0;
    while i < users.Length
      invariant 0 <= i <= users.Length
      invariant list.items == Blanks(Reversed(users[..i])) + entries
    {
      list.InsertFront(Assignment(users[i], []));
      assert users[..i + 1] == users[..i] + [users[i]];
      ReversedSnoc(users[..i], users[i]);
      BlanksCons(users[i], Reversed(users[..i]));
      i := i + 1;
    }
    assert users[..i] == users[..];
  }

  /** `_order_list`: reversing the users and then inserting each at the front puts
    * them before the entries in their original order; the list itself is left
    * reversed. */
  method OrderList(users: array<int>, list: AssignmentList)
    modifies users, list
    ensures users[..] == Reversed(old(users[..]))
    ensures list.items == Blanks(old(users[..])) + old(list.items)
  {
    if users.Length == 0 {
      assert Blanks(users[..]) == [];
      return;
    }
    ghost var u0 := users[..];
    ReverseInPlace(users);
    InsertEach(users, list);
    ReversedTwice(u0);
  }

  /** `GetConversationAssignmentDetails.order_user_assignment`. */
  method OrderUserAssignment(accountUsers: array<int>, assignUsers: seq<int>, list: AssignmentList)
    modifies accountUsers, list
    ensures list.items == Ordered(old(accountUsers[..]), assignUsers, old(list.items))
    ensures accountUsers[..] == if accountUsers.Length > 0 && |assignUsers| == 0 then Reversed(old(accountUsers[..]))
                                else old(accountUsers[..])
  {
    if accountUsers.Length > 0 {
      if |assignUsers| > 0 {
        var kept := Keep(accountUsers[..], NotIn(assignUsers));
        var unassigned := new int[|kept|](k requires 0 <= k < |kept| => kept[k]);
        assert unassigned[..] == kept;
        OrderList(unassigned, list);
      } else {
        OrderList(accountUsers, list);
      }
    }
  }

  // ---------------------------------------------------------------------------
  // get_data_from_sql and the facade
  // ---------------------------------------------------------------------------

  /** A row of the workload query: a user and the `GROUP_CONCAT` of their threads. */
  datatype WorkloadRow = WorkloadRow(userId: int, threads: Option<string>)

  /** Snapshots of the three store queries: the account's user ids, its bot ids, and
    * the workload for given bots and users. */
  datatype AssignmentStore = AssignmentStore(
    users: int -> seq<int>,
    bots: int -> seq<int>,
    workload: (seq<int>, seq<int>) -> seq<WorkloadRow>)

  /** The workload query runs only when the account has both users and bots. */
  function WorkloadRows(st: AssignmentStore, accountId: int): seq<WorkloadRow> {
    var users := st.users(accountId);
    var bots := st.bots(accountId);
    if |users| > 0 && |bots| > 0 then st.workload(bots, users) else []
  }

  /** The entries appended by the loop over the workload rows, in row order. */
  function Entries(rows: seq<WorkloadRow>): Result<seq<Assignment>>
    decreases |rows|
  {
    if |rows| == 0 then Ok([])
    else
      match Entries(rows[..|rows| - 1])
      case Failure(err) => Failure(err)
      case Ok(es) =>
        match ParseThreads(rows[|rows| - 1].threads)
        case Failure(err) => Failure(err)
        case Ok(ts) => Ok(es + [Assignment(rows[|rows| - 1].userId, ts)])
  }

  function RowUser(r: WorkloadRow): int {
    r.userId
  }

  /** `get_data_from_sql`: the ordered list, or a raise from a malformed thread id;
    * an empty list stands for the None returned when nothing is found. */
  function SqlAssignments(st: AssignmentStore, accountId: int): Result<seq<Assignment>> {
    var rows := WorkloadRows(st, accountId);
    match Entries(rows)
    case Failure(err) => Failure(err)
    case Ok(es) => Ok(Ordered(st.users(accountId), MapSeq(rows, RowUser), es))
  }

  lemma {:induction false} EntriesFailureStays(rows: seq<WorkloadRow>, j: nat)
    requires j <= |rows| && Entries(rows[..j]).Failure?
    ensures Entries(rows) == Entries(rows[..j])
    decreases |rows| - j
  {
    if j < |rows| {
      assert rows[..j + 1][..j] == rows[..j];
      EntriesFailureStays(rows, j + 1);
    } else {
      assert rows[..j] == rows;
    }
  }

  /** One entry per workload row, in row order, with the row's user and its parsed threads. */
  lemma {:induction false} EntriesInOrder(rows: seq<WorkloadRow>)
    requires Entries(rows).Ok?
    ensures |Entries(rows).value| == |rows|
    ensures forall i :: 0 <= i < |rows| ==>
      ParseThreads(rows[i].threads).Ok? && Entries(rows).value[i] == Assignment(rows[i].userId, ParseThreads(rows[i].threads).value)
    decreases |rows|
  {
    if |rows| > 0 {
      var init := rows[..|rows| - 1];
      EntriesInOrder(init);
      forall i | 0 <= i < |rows|
        ensures ParseThreads(rows[i].threads).Ok? && Entries(rows).value[i] == Assignment(rows[i].userId, ParseThreads(rows[i].threads).value)
      {
        if i < |init| {
          assert init[i] == rows[i];
        }
      }
    }
  }

  /** Nothing is found exactly when the account has no users and the workload is
    * empty; an account with users but no bots gets every user with no threads. */
  lemma SqlAssignmentsFound(st: AssignmentStore, accountId: int)
    requires SqlAssignments(st, accountId).Ok?
    ensures SqlAssignments(st, accountId).value == [] <==> |st.users(accountId)| == 0 && |WorkloadRows(st, accountId)| == 0
    ensures |st.users(accountId)| > 0 && |st.bots(accountId)| == 0 ==>
      SqlAssignments(st, accountId).value == Blanks(st.users(accountId))
  {
    var rows := WorkloadRows(st, accountId);
    EntriesInOrder(rows);
    OrderedShape(st.users(accountId), MapSeq(rows, RowUser), Entries(rows).value);
    if |st.users(accountId)| > 0 {
      var u := st.users(accountId)[0];
      if u !in MapSeq(rows, RowUser) {
        assert |Ordered(st.users(accountId), MapSeq(rows, RowUser), Entries(rows).value)| > 0;
      }
    }
  }

  /** The loop of `get_data_from_sql` and the ordering, over fresh lists. */
  method GetDataFromSql(st: AssignmentStore, accountId: int) returns (r: Result<seq<Assignment>>)
    ensures r == SqlAssignments(st, accountId)
  {
    var users := st.users(accountId);
    var rows := WorkloadRows(st, accountId);
    var list := new AssignmentList();
    var assignUsers: seq<int> := [];
    var i := 0;
    while i < |rows|
      invariant 0 <= i <= |rows|
      invariant Entries(rows[..i]) == Ok(list.items)
      invariant assignUsers == MapSeq(rows[..i], RowUser)
    {
      var threads := ParseThreads(rows[i].threads);
      assert rows[..i + 1][..i] == rows[..i];
      if threads.Failure? {
        EntriesFailureStays(rows, i + 1);
        return Failure(threads.error);
      }
      list.Append(Assignment(rows[i].userId, threads.value));
      assignUsers := assignUsers + [rows[i].userId];
      i := i + 1;
    }
    assert rows[..i] == rows;
    var accountUsers := new int[|users|](k requires 0 <= k < |users| => users[k]);
    assert accountUsers[..] == users;
    OrderUserAssignment(accountUsers, assignUsers, list);
    r := Ok(list.items);
  }

  function AssignmentArgs(accountId: int): Kwargs {
    map["account_id" := Value(JInt(accountId))]
  }

  /** The cached payload: `data['conversation_assignments']`. */
  function AssignmentsPayload(list: seq<Assignment>): Json {
    JList(MapSeq(list, AssignmentJson))
  }

  /** `sync_data` with `GetConversationAssignmentDetails`: a raise in the store lookup
    * ends it after that lookup; an empty list is not found, `{}` is returned and
    * nothing written; otherwise the list is written under the key (no expiry is
    * passed). */
  function AssignmentSync(st: AssignmentStore, key: string, accountId: int): Outcome {
    var kw := AssignmentArgs(accountId);
    match SqlAssignments(st, accountId)
    case Failure(err) => Outcome(Failure(err), [StoreQuery(kw)])
    case Ok(list) =>
      if |list| == 0 then Outcome(Ok(Empty), [StoreQuery(kw), SearchQuery(kw)])
      else Outcome(Ok(AssignmentsPayload(list)), [StoreQuery(kw), SearchQuery(kw), CacheOp(WriteCall(key, AssignmentsPayload(list)))])
  }

  method AssignmentSyncData(net: Network, st: AssignmentStore, key: string, accountId: int) returns (r: Result<Json>)
    modifies net
    ensures r == AssignmentSync(st, key, accountId).result
    ensures net.trace == old(net.trace) + AssignmentSync(st, key, accountId).events
    ensures net.entries == Run(old(net.entries), AssignmentSync(st, key, accountId).events)
  {
    ghost var e0 := net.entries;
    var kw := AssignmentArgs(accountId);
    var data := GetDataFromSql(st, accountId);
    net.Perform(StoreQuery(kw));
    RunOne(e0, StoreQuery(kw));
    if data.Failure? {
      return Failure(data.error);
    }
    net.Perform(SearchQuery(kw));
    ghost var queries := [StoreQuery(kw), SearchQuery(kw)];
    RunSnoc(e0, [StoreQuery(kw)], SearchQuery(kw));
    assert [StoreQuery(kw)] + [SearchQuery(kw)] == queries;
    if |data.value| == 0 {
      return Ok(Empty);
    }
    var payload := AssignmentsPayload(data.value);
    var written := SetDataInCache(net, key, payload);
    RunSnoc(e0, queries, CacheOp(WriteCall(key, payload)));
    r := Ok(payload);
  }

  /** `get_conversation_assignment_details`: GET_JSON on the key; a hit is returned
    * unchanged, a miss syncs under the same key. */
  function DetailsSpec(e: Entries, st: AssignmentStore, key: string, accountId: int): Outcome {
    var cached := ReadJson(e, key);
    var read := [CacheOp(JsonGet(key))];
    if Truthy(cached) then Outcome(Ok(cached), read)
    else
      var s := AssignmentSync(st, key, accountId);
      Outcome(s.result, read + s.events)
  }

  /** A miss that finds assignments caches them, and the next call is a hit that
    * returns the same list with no store call. */
  lemma DetailsFillThenHit(e: Entries, st: AssignmentStore, key: string, accountId: int)
    requires !Truthy(ReadJson(e, key))
    requires SqlAssignments(st, accountId).Ok? && |SqlAssignments(st, accountId).value| > 0
    ensures var first := DetailsSpec(e, st, key, accountId);
      first.result == Ok(AssignmentsPayload(SqlAssignments(st, accountId).value))
      && DetailsSpec(Run(e, first.events), st, key, accountId) == Outcome(first.result, [CacheOp(JsonGet(key))])
  {
    var s := AssignmentSync(st, key, accountId);
    var kw := AssignmentArgs(accountId);
    var read := CacheOp(JsonGet(key));
    var w := CacheOp(WriteCall(key, AssignmentsPayload(SqlAssignments(st, accountId).value)));
    assert s.events == [StoreQuery(kw), SearchQuery(kw)] + [w];
    RunAppend(e, [read], s.events);
    RunOne(e, read);
    RunSnoc(e, [StoreQuery(kw), SearchQuery(kw)], w);
    RunSnoc(e, [StoreQuery(kw)], SearchQuery(kw));
    RunOne(e, StoreQuery(kw));
    assert [StoreQuery(kw)] + [SearchQuery(kw)] == [StoreQuery(kw), SearchQuery(kw)];
  }

  method GetConversationAssignmentDetails(net: Network, t: KeyTemplate, st: AssignmentStore, accountId: int)
    returns (r: Result<Json>)
    modifies net
    ensures r == DetailsSpec(old(net.entries), st, Key(t, IntStr(accountId)), accountId).result
    ensures net.trace == old(net.trace) + DetailsSpec(old(net.entries), st, Key(t, IntStr(accountId)), accountId).events
    ensures net.entries == Run(old(net.entries), DetailsSpec(old(net.entries), st, Key(t, IntStr(accountId)), accountId).events)
  {
    ghost var e0 := net.entries;
    ghost var t0 := net.trace;
    var key := Key(t, IntStr(accountId));
    ghost var read := CacheOp(JsonGet(key));
    var data := net.GetJson(key);
    RunOne(e0, read);
    if Truthy(data) {
      return Ok(data);
    }
    ghost var s := AssignmentSync(st, key, accountId);
    r := AssignmentSyncData(net, st, key, accountId);
    RunAppend(e0, [read], s.events);
    AppendAssoc(t0, [read], s.events);
  }
}
