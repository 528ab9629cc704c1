/** Two list-and-dict patterns the data-access layer repeats: filling a dict in a
  * loop where a later row overwrites an earlier one's entry, and picking the
  * requested ids whose multi-get result came back falsy. */
module Batch {
  import opened Json
  import opened Cache

  /** `d = {}; for row in rows: d[key(row)] = val(row)`. */
  function Assign<R, V>(rows: seq<R>, key: R -> string, val: R -> V): map<string, V>
    decreases |rows|
  {
    if |rows| == 0 then map[]
    else Assign(rows[..|rows| - 1], key, val)[key(rows[|rows| - 1]) := val(rows[|rows| - 1])]
  }

  /** Row `i` is the last row whose key is `k`. */
  predicate IsLast<R>(rows: seq<R>, key: R -> string, k: string, i: int) {
    0 <= i < |rows| && key(rows[i]) == k && forall j :: i < j < |rows| ==> key(rows[j]) != k
  }

  /** The dict has an entry for exactly the keys of the rows. */
  lemma {:induction false} AssignDomain<R, V>(rows: seq<R>, key: R -> string, val: R -> V, k: string)
    ensures k in Assign(rows, key, val) <==> exists i :: 0 <= i < |rows| && key(rows[i]) == k
    decreases |rows|
  {
    if |rows| > 0 {
      var init := rows[..|rows| - 1];
      AssignDomain(init, key, val, k);
      if k in Assign(init, key, val) {
        var i :| 0 <= i < |init| && key(init[i]) == k;
        assert key(rows[i]) == k;
      }
      if exists i :: 0 <= i < |rows| && key(rows[i]) == k {
        var i :| 0 <= i < |rows| && key(rows[i]) == k;
        if i < |init| {
          assert key(init[i]) == k;
        }
      }
    }
  }

  /** An entry holds the value of the last row with that key. */
  lemma {:induction false} AssignLast<R, V>(rows: seq<R>, key: R -> string, val: R -> V, i: int)
    requires 0 <= i < |rows| && IsLast(rows, key, key(rows[i]), i)
    ensures key(rows[i]) in Assign(rows, key, val)
    ensures Assign(rows, key, val)[key(rows[i])] == val(rows[i])
    decreases |rows|
  {
    if i < |rows| - 1 {
      var init := rows[..|rows| - 1];
      assert IsLast(init, key, key(init[i]), i);
      AssignLast(init, key, val, i);
    }
  }

  /** Both facts about the filled dict, for every key and every row. */
  lemma AssignAll<R, V>(rows: seq<R>, key: R -> string, val: R -> V)
    ensures forall k :: k in Assign(rows, key, val) <==> exists i :: 0 <= i < |rows| && key(rows[i]) == k
    ensures forall i :: 0 <= i < |rows| && IsLast(rows, key, key(rows[i]), i) ==>
      key(rows[i]) in Assign(rows, key, val) && Assign(rows, key, val)[key(rows[i])] == val(rows[i])
  {
    forall k {
      AssignDomain(rows, key, val, k);
    }
    forall i | 0 <= i < |rows| && IsLast(rows, key, key(rows[i]), i) {
      AssignLast(rows, key, val, i);
    }
  }

  /** Every entry holds the value of some row with that key. */
  lemma {:induction false} AssignFrom<R, V>(rows: seq<R>, key: R -> string, val: R -> V, k: string)
    requires k in Assign(rows, key, val)
    ensures exists i :: 0 <= i < |rows| && key(rows[i]) == k && Assign(rows, key, val)[k] == val(rows[i])
    decreases |rows|
  {
    var init := rows[..|rows| - 1];
    if key(rows[|rows| - 1]) != k {
      AssignFrom(init, key, val, k);
      var i :| 0 <= i < |init| && key(init[i]) == k && Assign(init, key, val)[k] == val(init[i]);
      assert rows[i] == init[i];
    }
  }

  /** The loop that fills the dict. */
  method AssignLoop<R, V>(rows: seq<R>, key: R -> string, val: R -> V) returns (d: map<string, V>)
    ensures d == Assign(rows, key, val)
  {
    d := map[];
    var i := 0;
    while i < |rows|
      invariant 0 <= i <= |rows|
      invariant d == Assign(rows[..i], key, val)
    {
      assert rows[..i + 1][..i] == rows[..i];
      d := d[key(rows[i]) := val(rows[i])];
      i := i + 1;
    }
    assert rows[..|rows|] == rows;
  }

  /** When rows with the same key always carry the same value, every row's key
    * holds that row's value. */
  lemma {:induction false} AssignConsistent<R, V>(rows: seq<R>, key: R -> string, val: R -> V)
    requires forall i, j :: 0 <= i < |rows| && 0 <= j < |rows| && key(rows[i]) == key(rows[j]) ==> val(rows[i]) == val(rows[j])
    ensures forall i :: 0 <= i < |rows| ==> key(rows[i]) in Assign(rows, key, val) && Assign(rows, key, val)[key(rows[i])] == val(rows[i])
    decreases |rows|
  {
    if |rows| > 0 {
      var init := rows[..|rows| - 1];
      forall i, j | 0 <= i < |init| && 0 <= j < |init| && key(init[i]) == key(init[j])
        ensures val(init[i]) == val(init[j])
      {
        assert init[i] == rows[i] && init[j] == rows[j];
      }
      AssignConsistent(init, key, val);
      forall i | 0 <= i < |rows|
        ensures key(rows[i]) in Assign(rows, key, val) && Assign(rows, key, val)[key(rows[i])] == val(rows[i])
      {
        if i < |init| {
          assert init[i] == rows[i];
        }
      }
    }
  }

  /** `[row for row in rows if key(row) == k]`. */
  function Select<R>(rows: seq<R>, key: R -> string, k: string): (s: seq<R>)
    ensures |s| <= |rows|
    decreases |rows|
  {
    if |rows| == 0 then []
    else Select(rows[..|rows| - 1], key, k) + (if key(rows[|rows| - 1]) == k then [rows[|rows| - 1]] else [])
  }

  function MapSeq<R, V>(s: seq<R>, f: R -> V): (r: seq<V>)
    ensures |r| == |s| && forall i :: 0 <= i < |s| ==> r[i] == f(s[i])
  {
    seq(|s|, i requires 0 <= i < |s| => f(s[i]))
  }

  /** Mapping one more element of a prefix. */
  lemma MapSeqSnoc<R, V>(s: seq<R>, i: nat, f: R -> V)
    requires i < |s|
    ensures MapSeq(s[..i + 1], f) == MapSeq(s[..i], f) + [f(s[i])]
  {
  }

  /** `d.get(k, [])`. */
  function Lookup<V>(d: map<string, seq<V>>, k: string): seq<V> {
    if k in d then d[k] else []
  }

  /** `for row in rows: lst = d.get(key(row), []); lst.append(val(row)); d[key(row)] = lst`,
    * starting from `init`. */
  function Append<R, V>(init: map<string, seq<V>>, rows: seq<R>, key: R -> string, val: R -> V): map<string, seq<V>>
    decreases |rows|
  {
    if |rows| == 0 then init
    else
      var d := Append(init, rows[..|rows| - 1], key, val);
      var k := key(rows[|rows| - 1]);
      d[k := Lookup(d, k) + [val(rows[|rows| - 1])]]
  }

  /** After the fill, a key is present when it was at the start or some row has it. */
  lemma {:induction false} AppendKeys<R, V>(init: map<string, seq<V>>, rows: seq<R>, key: R -> string, val: R -> V, k: string)
    ensures k in Append(init, rows, key, val) <==> k in init || exists i :: 0 <= i < |rows| && key(rows[i]) == k
    decreases |rows|
  {
    if |rows| > 0 {
      var pre := rows[..|rows| - 1];
      AppendKeys(init, pre, key, val, k);
      if exists i :: 0 <= i < |rows| && key(rows[i]) == k {
        var i :| 0 <= i < |rows| && key(rows[i]) == k;
        if i < |pre| {
          assert pre[i] == rows[i];
        }
      }
      if exists i :: 0 <= i < |pre| && key(pre[i]) == k {
        var i :| 0 <= i < |pre| && key(pre[i]) == k;
        assert pre[i] == rows[i];
      }
    }
  }

  /** A key's list is its starting list followed by the values of its rows, in row order. */
  lemma {:induction false} AppendLookup<R, V>(init: map<string, seq<V>>, rows: seq<R>, key: R -> string, val: R -> V, k: string)
    ensures Lookup(Append(init, rows, key, val), k) == Lookup(init, k) + MapSeq(Select(rows, key, k), val)
    decreases |rows|
  {
    if |rows| > 0 {
      var pre := rows[..|rows| - 1];
      var last := rows[|rows| - 1];
      AppendLookup(init, pre, key, val, k);
      if key(last) == k {
        assert MapSeq(Select(pre, key, k) + [last], val) == MapSeq(Select(pre, key, k), val) + [val(last)];
      }
    }
  }

  /** After the fill, a key is present when it was at the start or some row has it,
    * and its list is the starting list followed by the values of its rows, in row order. */
  lemma AppendSelect<R, V>(init: map<string, seq<V>>, rows: seq<R>, key: R -> string, val: R -> V, k: string)
    ensures k in Append(init, rows, key, val) <==> k in init || exists i :: 0 <= i < |rows| && key(rows[i]) == k
    ensures Lookup(Append(init, rows, key, val), k) == Lookup(init, k) + MapSeq(Select(rows, key, k), val)
  {
    AppendKeys(init, rows, key, val, k);
    AppendLookup(init, rows, key, val, k);
  }

  /** The loop that fills the dict of lists. */
  method AppendLoop<R, V>(init: map<string, seq<V>>, rows: seq<R>, key: R -> string, val: R -> V) returns (d: map<string, seq<V>>)
    ensures d == Append(init, rows, key, val)
  {
    d := init;
    var i := 0;
    while i < |rows|
      invariant 0 <= i <= |rows|
      invariant d == Append(init, rows[..i], key, val)
    {
      assert rows[..i + 1][..i] == rows[..i];
      var k := key(rows[i]);
      var lst := if k in d then d[k] else [];
      d := d[k := lst + [val(rows[i])]];
      i := i + 1;
    }
    assert rows[..|rows|] == rows;
  }

  /** A left fold: `v = zero; for row in rows: v = step(v, row)`. */
  function Fold<R, V>(rows: seq<R>, step: (V, R) -> V, zero: V): V
    decreases |rows|
  {
    if |rows| == 0 then zero else step(Fold(rows[..|rows| - 1], step, zero), rows[|rows| - 1])
  }

  function GetOrZero<V>(d: map<string, V>, k: string, zero: V): V {
    if k in d then d[k] else zero
  }

  /** `for row in rows: d[key(row)] = step(d.get(key(row), zero), row)`, from an empty dict. */
  function Collect<R, V>(rows: seq<R>, key: R -> string, step: (V, R) -> V, zero: V): map<string, V>
    decreases |rows|
  {
    if |rows| == 0 then map[]
    else
      var d := Collect(rows[..|rows| - 1], key, step, zero);
      var k := key(rows[|rows| - 1]);
      d[k := step(GetOrZero(d, k, zero), rows[|rows| - 1])]
  }

  /** After the grouping, a key is present exactly when some row has it, and its value
    * is the fold of its own rows, in row order. */
  lemma {:induction false} CollectSelect<R, V>(rows: seq<R>, key: R -> string, step: (V, R) -> V, zero: V, k: string)
    ensures k in Collect(rows, key, step, zero) <==> exists i :: 0 <= i < |rows| && key(rows[i]) == k
    ensures GetOrZero(Collect(rows, key, step, zero), k, zero) == Fold(Select(rows, key, k), step, zero)
    decreases |rows|
  {
    if |rows| > 0 {
      var pre := rows[..|rows| - 1];
      var last := rows[|rows| - 1];
      CollectSelect(pre, key, step, zero, k);
      var s := Select(pre, key, k);
      if key(last) == k {
        assert (s + [last])[..|s + [last]| - 1] == s;
      } else {
        assert Select(rows, key, k) == s;
      }
      if exists i :: 0 <= i < |rows| && key(rows[i]) == k {
        var i :| 0 <= i < |rows| && key(rows[i]) == k;
        if i < |pre| {
          assert pre[i] == rows[i];
        }
      }
      if exists i :: 0 <= i < |pre| && key(pre[i]) == k {
        var i :| 0 <= i < |pre| && key(pre[i]) == k;
        assert pre[i] == rows[i];
      }
    }
  }

  /** The grouping loop. */
  method CollectLoop<R, V>(rows: seq<R>, key: R -> string, step: (V, R) -> V, zero: V) returns (d: map<string, V>)
    ensures d == Collect(rows, key, step, zero)
  {
    d := map[];
    var i := 0;
    while i < |rows|
      invariant 0 <= i <= |rows|
      invariant d == Collect(rows[..i], key, step, zero)
    {
      assert rows[..i + 1][..i] == rows[..i];
      var k := key(rows[i]);
      var current := if k in d then d[k] else zero;
      d := d[k := step(current, rows[i])];
      i := i + 1;
    }
    assert rows[..|rows|] == rows;
  }

  /** One SET_JSON per row, under the row's key, with the row's payload, in row order. */
  function RowWrites<R>(rows: seq<R>, keyOf: R -> string, payload: R -> Json): (ws: seq<Event>)
    ensures |ws| == |rows|
    ensures forall i :: 0 <= i < |rows| ==> ws[i] == CacheOp(JsonSet(keyOf(rows[i]), payload(rows[i])))
  {
    seq(|rows|, i requires 0 <= i < |rows| => CacheOp(JsonSet(keyOf(rows[i]), payload(rows[i]))))
  }

  /** A batched query followed by the row writes: the query first, then row `i`'s
    * write at position `i + 1`. */
  lemma QueryThenWrites<R>(q: Event, rows: seq<R>, keyOf: R -> string, payload: R -> Json)
    ensures var evs := [q] + RowWrites(rows, keyOf, payload);
      |evs| == |rows| + 1 && evs[0] == q
      && forall i :: 0 <= i < |rows| ==> evs[i + 1] == CacheOp(JsonSet(keyOf(rows[i]), payload(rows[i])))
  {
    var ws := RowWrites(rows, keyOf, payload);
    var evs := [q] + ws;
    forall i | 0 <= i < |rows|
      ensures evs[i + 1] == CacheOp(JsonSet(keyOf(rows[i]), payload(rows[i])))
    {
      assert evs[i + 1] == ws[i];
    }
  }

  /** The write loop of a batch fill: each row's payload is stored under the row's key
    * and collected into a dict under the row's id, a later row winning. */
  method CacheRows<R>(net: Network, rows: seq<R>, keyOf: R -> string, idOf: R -> string, payload: R -> Json,
                      payloads: seq<Json>)
    returns (d: map<string, Json>)
    requires payloads == MapSeq(rows, payload)
    modifies net
    ensures d == Assign(rows, idOf, payload)
    ensures net.trace == old(net.trace) + RowWrites(rows, keyOf, payload)
    ensures net.entries == Run(old(net.entries), RowWrites(rows, keyOf, payload))
  {
    ghost var e0 := net.entries;
    ghost var t0 := net.trace;
    d := map[];
    var i := 0;
    assert RowWrites(rows[..0], keyOf, payload) == [];
    while i < |rows|
      invariant 0 <= i <= |rows|
      invariant d == Assign(rows[..i], idOf, payload)
      invariant net.trace == t0 + RowWrites(rows[..i], keyOf, payload)
      invariant net.entries == Run(e0, RowWrites(rows[..i], keyOf, payload))
    {
      assert rows[..i + 1] == rows[..i] + [rows[i]];
      var w := CacheOp(JsonSet(keyOf(rows[i]), payloads[i]));
      ghost var ws := RowWrites(rows[..i], keyOf, payload);
      RowWritesSnoc(rows[..i], rows[i], keyOf, payload);
      AssignSnoc(rows[..i], rows[i], idOf, payload);
      net.Perform(w);
      AppendAssoc(t0, ws, [w]);
      RunSnoc(e0, ws, w);
      d := d[idOf(rows[i]) := payloads[i]];
      i := i + 1;
    }
    assert rows[..i] == rows;
  }

  /** The write loop of a batch fill that returns a list: each row's payload is stored
    * under the row's key and appended to the result, in row order. */
  method CacheRowsInOrder<R>(net: Network, rows: seq<R>, keyOf: R -> string, payload: R -> Json)
    returns (ps: seq<Json>)
    modifies net
    ensures ps == MapSeq(rows, payload)
    ensures net.trace == old(net.trace) + RowWrites(rows, keyOf, payload)
    ensures net.entries == Run(old(net.entries), RowWrites(rows, keyOf, payload))
  {
    ghost var e0 := net.entries;
    ghost var t0 := net.trace;
    ps := [];
    var i := 0;
    assert RowWrites(rows[..0], keyOf, payload) == [];
    while i < |rows|
      invariant 0 <= i <= |rows|
      invariant ps == MapSeq(rows[..i], payload)
      invariant net.trace == t0 + RowWrites(rows[..i], keyOf, payload)
      invariant net.entries == Run(e0, RowWrites(rows[..i], keyOf, payload))
    {
      assert rows[..i + 1][..i] == rows[..i];
      var p := payload(rows[i]);
      var w := CacheOp(JsonSet(keyOf(rows[i]), p));
      assert RowWrites(rows[..i + 1], keyOf, payload) == RowWrites(rows[..i], keyOf, payload) + [w];
      net.Perform(w);
      RunSnoc(e0, RowWrites(rows[..i], keyOf, payload), w);
      ps := ps + [p];
      i := i + 1;
    }
    assert rows[..i] == rows;
  }

  /** `[row for row in rows if keep(row)]`. */
  function Keep<R>(rows: seq<R>, keep: R -> bool): (s: seq<R>)
    ensures |s| <= |rows| && forall i :: 0 <= i < |s| ==> keep(s[i])
    decreases |rows|
  {
    if |rows| == 0 then []
    else Keep(rows[..|rows| - 1], keep) + (if keep(rows[|rows| - 1]) then [rows[|rows| - 1]] else [])
  }

  lemma KeepSnoc<R>(rows: seq<R>, i: nat, keep: R -> bool)
    requires i < |rows|
    ensures keep(rows[i]) ==> Keep(rows[..i + 1], keep) == Keep(rows[..i], keep) + [rows[i]]
    ensures !keep(rows[i]) ==> Keep(rows[..i + 1], keep) == Keep(rows[..i], keep)
  {
    assert rows[..i + 1][..i] == rows[..i];
    assert Keep(rows[..i], keep) + [] == Keep(rows[..i], keep);
  }

  lemma RowWritesSnoc<R>(rows: seq<R>, r: R, keyOf: R -> string, payload: R -> Json)
    ensures RowWrites(rows + [r], keyOf, payload) == RowWrites(rows, keyOf, payload) + [CacheOp(JsonSet(keyOf(r), payload(r)))]
  {
    assert forall i | 0 <= i < |rows| :: (rows + [r])[i] == rows[i];
  }

  lemma AssignSnoc<R, V>(rows: seq<R>, r: R, key: R -> string, val: R -> V)
    ensures Assign(rows + [r], key, val) == Assign(rows, key, val)[key(r) := val(r)]
  {
    assert (rows + [r])[..|rows|] == rows;
  }

  /** The write loop of a batch fill that skips some rows: each kept row's payload is
    * stored under its key and collected under its id, a later row winning. */
  method CacheRowsWhere<R>(net: Network, rows: seq<R>, keep: R -> bool, keyOf: R -> string, idOf: R -> string,
                           payload: R -> Json)
    returns (d: map<string, Json>)
    modifies net
    ensures d == Assign(Keep(rows, keep), idOf, payload)
    ensures net.trace == old(net.trace) + RowWrites(Keep(rows, keep), keyOf, payload)
    ensures net.entries == Run(old(net.entries), RowWrites(Keep(rows, keep), keyOf, payload))
  {
    ghost var e0 := net.entries;
    ghost var t0 := net.trace;
    d := map[];
    var i := 0;
    assert RowWrites(Keep(rows[..0], keep), keyOf, payload) == [];
    while i < |rows|
      invariant 0 <= i <= |rows|
      invariant d == Assign(Keep(rows[..i], keep), idOf, payload)
      invariant net.trace == t0 + RowWrites(Keep(rows[..i], keep), keyOf, payload)
      invariant net.entries == Run(e0, RowWrites(Keep(rows[..i], keep), keyOf, payload))
    {
      ghost var kept := Keep(rows[..i], keep);
      KeepSnoc(rows, i, keep);
      if keep(rows[i]) {
        var w := CacheOp(JsonSet(keyOf(rows[i]), payload(rows[i])));
        ghost var ws := RowWrites(kept, keyOf, payload);
        RowWritesSnoc(kept, rows[i], keyOf, payload);
        AssignSnoc(kept, rows[i], idOf, payload);
        net.Perform(w);
        AppendAssoc(t0, ws, [w]);
        RunSnoc(e0, ws, w);
        d := d[idOf(rows[i]) := payload(rows[i])];
      }
      i := i + 1;
    }
    assert rows[..i] == rows;
  }

  /** The positions of the falsy values, in increasing order. */
  function FalsyPositions(data: seq<Json>): (ps: seq<nat>)
    ensures forall k :: 0 <= k < |ps| ==> ps[k] < |data| && !Truthy(data[ps[k]])
    ensures forall k, l :: 0 <= k < l < |ps| ==> ps[k] < ps[l]
    ensures forall i :: 0 <= i < |data| && !Truthy(data[i]) ==> i in ps
    decreases |data|
  {
    if |data| == 0 then []
    else
      var init := FalsyPositions(data[..|data| - 1]);
      if Truthy(data[|data| - 1]) then init else init + [|data| - 1]
  }

  /** `[template.format(id) for id in ids]`: one key per id, in order. */
  function IdKeys(template: KeyTemplate, ids: seq<int>): (keys: seq<string>)
    ensures |keys| == |ids| && forall i :: 0 <= i < |ids| ==> keys[i] == Key(template, IntStr(ids[i]))
  {
    seq(|ids|, i requires 0 <= i < |ids| => Key(template, IntStr(ids[i])))
  }

  /** `[ids[i] for i in range(len(data)) if not data[i]]`. */
  function MissingAt<T>(data: seq<Json>, ids: seq<T>): (r: seq<T>)
    requires |data| <= |ids|
    ensures var ps := FalsyPositions(data); |r| == |ps| && forall k :: 0 <= k < |r| ==> r[k] == ids[ps[k]]
    decreases |data|
  {
    if |data| == 0 then []
    else
      var init := MissingAt(data[..|data| - 1], ids);
      if Truthy(data[|data| - 1]) then init else init + [ids[|data| - 1]]
  }

  /** An id is reported missing exactly when some position holding it came back falsy. */
  lemma MissingAtMembers<T>(data: seq<Json>, ids: seq<T>, x: T)
    requires |data| <= |ids|
    ensures x in MissingAt(data, ids) <==> exists i :: 0 <= i < |data| && !Truthy(data[i]) && ids[i] == x
  {
    var r, ps := MissingAt(data, ids), FalsyPositions(data);
    if x in r {
      var k :| 0 <= k < |r| && r[k] == x;
      assert !Truthy(data[ps[k]]) && ids[ps[k]] == x;
    }
    if exists i :: 0 <= i < |data| && !Truthy(data[i]) && ids[i] == x {
      var i :| 0 <= i < |data| && !Truthy(data[i]) && ids[i] == x;
      var k :| 0 <= k < |ps| && ps[k] == i;
      assert r[k] == x;
    }
  }

  /** An id paired with its multi-get result. */
  datatype Cached = Cached(id: int, value: Json)

  function CachedKey(c: Cached): string {
    IntStr(c.id)
  }

  function CachedValue(c: Cached): Json {
    c.value
  }

  /** `dict(zip(map(str, ids), values))`. */
  function Zip(ids: seq<int>, vs: seq<Json>): map<string, Json>
    requires |vs| == |ids|
  {
    Assign(seq(|ids|, i requires 0 <= i < |ids| => Cached(ids[i], vs[i])), CachedKey, CachedValue)
  }

  /** With a repeated id always paired with one value, the zipped dict maps each id's
    * string to its value, and has no other key. */
  lemma ZipEntries(ids: seq<int>, vs: seq<Json>)
    requires |vs| == |ids|
    requires forall i, j :: 0 <= i < |ids| && 0 <= j < |ids| && ids[i] == ids[j] ==> vs[i] == vs[j]
    ensures forall i :: 0 <= i < |ids| ==> IntStr(ids[i]) in Zip(ids, vs) && Zip(ids, vs)[IntStr(ids[i])] == vs[i]
    ensures forall k :: k in Zip(ids, vs) ==> exists i :: 0 <= i < |ids| && IntStr(ids[i]) == k
  {
    var pairs := seq(|ids|, i requires 0 <= i < |ids| => Cached(ids[i], vs[i]));
    forall i, j | 0 <= i < |pairs| && 0 <= j < |pairs| && CachedKey(pairs[i]) == CachedKey(pairs[j])
      ensures CachedValue(pairs[i]) == CachedValue(pairs[j])
    {
      IntStrInjective(ids[i], ids[j]);
    }
    AssignConsistent(pairs, CachedKey, CachedValue);
    AssignAll(pairs, CachedKey, CachedValue);
    assert forall i :: 0 <= i < |ids| ==> CachedKey(pairs[i]) == IntStr(ids[i]) && CachedValue(pairs[i]) == vs[i];
  }

  /** The multi-get result merged with the filled misses, `zipped.update(filled)`: every
    * requested id has an entry; one that was not filled keeps its multi-get value; a
    * filled one gets its fill; nothing else appears. A repeated id must have come back
    * with one value, as it does when both positions read the same key. */
  lemma MergeEntries(ids: seq<int>, vs: seq<Json>, filled: map<string, Json>)
    requires |vs| == |ids|
    requires forall i, j :: 0 <= i < |ids| && 0 <= j < |ids| && ids[i] == ids[j] ==> vs[i] == vs[j]
    ensures var r := Zip(ids, vs) + filled;
      (forall i :: 0 <= i < |ids| ==> IntStr(ids[i]) in r)
      && (forall i :: 0 <= i < |ids| && IntStr(ids[i]) !in filled ==> r[IntStr(ids[i])] == vs[i])
      && (forall k :: k in filled ==> k in r && r[k] == filled[k])
      && (forall k :: k in r ==> k in filled || exists i :: 0 <= i < |ids| && IntStr(ids[i]) == k)
  {
    ZipEntries(ids, vs);
  }

  /** `[f(row) for row in rows]` where `f` may raise: the results in row order, or the
    * exception of the first row that raises. */
  function MapResults<R, V>(rows: seq<R>, f: R -> Result<V>): Result<seq<V>>
    decreases |rows|
  {
    if |rows| == 0 then Ok([])
    else
      match MapResults(rows[..|rows| - 1], f)
      case Failure(err) => Failure(err)
      case Ok(vs) =>
        match f(rows[|rows| - 1])
        case Failure(err) => Failure(err)
        case Ok(v) => Ok(vs + [v])
  }

  /** One more row that does not raise extends the results so far by its result. */
  lemma MapResultsSnoc<R, V>(rows: seq<R>, i: nat, f: R -> Result<V>, vs: seq<V>)
    requires i < |rows| && MapResults(rows[..i], f) == Ok(vs) && f(rows[i]).Ok?
    ensures MapResults(rows[..i + 1], f) == Ok(vs + [f(rows[i]).value])
  {
    assert rows[..i + 1][..i] == rows[..i];
  }

  /** One more row that raises ends the results with its exception. */
  lemma MapResultsSnocFails<R, V>(rows: seq<R>, i: nat, f: R -> Result<V>, vs: seq<V>)
    requires i < |rows| && MapResults(rows[..i], f) == Ok(vs) && f(rows[i]).Failure?
    ensures MapResults(rows[..i + 1], f) == Failure(f(rows[i]).error)
  {
    assert rows[..i + 1][..i] == rows[..i];
  }

  /** One step of a loop over the rows: a result that raises ends all of them with its
    * exception, a value extends the prefix's values. */
  lemma MapResultsStep<R, V>(rows: seq<R>, i: nat, f: R -> Result<V>, vs: seq<V>, r: Result<V>)
    requires i < |rows| && MapResults(rows[..i], f) == Ok(vs) && r == f(rows[i])
    ensures r.Failure? ==> MapResults(rows, f) == Failure(r.error)
    ensures r.Ok? ==> MapResults(rows[..i + 1], f) == Ok(vs + [r.value])
  {
    if r.Failure? {
      MapResultsSnocFails(rows, i, f, vs);
      MapResultsPrefix(rows, i + 1, f);
    } else {
      MapResultsSnoc(rows, i, f, vs);
    }
  }

  /** The rows give results exactly when every row does, and then row `i`'s result is
    * at position `i`. */
  lemma {:induction false} MapResultsOk<R, V>(rows: seq<R>, f: R -> Result<V>)
    ensures var r := MapResults(rows, f);
      (r.Ok? <==> forall i :: 0 <= i < |rows| ==> f(rows[i]).Ok?)
      && (r.Ok? ==> (|r.value| == |rows| && forall i :: 0 <= i < |rows| ==> r.value[i] == f(rows[i]).value))
    decreases |rows|
  {
    if |rows| > 0 {
      var n := |rows| - 1;
      var init := rows[..n];
      MapResultsOk(init, f);
      assert forall i :: 0 <= i < n ==> init[i] == rows[i];
      if MapResults(init, f).Failure? {
        var i :| 0 <= i < n && !f(init[i]).Ok?;
        assert !f(rows[i]).Ok?;
      }
    }
  }

  /** Rows that raise do so with the exception of the first row that raises. */
  lemma {:induction false} MapResultsFirstFailure<R, V>(rows: seq<R>, f: R -> Result<V>)
    requires MapResults(rows, f).Failure?
    ensures exists i :: (0 <= i < |rows| && f(rows[i]) == Failure(MapResults(rows, f).error)
      && forall j :: 0 <= j < i ==> f(rows[j]).Ok?)
    decreases |rows|
  {
    var n := |rows| - 1;
    var init := rows[..n];
    assert forall i :: 0 <= i < n ==> init[i] == rows[i];
    var err := MapResults(rows, f).error;
    if MapResults(init, f).Failure? {
      MapResultsFirstFailure(init, f);
      var i :| 0 <= i < n && f(init[i]) == Failure(err) && forall j :: 0 <= j < i ==> f(init[j]).Ok?;
      assert f(rows[i]) == Failure(err);
    } else {
      MapResultsOk(init, f);
      assert f(rows[n]) == Failure(err);
    }
  }

  /** A prefix that raises makes all the rows raise with the same exception. */
  lemma {:induction false} MapResultsPrefix<R, V>(rows: seq<R>, n: nat, f: R -> Result<V>)
    requires n <= |rows| && MapResults(rows[..n], f).Failure?
    ensures MapResults(rows, f) == MapResults(rows[..n], f)
    decreases |rows|
  {
    if n < |rows| {
      assert rows[..n] == rows[..|rows| - 1][..n];
      MapResultsPrefix(rows[..|rows| - 1], n, f);
    } else {
      assert rows[..n] == rows;
    }
  }
}
