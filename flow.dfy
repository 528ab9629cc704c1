/** The bot-builder block to feature mapping, cached under one fixed key. */
module Flow {
  import opened Json
  import opened Cache
  import opened Handler

  /** A row of the block/feature mapping query. */
  datatype MappingRow = MappingRow(blockKey: string, blockId: Json, featureKey: string, featureId: Json)

  /** A payload entry: the block's id and its features, feature key to feature id. */
  datatype Block = Block(id: Json, features: map<string, Json>)

  /** The payload the shaping loop has built after the given rows. */
  function Blocks(rows: seq<MappingRow>): map<string, Block>
    decreases |rows|
  {
    if |rows| == 0 then map[]
    else
      var m := Blocks(rows[..|rows| - 1]);
      var r := rows[|rows| - 1];
      var b := if r.blockKey in m then m[r.blockKey] else Block(r.blockId, map[]);
      m[r.blockKey := b.(features := b.features[r.featureKey := r.featureId])]
  }

  /** `GetFlowDetails.prepare_sync_payload`. */
  method PrepareSyncPayload(rows: seq<MappingRow>) returns (payload: map<string, Block>)
    ensures payload == Blocks(rows)
  {
    payload := map[];
    var i := 0;
    while i < |rows|
      invariant 0 <= i <= |rows|
      invariant payload == Blocks(rows[..i])
    {
      assert rows[..i + 1][..i] == rows[..i];
      var r := rows[i];
      if r.blockKey !in payload {
        payload := payload[r.blockKey := Block(r.blockId, map[])];
      }
      var b := payload[r.blockKey];
      payload := payload[r.blockKey := b.(features := b.features[r.featureKey := r.featureId])];
      i := i + 1;
    }
    assert rows[..|rows|] == rows;
  }

  /** One entry per block key of the rows. */
  lemma {:induction false} BlocksDomain(rows: seq<MappingRow>, k: string)
    ensures k in Blocks(rows) <==> exists i :: 0 <= i < |rows| && rows[i].blockKey == k
    decreases |rows|
  {
    if |rows| > 0 {
      var init := rows[..|rows| - 1];
      BlocksDomain(init, k);
      if exists i :: 0 <= i < |init| && init[i].blockKey == k {
        var i :| 0 <= i < |init| && init[i].blockKey == k;
        assert rows[i].blockKey == k;
      }
      if exists i :: 0 <= i < |rows| && rows[i].blockKey == k {
        var i :| 0 <= i < |rows| && rows[i].blockKey == k;
        if i < |init| {
          assert init[i].blockKey == k;
        }
      }
    }
  }

  /** A block keeps the id of the first row that named it. */
  lemma {:induction false} BlocksFirstId(rows: seq<MappingRow>, i: int)
    requires 0 <= i < |rows|
    requires forall j :: 0 <= j < i ==> rows[j].blockKey != rows[i].blockKey
    ensures rows[i].blockKey in Blocks(rows)
    ensures Blocks(rows)[rows[i].blockKey].id == rows[i].blockId
    decreases |rows|
  {
    var k := rows[i].blockKey;
    var init := rows[..|rows| - 1];
    if i == |rows| - 1 {
      BlocksDomain(init, k);
      assert forall j :: 0 <= j < |init| ==> init[j].blockKey != k by {
        forall j | 0 <= j < |init| ensures init[j].blockKey != k {
          assert init[j] == rows[j];
        }
      }
    } else {
      BlocksFirstId(init, i);
    }
  }

  /** A block's features are exactly the feature keys of its rows. */
  lemma {:induction false} BlocksFeatureDomain(rows: seq<MappingRow>, k: string, f: string)
    requires k in Blocks(rows)
    ensures f in Blocks(rows)[k].features <==>
      exists i :: 0 <= i < |rows| && rows[i].blockKey == k && rows[i].featureKey == f
    decreases |rows|
  {
    var init := rows[..|rows| - 1];
    var r := rows[|rows| - 1];
    if k in Blocks(init) {
      BlocksFeatureDomain(init, k, f);
      if exists i :: 0 <= i < |init| && init[i].blockKey == k && init[i].featureKey == f {
        var i :| 0 <= i < |init| && init[i].blockKey == k && init[i].featureKey == f;
        assert rows[i] == init[i];
      }
      if exists i :: 0 <= i < |rows| && rows[i].blockKey == k && rows[i].featureKey == f {
        var i :| 0 <= i < |rows| && rows[i].blockKey == k && rows[i].featureKey == f;
        if i < |init| {
          assert init[i] == rows[i];
        }
      }
    } else {
      BlocksDomain(init, k);
      assert forall j :: 0 <= j < |init| ==> rows[j].blockKey != k by {
        forall j | 0 <= j < |init| ensures rows[j].blockKey != k {
          assert init[j] == rows[j];
        }
      }
    }
  }

  /** A feature entry holds the feature id of the last row with that block and feature key. */
  lemma {:induction false} BlocksFeatureLast(rows: seq<MappingRow>, i: int)
    requires 0 <= i < |rows|
    requires forall j :: i < j < |rows| ==>
      rows[j].blockKey != rows[i].blockKey || rows[j].featureKey != rows[i].featureKey
    ensures rows[i].blockKey in Blocks(rows)
    ensures rows[i].featureKey in Blocks(rows)[rows[i].blockKey].features
    ensures Blocks(rows)[rows[i].blockKey].features[rows[i].featureKey] == rows[i].featureId
    decreases |rows|
  {
    var init := rows[..|rows| - 1];
    BlocksDomain(rows, rows[i].blockKey);
    if i < |rows| - 1 {
      BlocksFeatureLast(init, i);
    }
  }

  function BlockJson(b: Block): Json {
    JObj(map["id" := b.id, "features" := JObj(map f | f in b.features :: JObj(map["id" := b.features[f]]))])
  }

  function PayloadJson(m: map<string, Block>): Json {
    JObj(map k | k in m :: BlockJson(m[k]))
  }

  /** `GetFlowDetails` over a snapshot of the mapping rows: found when there is a row. */
  function FlowGetter(rows: seq<MappingRow>): Getter<seq<MappingRow>> {
    Getter((kw: Kwargs) => rows, (rs: seq<MappingRow>) => |rs| > 0, EmptySearch(),
           (rs: seq<MappingRow>, es: Json, kw: Kwargs) => PayloadJson(Blocks(rs)))
  }

  /** No mapping rows: the fill returns `{}` and writes nothing. */
  lemma NoRowsNotCached(key: string, kw: Kwargs)
    ensures SyncSpec(FlowGetter([]), key, kw) == Sync(Empty, [StoreQuery(kw), SearchQuery(kw)])
  {
  }

  /** `ManageFlow.get_dialog_feature_mapping`: GET_JSON on the fixed key, filled on a miss. */
  method GetDialogFeatureMapping(net: Network, rows: seq<MappingRow>, key: string) returns (r: Json)
    modifies net
    ensures r == ReadThroughSpec(old(net.entries), JsonRead, key, FlowGetter(rows), map[]).result
    ensures net.trace == old(net.trace) + ReadThroughSpec(old(net.entries), JsonRead, key, FlowGetter(rows), map[]).events
    ensures net.entries == Run(old(net.entries), ReadThroughSpec(old(net.entries), JsonRead, key, FlowGetter(rows), map[]).events)
  {
    r := ReadThrough(net, JsonRead, key, FlowGetter(rows), map[]);
  }
}
