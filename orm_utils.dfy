/** `filter_orm_insert_result` of `app/common/utils.py`: the dictionary an ORM insert
  * gives back, with the ORM's own bookkeeping entry deleted in place. */
module OrmUtils {
  import opened Json

  /** The key SQLAlchemy adds to an instance's `__dict__`. */
  const InstanceState := "_sa_instance_state"

  /** A dictionary the caller holds and the filter changes in place. */
  class Payload {
    var entries: map<string, Json>

    constructor (entries: map<string, Json>)
      ensures this.entries == entries
    {
      this.entries := entries;
    }
  }

  /** The entries without the instance state. */
  function Filtered(m: map<string, Json>): (r: map<string, Json>)
    ensures InstanceState !in r
    ensures forall k | k in m && k != InstanceState :: k in r && r[k] == m[k]
    ensures forall k | k in r :: k in m
  {
    m - {InstanceState}
  }

  /** A dictionary without the instance state comes back unchanged. */
  lemma FilteredAbsent(m: map<string, Json>)
    requires InstanceState !in m
    ensures Filtered(m) == m
  {
  }

  /** Filtering twice is filtering once. */
  lemma FilteredIdempotent(m: map<string, Json>)
    ensures Filtered(Filtered(m)) == Filtered(m)
  {
    FilteredAbsent(Filtered(m));
  }

  /** Exactly one entry goes when the instance state is there, none otherwise. */
  lemma FilteredSize(m: map<string, Json>)
    ensures |Filtered(m)| == if InstanceState in m then |m| - 1 else |m|
  {
    if InstanceState in m {
      assert m.Keys == Filtered(m).Keys + {InstanceState};
    } else {
      FilteredAbsent(m);
    }
  }

  /** filter_orm_insert_result: deletes the instance state from the dictionary it is
    * given and returns that same dictionary. */
  method FilterOrmInsertResult(payload: Payload) returns (r: Payload)
    modifies payload
    ensures r == payload
    ensures payload.entries == Filtered(old(payload.entries))
  {
    if InstanceState in payload.entries {
      payload.entries := payload.entries - {InstanceState};
    }
    FilteredAbsent(payload.entries);
    return payload;
  }
}
