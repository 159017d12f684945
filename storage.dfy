/** The in-memory result store (storage/storage.go): a map from task ID to
    the latest result record. The read/write lock is left out. */
module Storage {
  import opened Wrappers
  import opened Model

  /** One call of `Set`: the key and the record written. */
  type Write = (string, TaskResult)

  /** The store a sequence of writes leaves behind when applied in order to
      an empty store: every key holds the last record written for it. */
  function Replay(writes: seq<Write>): map<string, TaskResult>
  {
    if writes == [] then map[]
    else
      var last := writes[|writes| - 1];
      Replay(writes[..|writes| - 1])[last.0 := last.1]
  }

  /** A key is in the replayed store exactly when some write used it, and it
      then holds the record of the last such write. */
  lemma {:induction false} ReplayHoldsLastWrite(writes: seq<Write>, id: string)
    ensures id in Replay(writes) <==> exists i :: 0 <= i < |writes| && writes[i].0 == id
    ensures id in Replay(writes) ==>
      exists i :: 0 <= i < |writes| && writes[i].0 == id && Replay(writes)[id] == writes[i].1 &&
        forall j :: i < j < |writes| ==> writes[j].0 != id
  {
    if writes != [] {
      var n := |writes| - 1;
      var prefix := writes[..n];
      ReplayHoldsLastWrite(prefix, id);
      if writes[n].0 == id {
        assert Replay(writes)[id] == writes[n].1;
      } else {
        assert id in Replay(writes) <==> id in Replay(prefix);
        assert id in Replay(writes) ==> Replay(writes)[id] == Replay(prefix)[id];
        if id in Replay(writes) {
          var i :| 0 <= i < |prefix| && prefix[i].0 == id && Replay(prefix)[id] == prefix[i].1 &&
            forall j :: i < j < |prefix| ==> prefix[j].0 != id;
          assert writes[i] == prefix[i];
          assert forall j :: i < j < |writes| ==> writes[j].0 != id by {
            forall j | i < j < |writes| ensures writes[j].0 != id {
              if j < n { assert writes[j] == prefix[j]; }
            }
          }
        }
        if exists i :: 0 <= i < |writes| && writes[i].0 == id {
          var i :| 0 <= i < |writes| && writes[i].0 == id;
          assert i < n && prefix[i] == writes[i];
        }
      }
    }
  }

  class InMemoryStorage {
    /** The stored records. */
    var results: map<string, TaskResult>
    /** Every `Set` call so far, in order; kept for the proofs only. */
    ghost var writes: seq<Write>

    /** The stored records are what the writes so far leave behind. */
    ghost predicate Valid()
      reads this
    {
      results == Replay(writes)
    }

    /** `NewInMemoryStorage`: an empty store, so every lookup misses. */
    constructor ()
      ensures Valid()
      ensures results == map[] && writes == []
    {
      results := map[];
      writes := [];
    }

    /** Inserts or overwrites the record for `taskId`; every other key keeps
        its record. The in-memory store never fails. */
    method Set(taskId: string, result: TaskResult) returns (err: Option<string>)
      requires Valid()
      modifies this
      ensures Valid()
      ensures results == old(results)[taskId := result]
      ensures writes == old(writes) + [(taskId, result)]
      ensures err == None
    {
      results := results[taskId := result];
      writes := writes + [(taskId, result)];
      assert writes[..|writes| - 1] == old(writes);
      err := None;
    }

    /** Looks up the record for `taskId` without changing the store. */
    method Get(taskId: string) returns (found: Option<TaskResult>)
      ensures found.Some? <==> taskId in results
      ensures found.Some? ==> found.value == results[taskId]
    {
      if taskId in results {
        found := Some(results[taskId]);
      } else {
        found := None;
      }
    }
  }
}
