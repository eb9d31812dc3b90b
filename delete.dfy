/**
  * observations/delete.py: look the row up, abort with 404 when there is
  * none, otherwise erase it for good.
  */
module DeleteApi {
  import opened Json
  import opened Models
  import opened Store

  /**
    * DELETE /observations/<id>: `abort(404)` for an unknown id; otherwise the
    * row is erased (its `deleted` column is never set) and every other row
    * stays as it was.
    */
  method DeleteObservation(store: ObservationStore, id: string) returns (resp: Response)
    requires store.Valid()
    modifies store
    ensures store.Valid()
    ensures id !in store.rows
    ensures id !in old(store.rows) ==>
      && resp == Abort404("Observation not found")
      && store.rows == old(store.rows) && store.order == old(store.order)
    ensures id in old(store.rows) ==>
      && resp == Response(200, Message("Observation " + id + " deleted successfully"))
      && store.rows == old(store.rows) - {id}
      && store.order == Erase(old(store.order), id)
      && |store.order| == |old(store.order)| - 1
  {
    var observation := store.Find(id);
    if observation.None? {
      return Abort404("Observation not found");
    }
    ghost var before := store.order;
    store.Remove(id);
    ErasedOnce(before, id);
    resp := Response(200, Message("Observation " + id + " deleted successfully"));
  }

  /** Erasing an id that occurs once in a list of distinct ids shortens the list by exactly one. */
  lemma {:induction false} ErasedOnce(s: seq<string>, id: string)
    requires Distinct(s) && id in s
    ensures |Erase(s, id)| == |s| - 1
  {
    if s[0] == id {
      assert id !in s[1..];
      ErasedNothing(s[1..], id);
    } else {
      assert Distinct(s[1..]);
      ErasedOnce(s[1..], id);
    }
  }

  lemma {:induction false} ErasedNothing(s: seq<string>, id: string)
    requires id !in s
    ensures Erase(s, id) == s
  {
    if s != [] {
      assert s[0] != id;
      ErasedNothing(s[1..], id);
    }
  }

  /** Deleting the same id twice answers 200, then 404: delete is not idempotent. */
  method DeleteTwice(store: ObservationStore, id: string) returns (first: Response, second: Response)
    requires store.Valid() && id in store.rows
    modifies store
    ensures first.status == 200 && second == Abort404("Observation not found")
    ensures store.rows == old(store.rows) - {id}
  {
    first := DeleteObservation(store, id);
    second := DeleteObservation(store, id);
  }
}
