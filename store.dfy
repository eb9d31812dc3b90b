/**
  * The `observation` table behind a SQLAlchemy session: rows keyed by their
  * primary key, in insertion order (the order `Observation.query.all()`
  * returns them). A commit is all-or-nothing.
  */
module Store {
  import opened Json
  import opened Calendar
  import opened Models

  predicate Distinct<T(==)>(s: seq<T>)
  {
    forall i, j | 0 <= i < j < |s| :: s[i] != s[j]
  }

  /** `s` with every occurrence of `id` removed, the rest in order. */
  function Erase<T(==,!new)>(s: seq<T>, id: T): (r: seq<T>)
    ensures forall x :: x in r <==> x in s && x != id
    ensures Distinct(s) ==> Distinct(r)
    ensures |r| <= |s|
  {
    if s == [] then []
    else
      var rest := Erase(s[1..], id);
      assert forall x :: x in s[1..] ==> x in s;
      assert Distinct(s) ==> Distinct(s[1..]) && s[0] !in s[1..];
      if s[0] == id then rest else [s[0]] + rest
  }

  /** The rows under `ids`, in the order of `ids`. */
  function RowsOf(rows: map<string, Observation>, ids: seq<string>): (rs: seq<Observation>)
    requires forall i | 0 <= i < |ids| :: ids[i] in rows
    ensures |rs| == |ids|
    ensures forall i | 0 <= i < |ids| :: rs[i] == rows[ids[i]]
  {
    if ids == [] then [] else [rows[ids[0]]] + RowsOf(rows, ids[1..])
  }

  /** What every stored row satisfies: keyed by its id, past the NOT NULL checks, never soft-deleted. */
  predicate Live(id: string, o: Observation)
  {
    o.id == id && Storable(o.fields) && o.updated.Some? && o.deleted == None
  }

  class ObservationStore {
    var rows: map<string, Observation>
    var order: seq<string>

    ghost predicate Valid()
      reads this
    {
      && Distinct(order)
      && (forall id :: id in rows <==> id in order)
      && (forall id | id in rows :: Live(id, rows[id]))
    }

    constructor ()
      ensures Valid() && rows == map[] && order == []
    {
      rows := map[];
      order := [];
    }

    /** `Observation.query.all()`. */
    function Rows(): (rs: seq<Observation>)
      reads this
      requires Valid()
      ensures |rs| == |order| && forall i | 0 <= i < |order| :: rs[i] == rows[order[i]]
    {
      RowsOf(rows, order)
    }

    /** `Observation.query.get(id)`. */
    function Find(id: string): (r: Option<Observation>)
      reads this
      ensures r.Some? <==> id in rows
      ensures r.Some? ==> r.value == rows[id]
    {
      if id in rows then Some(rows[id]) else None
    }

    /**
      * `db.session.add(row); db.session.commit()` for a new row (app.py's
      * `Observation.create`): the id is the uuid drawn for it, `created` and
      * `updated` the two clock readings their defaults take. The commit
      * fails, storing nothing, on a NOT NULL column left null, a value that
      * cannot be bound (`Storable`), or a taken id.
      */
    method Add(id: string, f: Fields, created: Timestamp, updated: Timestamp) returns (ok: bool)
      requires Valid()
      modifies this
      ensures Valid()
      ensures ok <==> Storable(f) && id !in old(rows)
      ensures ok ==> rows == old(rows)[id := NewRow(id, f, created, updated)] && order == old(order) + [id]
      ensures !ok ==> rows == old(rows) && order == old(order)
    {
      ok := Storable(f) && id !in rows;
      if ok {
        rows := rows[id := NewRow(id, f, created, updated)];
        order := order + [id];
      }
    }

    /** `db.session.commit()` after assigning columns of a stored row. */
    method Replace(o: Observation) returns (ok: bool)
      requires Valid() && o.id in rows && o.updated.Some? && o.deleted == None
      modifies this
      ensures Valid()
      ensures ok <==> Storable(o.fields)
      ensures ok ==> rows == old(rows)[o.id := o]
      ensures !ok ==> rows == old(rows)
      ensures order == old(order)
    {
      ok := Storable(o.fields);
      if ok {
        rows := rows[o.id := o];
      }
    }

    /** `db.session.delete(row); db.session.commit()`: the row is erased, not marked. */
    method Remove(id: string)
      requires Valid() && id in rows
      modifies this
      ensures Valid()
      ensures rows == old(rows) - {id} && order == Erase(old(order), id)
    {
      rows := rows - {id};
      order := Erase(order, id);
    }
  }

  /** Stored ids are pairwise distinct, and a row's id is the key it is stored under. */
  lemma StoredIdsDistinct(store: ObservationStore)
    requires store.Valid()
    ensures forall i, j | 0 <= i < j < |store.order| :: store.Rows()[i].id != store.Rows()[j].id
    ensures forall id | id in store.rows :: store.rows[id].id == id
  {
    var rs := store.Rows();
    forall i, j | 0 <= i < j < |store.order|
      ensures rs[i].id != rs[j].id
    {
      assert Live(store.order[i], rs[i]) && Live(store.order[j], rs[j]);
    }
  }
}
