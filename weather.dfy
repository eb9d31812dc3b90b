/**
  * myproject/app.py: a second, independent store of weather readings. Rows
  * have an integer primary key that SQLite assigns, and thirteen nullable
  * columns holding whatever the request supplied: no parsing, no
  * validation, no schema.
  */
module Weather {
  import opened Json
  import opened Store

  /** The thirteen columns besides the key; `add_data` reads the request keys of the same names. */
  const Columns: set<string> := {
    "date", "time", "timezone_offset", "latitude", "longitude",
    "water_temperature", "ambient_air_temperature", "humidity", "wind_speed",
    "wind_direction", "precipitation", "haze", "becquerel"
  }

  /** The three columns declared `db.String`; the other ten are `db.Float`. */
  const StringColumns: set<string> := {"date", "time", "timezone_offset"}

  /**
    * A `weather_data` row: its integer primary key and the value of each
    * column as supplied. A `Float` column stores `float()` of it, which the
    * model does not compute; it records only whether that conversion raises.
    */
  datatype WeatherData = WeatherData(id: int, columns: map<string, Value>)

  /** The row has exactly the table's columns. */
  predicate WellFormed(w: WeatherData)
  {
    w.columns.Keys == Columns
  }

  /** A row of the table: the schema gives it exactly the thirteen columns. */
  type Record = w: WeatherData | WellFormed(w) witness WeatherData(1, map k | k in Columns :: Null)

  /**
    * The commit can bind every column: sqlite3 binds the value of a `String`
    * column, and `float()` must accept that of a `Float` column first.
    */
  predicate Storable(w: WeatherData)
  {
    forall k | k in w.columns :: if k in StringColumns then Bindable(w.columns[k]) else FloatBindable(w.columns[k])
  }

  /** A word in a `Float` column, `"north"` for the latitude say, makes the commit fail. */
  lemma WordInFloatColumnRefused(w: WeatherData, c: string, word: string)
    requires c in w.columns && c !in StringColumns && w.columns[c] == Str(word)
    requires word != [] && 'a' <= word[0] <= 'z' && word[0] != 'i' && word[0] != 'n'
    ensures !Storable(w)
  {
    WordIsNotFloatText(word);
  }

  lemma IdIsNotAColumn()
    ensures "id" !in Columns
  {
  }

  /**
    * The dictionary `get_data` and `get_single_data` build for a row: the id
    * and every column, each under its own name.
    */
  function Row(w: WeatherData): Value
  {
    Obj(w.columns["id" := Num(w.id as real)])
  }

  /** The row `add_data` constructs from a body that holds every column's key; other keys are not read. */
  function FromInputs(id: int, data: Body): (w: WeatherData)
    requires Columns <= data.Keys
    ensures w.id == id && WellFormed(w)
  {
    WeatherData(id, map k | k in Columns :: data[k])
  }

  /**
    * The row `update_data` leaves: `updated_data.get(column, current)` for
    * every column, the id untouched.
    */
  function Revised(w: WeatherData, data: Body): WeatherData
  {
    WeatherData(w.id, map k | k in w.columns :: GetOr(data, k, w.columns[k]))
  }

  predicate Increasing(s: seq<int>)
  {
    forall i, j | 0 <= i < j < |s| :: s[i] < s[j]
  }

  /** The last id of an increasing list is its largest. */
  lemma LastIsLargest(s: seq<int>)
    requires Increasing(s) && s != []
    ensures forall i | 0 <= i < |s| :: s[i] <= s[|s| - 1]
  {
  }

  /** Every key of a table lies at or below the last id of its increasing order. */
  lemma LastIsAbove(rows: map<int, Record>, order: seq<int>)
    requires Increasing(order) && order != []
    requires forall id :: id in rows <==> id in order
    ensures forall k | k in rows :: k <= order[|order| - 1]
  {
    LastIsLargest(order);
    assert forall k | k in rows :: exists i | 0 <= i < |order| :: order[i] == k;
  }

  /** An id above every earlier one keeps the insertion order increasing. */
  lemma AppendedIncreasing(rows: map<int, Record>, s: seq<int>, x: int)
    requires Increasing(s)
    requires forall i | 0 <= i < |s| :: s[i] in rows
    requires forall k | k in rows :: k < x
    ensures Increasing(s + [x])
  {
  }

  /** What every stored row satisfies besides its shape: keyed by its positive id, past the commit. */
  predicate Kept(id: int, w: WeatherData)
  {
    w.id == id && id >= 1 && Storable(w)
  }

  /** Storing a kept row under its own id keeps every row of the table kept. */
  lemma KeptAfterStore(rows: map<int, Record>, w: Record)
    requires forall id | id in rows :: Kept(id, rows[id])
    requires Kept(w.id, w)
    ensures var stored := rows[w.id := w]; forall id | id in stored :: Kept(id, stored[id])
  {
  }

  /** The rows under `ids`, in the order of `ids`. */
  function RowsIn(rows: map<int, WeatherData>, ids: seq<int>): (rs: seq<WeatherData>)
    requires forall i | 0 <= i < |ids| :: ids[i] in rows
    ensures |rs| == |ids|
    ensures forall i | 0 <= i < |ids| :: rs[i] == rows[ids[i]]
  {
    if ids == [] then [] else [rows[ids[0]]] + RowsIn(rows, ids[1..])
  }

  /**
    * The `weather_data` table. SQLite hands out rowids in increasing order, so
    * insertion order is id order; `query.all()` returns the rows in it.
    */
  class WeatherStore {
    var rows: map<int, Record>
    var order: seq<int>

    ghost predicate Valid()
      reads this
    {
      && Increasing(order)
      && (forall id :: id in rows <==> id in order)
      && (forall i | 0 <= i < |order| :: order[i] in rows)
      && (forall id | id in rows :: Kept(id, rows[id]))
    }

    constructor ()
      ensures Valid() && rows == map[] && order == []
    {
      rows := map[];
      order := [];
    }

    /**
      * The id SQLite gives the next inserted row (an `INTEGER PRIMARY KEY`
      * without `AUTOINCREMENT`): one more than the largest id in the table,
      * or 1 when the table is empty.
      */
    function NextId(): (id: int)
      reads this
      requires Valid()
      ensures id >= 1
      ensures forall k | k in rows :: k < id
    {
      if order == [] then 1
      else
        LastIsAbove(rows, order);
        order[|order| - 1] + 1
    }

    /** `WeatherData.query.all()`. */
    function All(): (rs: seq<WeatherData>)
      reads this
      requires Valid()
      ensures |rs| == |order| && forall i | 0 <= i < |order| :: rs[i] == rows[order[i]]
    {
      RowsIn(rows, order)
    }

    /**
      * `db.session.add(weather); db.session.commit()` with the id left to
      * SQLite. The commit fails, storing nothing, when a column holds a value
      * that cannot be bound.
      */
    method Insert(w: Record) returns (ok: bool)
      requires Valid() && w.id == NextId()
      modifies this
      ensures Valid()
      ensures ok <==> Storable(w)
      ensures ok ==> rows == old(rows)[w.id := w] && order == old(order) + [w.id]
      ensures !ok ==> rows == old(rows) && order == old(order)
    {
      ok := Storable(w);
      if ok {
        AppendedIncreasing(rows, order, w.id);
        KeptAfterStore(rows, w);
        rows := rows[w.id := w];
        order := order + [w.id];
      }
    }

    /** `db.session.commit()` after assigning the columns of a stored row. */
    method Replace(w: Record) returns (ok: bool)
      requires Valid() && w.id in rows
      modifies this
      ensures Valid()
      ensures ok <==> Storable(w)
      ensures ok ==> rows == old(rows)[w.id := w]
      ensures !ok ==> rows == old(rows)
      ensures order == old(order)
    {
      ok := Storable(w);
      if ok {
        KeptAfterStore(rows, w);
        rows := rows[w.id := w];
      }
    }

    /** `db.session.delete(weather); db.session.commit()`. */
    method Remove(id: int)
      requires Valid() && id in rows
      modifies this
      ensures Valid()
      ensures rows == old(rows) - {id} && order == Erase(old(order), id)
    {
      ErasedIncreasing(order, id);
      rows := rows - {id};
      order := Erase(order, id);
    }
  }

  /** Erasing an id from an increasing list leaves it increasing. */
  lemma {:induction false} ErasedIncreasing(s: seq<int>, id: int)
    requires Increasing(s)
    ensures Increasing(Erase(s, id))
  {
    if s != [] {
      ErasedIncreasing(s[1..], id);
      var rest := Erase(s[1..], id);
      if s[0] != id {
        forall j | 0 <= j < |rest|
          ensures s[0] < rest[j]
        {
          assert rest[j] in rest;
          var k :| 0 <= k < |s[1..]| && s[1..][k] == rest[j];
          assert s[k + 1] == rest[j];
        }
        var r := [s[0]] + rest;
        forall i, j | 0 <= i < j < |r|
          ensures r[i] < r[j]
        {
          if i > 0 {
            assert r[i] == rest[i - 1] && r[j] == rest[j - 1];
          }
        }
      }
    }
  }

  /** Flask's description for `get_or_404` on a missing row. */
  const NotFoundText: string :=
    "The requested URL was not found on the server. If you entered the URL manually please check your spelling and try again."

  /**
    * POST /data. `body` is what `request.get_json()` returns (`None` for a
    * JSON `null`). A missing or empty body is refused with `abort(400)`;
    * a missing key raises `KeyError`, and a value that cannot be bound (a
    * list, a dict, or text `float()` refuses in a `Float` column) fails the
    * commit, both uncaught (500). Otherwise one row is inserted under the
    * next id.
    */
  method AddData(store: WeatherStore, body: Option<Body>) returns (resp: Response)
    requires store.Valid()
    modifies store
    ensures store.Valid()
    ensures body.None? || body.value == map[] ==> resp == Response(400, Str("No data provided"))
    ensures body.Some? && body.value != map[] && !(Columns <= body.value.Keys) ==> resp == InternalError
    ensures resp.status == 201 <==>
      body.Some? && Columns <= body.value.Keys && Storable(FromInputs(old(store.NextId()), body.value))
    ensures resp.status == 201 ==>
      var id := old(store.NextId());
      && resp == Response(201, Message("Data added successfully"))
      && store.rows == old(store.rows)[id := FromInputs(id, body.value)]
      && store.order == old(store.order) + [id]
      && id !in old(store.rows)
    ensures resp.status != 201 ==> resp.status in {400, 500} && store.rows == old(store.rows) && store.order == old(store.order)
  {
    if body.None? || body.value == map[] {
      return Response(400, Str("No data provided"));
    }
    var newData := body.value;
    if !(Columns <= newData.Keys) {
      return InternalError;
    }
    var weather := FromInputs(store.NextId(), newData);
    var ok := store.Insert(weather);
    if !ok {
      return InternalError;
    }
    resp := Response(201, Message("Data added successfully"));
  }

  /** GET /data: every row, in id order, as its dictionary. */
  function GetData(store: WeatherStore): (resp: Response)
    reads store
    requires store.Valid()
    ensures resp.status == 200 && resp.body.Arr?
    ensures |resp.body.items| == |store.order|
    ensures forall i | 0 <= i < |store.order| :: resp.body.items[i] == Row(store.rows[store.order[i]])
    ensures forall i | 0 <= i < |store.order| :: resp.body.items[i].Obj? && resp.body.items[i].fields.Keys == Columns + {"id"}
  {
    Response(200, Arr(RowsOut(store.All())))
  }

  function RowsOut(ws: seq<WeatherData>): (vs: seq<Value>)
    ensures |vs| == |ws| && forall i | 0 <= i < |ws| :: vs[i] == Row(ws[i])
  {
    if ws == [] then [] else [Row(ws[0])] + RowsOut(ws[1..])
  }

  /** GET /data/<id>: `get_or_404`, then the row's dictionary. */
  function GetSingleData(store: WeatherStore, id: int): (resp: Response)
    reads store
    ensures id !in store.rows ==> resp == Abort404(NotFoundText)
    ensures id in store.rows ==> resp == Response(200, Row(store.rows[id]))
  {
    if id in store.rows then Response(200, Row(store.rows[id])) else Abort404(NotFoundText)
  }

  /**
    * PUT /data/<id>. `get_or_404` first; then every column takes the body's
    * value when the key is present and keeps its own otherwise. A `null` body
    * has no `get` (`AttributeError`), and a value that cannot be bound fails
    * the commit: both uncaught (500), the row left as it was.
    */
  method UpdateData(store: WeatherStore, id: int, body: Option<Body>) returns (resp: Response)
    requires store.Valid()
    modifies store
    ensures store.Valid()
    ensures store.order == old(store.order)
    ensures id !in old(store.rows) ==> resp == Abort404(NotFoundText) && store.rows == old(store.rows)
    ensures id in old(store.rows) && body.None? ==> resp == InternalError && store.rows == old(store.rows)
    ensures resp.status == 200 <==>
      id in old(store.rows) && body.Some? && Storable(Revised(old(store.rows)[id], body.value))
    ensures resp.status == 200 ==>
      && resp == Response(200, Message("Data updated successfully"))
      && store.rows == old(store.rows)[id := Revised(old(store.rows)[id], body.value)]
    ensures resp.status != 200 ==> store.rows == old(store.rows) && resp.status in {404, 500}
  {
    if id !in store.rows {
      return Abort404(NotFoundText);
    }
    var weather := store.rows[id];
    if body.None? {
      return InternalError;
    }
    var updatedData := body.value;
    var revised := Revised(weather, updatedData);
    var ok := store.Replace(revised);
    if !ok {
      return InternalError;
    }
    resp := Response(200, Message("Data updated successfully"));
  }

  /** DELETE /data/<id>: `get_or_404`, then the row is erased. */
  method DeleteData(store: WeatherStore, id: int) returns (resp: Response)
    requires store.Valid()
    modifies store
    ensures store.Valid()
    ensures id !in store.rows
    ensures id !in old(store.rows) ==>
      resp == Abort404(NotFoundText) && store.rows == old(store.rows) && store.order == old(store.order)
    ensures id in old(store.rows) ==>
      && resp == Response(200, Message("Data deleted successfully"))
      && store.rows == old(store.rows) - {id}
      && store.order == Erase(old(store.order), id)
  {
    if id !in store.rows {
      return Abort404(NotFoundText);
    }
    store.Remove(id);
    resp := Response(200, Message("Data deleted successfully"));
  }

  // ---------------------------------------------------------------------------
  // Properties

  /**
    * What a successful POST stored is what GET /data/<id> then answers: the
    * new id, and the posted value under every column's key; no other key of
    * the body is kept.
    */
  lemma AddedRowReadsBack(id: int, data: Body)
    requires Columns <= data.Keys
    ensures var v := Row(FromInputs(id, data));
      && v.fields["id"] == Num(id as real)
      && (forall k | k in Columns :: v.fields[k] == data[k])
      && (forall k | k in v.fields :: k in Columns || k == "id")
  {
    IdIsNotAColumn();
  }

  /** An update sets each column whose key the body holds, and keeps every other column. */
  lemma UpdateSetsPresent(w: WeatherData, data: Body)
    ensures forall k | k in w.columns && k in data :: Revised(w, data).columns[k] == data[k]
    ensures forall k | k in w.columns && k !in data :: Revised(w, data).columns[k] == w.columns[k]
  {
  }

  /** An update whose body names no column leaves the row as it was. */
  lemma EmptyUpdateIsIdentity(w: WeatherData)
    ensures Revised(w, map[]) == w
  {
  }

  /** Sending the same update twice is the same as sending it once. */
  lemma UpdateIdempotent(w: WeatherData, data: Body)
    ensures Revised(Revised(w, data), data) == Revised(w, data)
  {
  }

  /** Keys that name no column are ignored by an update. */
  lemma UpdateIgnoresOtherKeys(w: WeatherData, data: Body, extra: string, v: Value)
    requires extra !in w.columns
    ensures Revised(w, data[extra := v]) == Revised(w, data)
  {
  }

  /**
    * Ids are handed out in increasing order and never collide: a new row's id
    * is above every id stored, so the list stays in id order.
    */
  lemma NextIdIsFresh(store: WeatherStore)
    requires store.Valid()
    ensures store.NextId() !in store.rows
    ensures forall i | 0 <= i < |store.order| :: store.order[i] < store.NextId()
  {
    assert forall i | 0 <= i < |store.order| :: store.order[i] in store.rows;
  }

  /**
    * Once the row with the largest id is deleted, its id is handed out again:
    * SQLite reuses it, so an id read before the delete can name a different
    * row afterwards.
    */
  method DeleteLastReusesId(store: WeatherStore) returns (reused: int)
    requires store.Valid() && store.order != []
    modifies store
    ensures reused == old(store.order[|store.order| - 1])
    ensures store.Valid() && reused !in store.rows
    ensures store.NextId() <= reused
  {
    reused := store.order[|store.order| - 1];
    var resp := DeleteData(store, reused);
    LastErased(old(store.order), reused);
  }

  lemma {:induction false} LastErased(s: seq<int>, id: int)
    requires Increasing(s) && s != [] && id == s[|s| - 1]
    ensures forall x | x in Erase(s, id) :: x < id
  {
    forall x | x in Erase(s, id)
      ensures x < id
    {
      var i :| 0 <= i < |s| && s[i] == x;
      assert i != |s| - 1;
    }
  }
}
