/**
  * observations/get.py: list and fetch rows through `ObservationSchema`, and a
  * create handler that checks three fields for truthiness before handing the
  * raw values to `Observation.create`.
  */
module GetApi {
  import opened Json
  import opened Calendar
  import opened Models
  import opened Store
  import opened Schema

  /**
    * GET /api/observations as written: the declared dump raises on the first
    * row whose id is not an integer literal, and nothing catches it, so Flask
    * answers 500.
    */
  function GetObservationsAsWritten(store: ObservationStore): (resp: Response)
    reads store
    requires store.Valid()
    ensures resp.status == 200 || resp == InternalError
    ensures resp.status == 200 <==> forall i | 0 <= i < |store.order| :: DumpAsWritten(store.rows[store.order[i]]).Some?
    ensures resp.status == 200 ==> resp.body.Arr? && |resp.body.items| == |store.order|
    ensures resp.status == 200 ==> forall i | 0 <= i < |store.order| ::
      resp.body.items[i] == DumpAsWritten(store.rows[store.order[i]]).value
  {
    match DumpEachAsWritten(store.Rows())
    case None => InternalError
    case Some(items) => Response(200, Arr(items))
  }

  /** Once a row with a `uuid4()` id is stored, as every create stores one, the list as written answers 500. */
  lemma ListingUuidRowFails(store: ObservationStore, id: string)
    requires store.Valid() && id in store.rows && UuidText(id)
    ensures GetObservationsAsWritten(store) == InternalError
  {
    var i :| 0 <= i < |store.order| && store.order[i] == id;
    assert Live(id, store.rows[id]);
    UuidListsDoNotDump(store.Rows(), i);
  }

  /** GET /api/observations/<id> as written: 404 for an unknown id, otherwise the declared dump, which raises (500) unless the id is an integer literal. */
  function GetObservationAsWritten(store: ObservationStore, id: string): (resp: Response)
    reads store
    ensures resp.status == 404 <==> id !in store.rows
    ensures resp.status == 404 ==> resp.body == Error("Observation not found")
    ensures resp.status != 404 ==> resp.status == 200 || resp == InternalError
    ensures resp.status == 200 <==> id in store.rows && DumpAsWritten(store.rows[id]).Some?
  {
    match store.Find(id)
    case None => Response(404, Error("Observation not found"))
    case Some(o) =>
      match DumpAsWritten(o)
      case None => InternalError
      case Some(v) => Response(200, v)
  }

  /** Fetching a stored row whose id is a `uuid4()` text, as every created row's is, answers 500 as written. */
  lemma FetchingUuidRowFails(store: ObservationStore, id: string)
    requires store.Valid() && id in store.rows && UuidText(id)
    ensures GetObservationAsWritten(store, id) == InternalError
  {
    assert Live(id, store.rows[id]);
    UuidRowsDoNotDump(store.rows[id]);
  }

  /** GET /api/observations with the id dumped as text: every row dumped, none filtered out. */
  function GetObservations(store: ObservationStore): (resp: Response)
    reads store
    requires store.Valid()
    ensures resp.status == 200 && resp.body.Arr?
    ensures |resp.body.items| == |store.order|
    ensures forall i | 0 <= i < |store.order| :: resp.body.items[i] == Dump(store.rows[store.order[i]])
  {
    Response(200, Arr(DumpEach(store.Rows())))
  }

  /** GET /api/observations/<id> with the id dumped as text: 404 when no row has that id, else the dumped row. */
  function GetObservation(store: ObservationStore, id: string): (resp: Response)
    reads store
    ensures resp.status == 404 <==> id !in store.rows
    ensures resp.status == 404 ==> resp.body == Error("Observation not found")
    ensures resp.status != 404 ==> resp.status == 200 && resp.body == Dump(store.rows[id])
  {
    match store.Find(id)
    case None => Response(404, Error("Observation not found"))
    case Some(o) => Response(200, Dump(o))
  }

  /**
    * `if not date or not time or not coordinates`: the three values must be
    * truthy, so a missing key, null and the empty string are all refused.
    * `time_zone_offset` is not looked at.
    */
  predicate PassesGuard(body: Body)
  {
    Truthy(Get(body, "date")) && Truthy(Get(body, "time")) && Truthy(Get(body, "coordinates"))
  }

  /**
    * POST /api/observations as written: past the guard, `Observation.create`
    * is looked up on models.py's class, which defines no such method; the
    * `AttributeError` is caught and answered with 400. Nothing is stored.
    */
  function CreateObservationAsWritten(body: Body): (resp: Response)
    ensures resp.status == 400
    ensures resp.body == (if PassesGuard(body) then Error("Failed to create observation: ")
                          else Error("Missing required fields"))
  {
    if !PassesGuard(body) then Response(400, Error("Missing required fields"))
    else Response(400, Error("Failed to create observation: "))
  }

  /** No body gets past the handler as written: even a complete, valid one is refused. */
  lemma CreateAsWrittenNeverStores(date: string, time: string, offset: string, coordinates: string)
    requires ParseDate(date).Some? && ParseTime(time).Some? && coordinates != ""
    ensures var body := map["date" := Str(date), "time" := Str(time),
                             "time_zone_offset" := Str(offset), "coordinates" := Str(coordinates)];
      && PassesGuard(body)
      && CreateObservationAsWritten(body) == Response(400, Error("Failed to create observation: "))
  {
    var body := map["date" := Str(date), "time" := Str(time),
                    "time_zone_offset" := Str(offset), "coordinates" := Str(coordinates)];
    assert Get(body, "date") == Str(date) && Get(body, "time") == Str(time);
    assert Get(body, "coordinates") == Str(coordinates);
  }

  /**
    * POST /api/observations as evidently intended, with two defects mended:
    * the insert and commit that the missing `Observation.create` stands for,
    * and the parsing of `date` and `time` with `strptime`, which this handler
    * leaves undone (raw text in a `Date` column fails the commit). The same
    * guard comes first; any failure is answered with 400, success with 201
    * and the dumped row.
    */
  method CreateObservation(store: ObservationStore, body: Body, freshId: string, created: Timestamp, updated: Timestamp)
    returns (resp: Response)
    requires store.Valid()
    modifies store
    ensures store.Valid()
    ensures resp.status == 201 || resp.status == 400
    ensures !PassesGuard(body) ==> resp == Response(400, Error("Missing required fields"))
    ensures resp.status == 201 <==>
      PassesGuard(body) && FromBody(body).Some? && Storable(FromBody(body).value) && freshId !in old(store.rows)
    ensures resp.status == 201 ==>
      var row := NewRow(freshId, FromBody(body).value, created, updated);
      && store.rows == old(store.rows)[freshId := row]
      && store.order == old(store.order) + [freshId]
      && resp.body == Obj(map["message" := Str("Observation created successfully"), "data" := Dump(row)])
    ensures PassesGuard(body) && resp.status == 400 ==> resp.body == Error("Failed to create observation: ")
    ensures resp.status == 400 ==> store.rows == old(store.rows) && store.order == old(store.order)
  {
    var date := Get(body, "date");
    var time := Get(body, "time");
    var coordinates := Get(body, "coordinates");
    if !Truthy(date) || !Truthy(time) || !Truthy(coordinates) {
      return Response(400, Error("Missing required fields"));
    }
    var f := FromBody(body);
    if f.None? {
      return Response(400, Error("Failed to create observation: "));
    }
    var ok := store.Add(freshId, f.value, created, updated);
    if !ok {
      return Response(400, Error("Failed to create observation: "));
    }
    resp := Response(201, Obj(map["message" := Str("Observation created successfully"),
                                  "data" := Dump(NewRow(freshId, f.value, created, updated))]));
  }

  /**
    * The guard ignores `time_zone_offset`: a body without it fares the same at
    * the guard, and is then refused by the NOT NULL column at commit.
    */
  lemma TimeZoneOffsetUnchecked(body: Body)
    ensures PassesGuard(body) == PassesGuard(body - {"time_zone_offset"})
    ensures "time_zone_offset" !in body && FromBody(body).Some? ==> !Storable(FromBody(body).value)
  {
    var b := body - {"time_zone_offset"};
    assert Get(b, "date") == Get(body, "date");
    assert Get(b, "time") == Get(body, "time");
    assert Get(b, "coordinates") == Get(body, "coordinates");
  }
}
