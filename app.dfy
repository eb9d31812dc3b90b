/**
  * The handlers of app.py: create, list, get, update and delete observations
  * over the store. Each one returns the status and JSON body app.py returns.
  */
module App {
  import opened Json
  import opened Calendar
  import opened Models
  import opened Store

  /**
    * POST /observations: read the thirteen columns with `data.get`, parse
    * `date` and `time`, then `Observation.create`. Any exception (a date or
    * time that does not parse, a failing commit) is reported as 400.
    */
  method CreateObservation(store: ObservationStore, body: Body, freshId: string, created: Timestamp, updated: Timestamp)
    returns (resp: Response)
    requires store.Valid()
    modifies store
    ensures store.Valid()
    ensures resp.status == 201 || resp.status == 400
    ensures resp.status == 201 <==>
      FromBody(body).Some? && Storable(FromBody(body).value) && freshId !in old(store.rows)
    ensures resp.status == 201 ==>
      && store.rows == old(store.rows)[freshId := NewRow(freshId, FromBody(body).value, created, updated)]
      && store.order == old(store.order) + [freshId]
      && resp.body == Obj(map["message" := Str("Observation created successfully"), "data" := Str(freshId)])
    ensures resp.status == 400 ==> store.rows == old(store.rows) && store.order == old(store.order)
  {
    var date := Get(body, "date");
    var time := Get(body, "time");
    var timeZoneOffset := Get(body, "time_zone_offset");
    var coordinates := Get(body, "coordinates");
    var temperatureWater := Get(body, "temperature_water");
    var temperatureAir := Get(body, "temperature_air");
    var humidity := Get(body, "humidity");
    var windSpeed := Get(body, "wind_speed");
    var windDirection := Get(body, "wind_direction");
    var precipitation := Get(body, "precipitation");
    var haze := Get(body, "haze");
    var becquerel := Get(body, "becquerel");
    var notes := Get(body, "notes");

    var d := ParseDateValue(date);
    if d.None? {
      return Response(400, Error("Failed to create observation: "));
    }
    var t := ParseTimeValue(time);
    if t.None? {
      return Response(400, Error("Failed to create observation: "));
    }
    var ok := store.Add(freshId, Fields(d.value, t.value, timeZoneOffset, coordinates, temperatureWater,
      temperatureAir, humidity, windSpeed, windDirection, precipitation, haze, becquerel, notes), created, updated);
    if !ok {
      return Response(400, Error("Failed to create observation: "));
    }
    resp := Response(201, Obj(map["message" := Str("Observation created successfully"), "data" := Str(freshId)]));
  }

  /** GET /observations: every stored row, serialised, in the order `query.all()` yields them. */
  method GetObservations(store: ObservationStore) returns (resp: Response)
    requires store.Valid()
    ensures resp.status == 200 && resp.body.Arr?
    ensures |resp.body.items| == |store.order|
    ensures forall i | 0 <= i < |store.order| :: resp.body.items[i] == Serialize(store.rows[store.order[i]])
  {
    var observations := store.Rows();
    var list := SerializeEach(observations);
    resp := Response(200, Arr(list));
  }

  /** The loop of `get_observations`: one serialised object appended per row. */
  method SerializeEach(observations: seq<Observation>) returns (list: seq<Value>)
    ensures |list| == |observations|
    ensures forall k | 0 <= k < |observations| :: list[k] == Serialize(observations[k])
  {
    list := [];
    var i := 0;
    while i < |observations|
      invariant 0 <= i <= |observations|
      invariant |list| == i
      invariant forall k | 0 <= k < i :: list[k] == Serialize(observations[k])
    {
      list := list + [Serialize(observations[i])];
      i := i + 1;
    }
  }

  /** GET /observations/<id>: 404 when no row has that id, else the serialised row. */
  method GetObservation(store: ObservationStore, id: string) returns (resp: Response)
    requires store.Valid()
    ensures resp.status == 200 || resp.status == 404
    ensures resp.status == 404 <==> id !in store.rows
    ensures resp.status == 404 ==> resp.body == Error("Observation not found")
    ensures resp.status == 200 ==> resp.body == Serialize(store.rows[id])
  {
    var observation := store.Find(id);
    if observation.None? {
      return Response(404, Error("Observation not found"));
    }
    resp := Response(200, Serialize(observation.value));
  }

  /**
    * PUT /observations/<id>: 404 for an unknown id; otherwise every column
    * whose key is in the body is revised in turn and the result committed.
    * A `date` or `time` that does not parse raises before the commit, as does
    * a commit that fails; Flask answers 500 and the row is untouched.
    */
  method UpdateObservation(store: ObservationStore, id: string, body: Body, now: Timestamp)
    returns (resp: Response)
    requires store.Valid()
    modifies store
    ensures store.Valid()
    ensures store.order == old(store.order)
    ensures id !in old(store.rows) ==>
      resp == Response(404, Error("Observation not found")) && store.rows == old(store.rows)
    ensures id in old(store.rows) ==>
      var o := old(store.rows)[id];
      var r := Revise(o.fields, body);
      if r.Some? && Storable(r.value) then
        && resp == Response(200, Obj(map["message" := Str("Observation updated successfully"), "data" := Str(id)]))
        && store.rows == old(store.rows)[id := Refreshed(o, r.value, now)]
      else
        resp == InternalError && store.rows == old(store.rows)
  {
    var observation := store.Find(id);
    if observation.None? {
      return Response(404, Error("Observation not found"));
    }
    var o := observation.value;
    var revised := AssignFromBody(o.fields, body);
    if revised.None? {
      return InternalError;
    }
    var f := revised.value;
    var ok := store.Replace(Refreshed(o, f, now));
    if !ok {
      return InternalError;
    }
    resp := Response(200, Obj(map["message" := Str("Observation updated successfully"), "data" := Str(id)]));
  }

  /** One `if 'k' in data: observation.k = data['k']` step of the update handler. */
  method AssignIfPresent(current: Value, body: Body, key: string) returns (v: Value)
    ensures v == GetOr(body, key, current)
  {
    v := current;
    if key in body {
      v := body[key];
    }
  }

  /**
    * The assignments of `update_observation`, on the row's columns: each
    * column whose key is in the body takes the body's value, in turn; `None`
    * where `strptime` raises on `date` or `time`.
    */
  method AssignFromBody(current: Fields, body: Body) returns (r: Option<Fields>)
    ensures r == Revise(current, body)
  {
    var date, time := current.date, current.time;
    if "date" in body {
      var d := ParseDateValue(body["date"]);
      if d.None? {
        return None;
      }
      date := d.value;
    }
    if "time" in body {
      var t := ParseTimeValue(body["time"]);
      if t.None? {
        return None;
      }
      time := t.value;
    }
    var timeZoneOffset := AssignIfPresent(current.timeZoneOffset, body, "time_zone_offset");
    var coordinates := AssignIfPresent(current.coordinates, body, "coordinates");
    var temperatureWater := AssignIfPresent(current.temperatureWater, body, "temperature_water");
    var temperatureAir := AssignIfPresent(current.temperatureAir, body, "temperature_air");
    var humidity := AssignIfPresent(current.humidity, body, "humidity");
    var windSpeed := AssignIfPresent(current.windSpeed, body, "wind_speed");
    var windDirection := AssignIfPresent(current.windDirection, body, "wind_direction");
    var precipitation := AssignIfPresent(current.precipitation, body, "precipitation");
    var haze := AssignIfPresent(current.haze, body, "haze");
    var becquerel := AssignIfPresent(current.becquerel, body, "becquerel");
    var notes := AssignIfPresent(current.notes, body, "notes");
    ReviseColumnwise(current, body);
    r := Some(Fields(date, time, timeZoneOffset, coordinates, temperatureWater, temperatureAir,
      humidity, windSpeed, windDirection, precipitation, haze, becquerel, notes));
  }

  /** DELETE /observations/<id>: 404 for an unknown id, else the row is erased. */
  method DeleteObservation(store: ObservationStore, id: string) returns (resp: Response)
    requires store.Valid()
    modifies store
    ensures store.Valid()
    ensures id !in old(store.rows) ==>
      resp == Response(404, Error("Observation not found"))
      && store.rows == old(store.rows) && store.order == old(store.order)
    ensures id in old(store.rows) ==>
      && resp == Response(200, Message("Observation " + id + " deleted successfully"))
      && store.rows == old(store.rows) - {id}
      && store.order == Erase(old(store.order), id)
  {
    var observation := store.Find(id);
    if observation.None? {
      return Response(404, Error("Observation not found"));
    }
    store.Remove(id);
    resp := Response(200, Message("Observation " + id + " deleted successfully"));
  }

  // ---------------------------------------------------------------------------
  // Properties of the update

  /** An update never changes the id, `created` or `deleted`, and refreshes `updated` only when a column changed. */
  lemma UpdateKeepsIdentity(o: Observation, body: Body, now: Timestamp)
    requires Revise(o.fields, body).Some?
    ensures var r := Refreshed(o, Revise(o.fields, body).value, now);
      && r.id == o.id && r.created == o.created && r.deleted == o.deleted
      && (r.updated != o.updated ==> r.fields != o.fields && r.updated == Some(now))
  {
  }

  /** A body naming no column changes nothing, `updated` included. */
  lemma EmptyUpdateIsIdentity(o: Observation, body: Body, now: Timestamp)
    requires forall c | c in Writable :: c !in body
    ensures Revise(o.fields, body) == Some(o.fields)
    ensures Refreshed(o, o.fields, now) == o
  {
    assert "date" !in body && "time" !in body;
    assert "time_zone_offset" !in body && "coordinates" !in body && "notes" !in body;
    assert "temperature_water" !in body && "temperature_air" !in body && "humidity" !in body;
    assert "wind_speed" !in body && "wind_direction" !in body && "precipitation" !in body;
    assert "haze" !in body && "becquerel" !in body;
  }

  /** Applying the same body twice gives the same columns as applying it once. */
  lemma UpdateIdempotent(f: Fields, body: Body)
    requires Revise(f, body).Some?
    ensures Revise(Revise(f, body).value, body) == Revise(f, body)
  {
  }

  /** A date written by an update is read back by a later get in canonical `YYYY-MM-DD` form. */
  lemma UpdatedDateReadsBack(o: Observation, body: Body, now: Timestamp)
    requires "date" in body && Revise(o.fields, body).Some?
    ensures var r := Refreshed(o, Revise(o.fields, body).value, now);
      ParseDateValue(Serialize(r).fields["date"]) == ParseDateValue(body["date"])
  {
    var r := Refreshed(o, Revise(o.fields, body).value, now);
    SerializedDateTimeParse(r);
  }
}
