/**
  * observations/observations.py: the create handler that checks the required
  * keys one by one before parsing, and answers parse and commit failures with
  * 500 rather than 400.
  */
module ObservationsApi {
  import opened Json
  import opened Calendar
  import opened Models
  import opened Store

  /** The keys the handler demands, in the order it checks them. */
  const RequiredFields: seq<string> := ["date", "time", "time_zone_offset", "coordinates"]

  /**
    * The first of `required` that is not a key of `body`, if any. Only the key
    * is looked at: a key present with a null value passes.
    */
  method FirstMissing(body: Body, required: seq<string>) returns (missing: Option<string>)
    ensures missing.None? <==> forall i | 0 <= i < |required| :: required[i] in body
    ensures missing.Some? ==> exists i | 0 <= i < |required| ::
      && required[i] == missing.value
      && required[i] !in body
      && forall j | 0 <= j < i :: required[j] in body
  {
    var i := 0;
    while i < |required|
      invariant 0 <= i <= |required|
      invariant forall j | 0 <= j < i :: required[j] in body
    {
      if required[i] !in body {
        return Some(required[i]);
      }
      i := i + 1;
    }
    return None;
  }

  /**
    * POST /api/observations. A missing required key gives 400 naming the first
    * one; past that check, a `date` or `time` that `strptime` refuses (null
    * included) and a commit that fails are both caught and answered with 500.
    * On success the new row is echoed with 201.
    */
  method AddObservation(store: ObservationStore, body: Body, freshId: string, created: Timestamp, updated: Timestamp)
    returns (resp: Response)
    requires store.Valid()
    modifies store
    ensures store.Valid()
    ensures resp.status in {201, 400, 500}
    ensures resp.status == 400 <==> exists i | 0 <= i < |RequiredFields| :: RequiredFields[i] !in body
    ensures resp.status == 400 ==> exists i | 0 <= i < |RequiredFields| ::
      && resp.body == Error("'" + RequiredFields[i] + "' is required.")
      && RequiredFields[i] !in body
      && forall j | 0 <= j < i :: RequiredFields[j] in body
    ensures resp.status == 201 <==>
      && (forall i | 0 <= i < |RequiredFields| :: RequiredFields[i] in body)
      && FromBody(body).Some? && Storable(FromBody(body).value) && freshId !in old(store.rows)
    ensures resp.status == 201 ==>
      var row := NewRow(freshId, FromBody(body).value, created, updated);
      && store.rows == old(store.rows)[freshId := row]
      && store.order == old(store.order) + [freshId]
      && resp.body == Obj(map["message" := Str("Observation created successfully!"), "observation" := Echo(row)])
    ensures resp.status != 201 ==> store.rows == old(store.rows) && store.order == old(store.order)
    ensures resp.status == 500 ==> resp.body == Error("")
  {
    var missing := FirstMissing(body, RequiredFields);
    if missing.Some? {
      return Response(400, Error("'" + missing.value + "' is required."));
    }
    assert RequiredFields[0] in body && RequiredFields[1] in body;
    assert RequiredFields[2] in body && RequiredFields[3] in body;
    var d := ParseDateValue(body["date"]);
    if d.None? {
      return Response(500, Error(""));
    }
    var t := ParseTimeValue(body["time"]);
    if t.None? {
      return Response(500, Error(""));
    }
    var f := Fields(
      d.value, t.value,
      body["time_zone_offset"], body["coordinates"],
      Get(body, "temperature_water"), Get(body, "temperature_air"),
      Get(body, "humidity"), Get(body, "wind_speed"), Get(body, "wind_direction"),
      Get(body, "precipitation"), Get(body, "haze"), Get(body, "becquerel"),
      Get(body, "notes"));
    assert f == FromBody(body).value;
    var ok := store.Add(freshId, f, created, updated);
    if !ok {
      return Response(500, Error(""));
    }
    var row := NewRow(freshId, f, created, updated);
    resp := Response(201, Obj(map["message" := Str("Observation created successfully!"), "observation" := Echo(row)]));
  }

  /** A body holding every required key, even with a null `date`, passes the key check and is refused by parsing instead. */
  lemma NullDatePassesKeyCheck(body: Body)
    requires forall i | 0 <= i < |RequiredFields| :: RequiredFields[i] in body
    requires "date" in body && body["date"] == Null
    ensures FromBody(body).None?
  {
  }

  /** The echo of a created row carries every column but `deleted`, with the stored date and time as ISO text. */
  lemma EchoOfNewRow(id: string, f: Fields, created: Timestamp, updated: Timestamp)
    ensures var e := Echo(NewRow(id, f, created, updated));
      && "deleted" !in e.fields
      && e.fields["id"] == Str(id)
      && e.fields["date"] == Str(FormatDate(f.date))
      && e.fields["time"] == Str(FormatTime(f.time))
      && e.fields["created"] == Str(IsoTimestamp(created))
      && e.fields["updated"] == Str(IsoTimestamp(updated))
  {
    EchoedColumns();
  }

  lemma EchoedColumns()
    ensures "id" in Columns - {"deleted"}
    ensures "date" in Columns - {"deleted"} && "time" in Columns - {"deleted"}
    ensures "created" in Columns - {"deleted"} && "updated" in Columns - {"deleted"}
  {
  }
}
