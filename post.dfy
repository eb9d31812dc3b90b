/**
  * observations/post.py: validate the body with `ObservationSchema.load`,
  * then build the row from the loaded data and commit it.
  */
module PostApi {
  import opened Json
  import opened Calendar
  import opened Models
  import opened Store
  import opened Schema

  /**
    * POST /api/observations as written. A body `load` refuses is answered
    * with 400. Past `load`, line 37 reads `observation_data['time_zone_offset']`,
    * but loaded data is keyed by the schema's name `timezone_offset`: the
    * `KeyError` is not caught, so every accepted body ends in 500 and nothing
    * is stored.
    */
  method CreateObservationAsWritten(body: Body) returns (resp: Response)
    ensures resp.status != 201
    ensures Load(body).None? ==> resp == Response(400, Error(""))
    ensures Load(body).Some? ==> resp == InternalError
  {
    var observationData := Load(body);
    if observationData.None? {
      return Response(400, Error(""));
    }
    LoadedLacksColumnNames(body);
    assert "time_zone_offset" !in observationData.value;
    resp := InternalError;
  }

  /**
    * POST /api/observations as evidently intended: the loaded data converted
    * to columns under their own names (`ToFields`), the date and time parsed.
    * A body `load` refuses, or whose date or time does not parse, gives 400;
    * a commit that fails is not caught and gives 500; success inserts exactly
    * one row and answers 201 with its dump.
    */
  method CreateObservation(store: ObservationStore, body: Body, freshId: string, created: Timestamp, updated: Timestamp)
    returns (resp: Response)
    requires store.Valid()
    modifies store
    ensures store.Valid()
    ensures resp.status in {201, 400, 500}
    ensures resp.status == 400 <==> Load(body).None? || ToFields(body).None?
    ensures resp.status == 400 ==> resp.body == Error("")
    ensures resp.status == 201 <==> Load(body).Some? && ToFields(body).Some? && freshId !in old(store.rows)
    ensures resp.status == 201 ==>
      var row := NewRow(freshId, ToFields(body).value, created, updated);
      && store.rows == old(store.rows)[freshId := row]
      && store.order == old(store.order) + [freshId]
      && resp.body == Dump(row)
    ensures resp.status == 500 ==> resp == InternalError
    ensures resp.status != 201 ==> store.rows == old(store.rows) && store.order == old(store.order)
  {
    var observationData := Load(body);
    if observationData.None? {
      return Response(400, Error(""));
    }
    var f := ToFields(observationData.value);
    if f.None? {
      return Response(400, Error(""));
    }
    LoadedColumns(body);
    var ok := store.Add(freshId, f.value, created, updated);
    if !ok {
      return InternalError;
    }
    resp := Response(201, Dump(NewRow(freshId, f.value, created, updated)));
  }
}
