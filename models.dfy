/**
  * The `Observation` record (models.py; the same columns are declared again in
  * app.py and observations/observations.py): its columns, which of them SQL
  * refuses to leave NULL, the defaults the table fills in at insert, and the
  * JSON views of a row that the handlers return.
  */
module Models {
  import opened Json
  import opened Calendar

  /**
    * The thirteen columns a request may set. `date` and `time` hold Python
    * `date`/`time` objects, so they are always valid; the other columns hold
    * whatever value the handler passed, `Null` standing for NULL.
    */
  datatype Fields = Fields(
    date: CalendarDate,
    time: ClockTime,
    timeZoneOffset: Value,
    coordinates: Value,
    temperatureWater: Value,
    temperatureAir: Value,
    humidity: Value,
    windSpeed: Value,
    windDirection: Value,
    precipitation: Value,
    haze: Value,
    becquerel: Value,
    notes: Value)

  /** A stored row: the primary key, the writable columns and the three timestamps. */
  datatype Observation = Observation(
    id: string,
    fields: Fields,
    created: Timestamp,
    updated: Option<Timestamp>,
    deleted: Option<Timestamp>)

  /** The column names: what `hasattr(Observation, key)` is taken to test. */
  const Columns: set<string> := {
    "id", "date", "time", "time_zone_offset", "coordinates",
    "temperature_water", "temperature_air", "humidity", "wind_speed",
    "wind_direction", "precipitation", "haze", "becquerel", "notes",
    "created", "updated", "deleted"}

  /** The eight optional measurement columns. */
  const Measurements: set<string> := {
    "temperature_water", "temperature_air", "humidity", "wind_speed",
    "wind_direction", "precipitation", "haze", "becquerel"}

  /** The columns a request body may write, and those of them stored exactly as given. */
  const Writable: set<string> := {
    "date", "time", "time_zone_offset", "coordinates",
    "temperature_water", "temperature_air", "humidity", "wind_speed",
    "wind_direction", "precipitation", "haze", "becquerel", "notes"}
  const Plain: set<string> := {
    "time_zone_offset", "coordinates",
    "temperature_water", "temperature_air", "humidity", "wind_speed",
    "wind_direction", "precipitation", "haze", "becquerel", "notes"}

  /**
    * What a commit accepts: `time_zone_offset` and `coordinates` are NOT NULL,
    * sqlite3 must be able to bind every column value, and each `Float`
    * column's value must first pass `float()`.
    */
  predicate Storable(f: Fields)
  {
    && f.timeZoneOffset != Null && f.coordinates != Null
    && Bindable(f.timeZoneOffset) && Bindable(f.coordinates) && Bindable(f.notes)
    && FloatBindable(f.temperatureWater) && FloatBindable(f.temperatureAir)
    && FloatBindable(f.humidity) && FloatBindable(f.windSpeed) && FloatBindable(f.windDirection)
    && FloatBindable(f.precipitation) && FloatBindable(f.haze) && FloatBindable(f.becquerel)
  }

  /**
    * The row an insert creates: `created` and `updated` each default to a
    * reading of the clock (`datetime.utcnow` is called once per column, so
    * the two readings may differ); `deleted` has no default.
    */
  function NewRow(id: string, f: Fields, created: Timestamp, updated: Timestamp): Observation
  {
    Observation(id, f, created, Some(updated), None)
  }

  /**
    * `onupdate=datetime.utcnow`: when a commit changes some column of a row,
    * `updated` is set to the clock; a commit that changes nothing issues no
    * UPDATE and leaves the row as it was.
    */
  function Refreshed(o: Observation, f: Fields, now: Timestamp): Observation
  {
    if f == o.fields then o else o.(fields := f, updated := Some(now))
  }

  /**
    * The columns app.py's and observations.py's create handlers take from a
    * body: `date` and `time` parsed with `strptime`, every other column as
    * given, an absent key as null. `None` when the date or the time raises.
    */
  function FromBody(body: Body): (r: Option<Fields>)
    ensures r.Some? <==> ParseDateValue(Get(body, "date")).Some? && ParseTimeValue(Get(body, "time")).Some?
    ensures r.Some? ==> r.value.date == ParseDateValue(Get(body, "date")).value
    ensures r.Some? ==> r.value.time == ParseTimeValue(Get(body, "time")).value
  {
    var d := ParseDateValue(Get(body, "date"));
    var t := ParseTimeValue(Get(body, "time"));
    if d.None? || t.None? then None
    else Some(Fields(
      d.value, t.value,
      Get(body, "time_zone_offset"), Get(body, "coordinates"),
      Get(body, "temperature_water"), Get(body, "temperature_air"),
      Get(body, "humidity"), Get(body, "wind_speed"), Get(body, "wind_direction"),
      Get(body, "precipitation"), Get(body, "haze"), Get(body, "becquerel"),
      Get(body, "notes")))
  }

  /**
    * The columns after app.py's `update_observation` has assigned every key the
    * body holds: each present column overwritten, every absent one kept.
    * `None` when a present `date` or `time` raises in `strptime`.
    */
  function Revise(f: Fields, body: Body): (r: Option<Fields>)
    ensures r.None? <==> || ("date" in body && ParseDateValue(body["date"]).None?)
                         || ("time" in body && ParseTimeValue(body["time"]).None?)
    ensures r.Some? ==> r.value.date == (if "date" in body then ParseDateValue(body["date"]).value else f.date)
    ensures r.Some? ==> r.value.time == (if "time" in body then ParseTimeValue(body["time"]).value else f.time)
  {
    var d := if "date" in body then ParseDateValue(body["date"]) else Some(f.date);
    var t := if "time" in body then ParseTimeValue(body["time"]) else Some(f.time);
    if d.None? || t.None? then None
    else Some(Overwrite(f, body).(date := d.value, time := t.value))
  }

  lemma ReviseColumnwise(f: Fields, body: Body)
    ensures Revise(f, body).Some? ==> Revise(f, body).value == Fields(
      if "date" in body then ParseDateValue(body["date"]).value else f.date,
      if "time" in body then ParseTimeValue(body["time"]).value else f.time,
      GetOr(body, "time_zone_offset", f.timeZoneOffset), GetOr(body, "coordinates", f.coordinates),
      GetOr(body, "temperature_water", f.temperatureWater), GetOr(body, "temperature_air", f.temperatureAir),
      GetOr(body, "humidity", f.humidity), GetOr(body, "wind_speed", f.windSpeed),
      GetOr(body, "wind_direction", f.windDirection), GetOr(body, "precipitation", f.precipitation),
      GetOr(body, "haze", f.haze), GetOr(body, "becquerel", f.becquerel),
      GetOr(body, "notes", f.notes))
  {
  }

  /** The plain columns after update_observation's assignments: a present key's value, else the old one. */
  function Overwrite(f: Fields, body: Body): Fields
  {
    f.(timeZoneOffset := GetOr(body, "time_zone_offset", f.timeZoneOffset),
       coordinates := GetOr(body, "coordinates", f.coordinates),
       temperatureWater := GetOr(body, "temperature_water", f.temperatureWater),
       temperatureAir := GetOr(body, "temperature_air", f.temperatureAir),
       humidity := GetOr(body, "humidity", f.humidity),
       windSpeed := GetOr(body, "wind_speed", f.windSpeed),
       windDirection := GetOr(body, "wind_direction", f.windDirection),
       precipitation := GetOr(body, "precipitation", f.precipitation),
       haze := GetOr(body, "haze", f.haze),
       becquerel := GetOr(body, "becquerel", f.becquerel),
       notes := GetOr(body, "notes", f.notes))
  }

  /** A timestamp column as app.py writes it: `strftime` text, or null when unset. */
  function StampValue(t: Option<Timestamp>): Value
  {
    match t
    case None => Null
    case Some(ts) => Str(FormatTimestamp(ts))
  }

  /** The value of one writable column, dates and times written as ISO text. */
  function FieldValue(f: Fields, name: string): Value
  {
    match name
    case "date" => Str(FormatDate(f.date))
    case "time" => Str(FormatTime(f.time))
    case "time_zone_offset" => f.timeZoneOffset
    case "coordinates" => f.coordinates
    case "temperature_water" => f.temperatureWater
    case "temperature_air" => f.temperatureAir
    case "humidity" => f.humidity
    case "wind_speed" => f.windSpeed
    case "wind_direction" => f.windDirection
    case "precipitation" => f.precipitation
    case "haze" => f.haze
    case "becquerel" => f.becquerel
    case "notes" => f.notes
    case _ => Null
  }

  /** The value of any column of a row, as app.py serialises it. */
  function Attr(o: Observation, name: string): Value
  {
    match name
    case "id" => Str(o.id)
    case "created" => Str(FormatTimestamp(o.created))
    case "updated" => StampValue(o.updated)
    case "deleted" => StampValue(o.deleted)
    case _ => FieldValue(o.fields, name)
  }

  /** The JSON object app.py returns for a row: every column, by its name. */
  function Serialize(o: Observation): (v: Value)
    ensures v.Obj? && v.fields.Keys == Columns
  {
    Obj(map c | c in Columns :: Attr(o, c))
  }

  /** The fields `ObservationSchema` dumps: its declared names that are also attributes of the row. */
  const DumpNames: set<string> :=
    Columns - {"time_zone_offset", "temperature_water", "temperature_air", "notes", "created", "updated", "deleted"}

  /** `ObservationSchema().dump(row)`. */
  function Dump(o: Observation): (v: Value)
    ensures v.Obj? && v.fields.Keys == DumpNames
  {
    Obj(map c | c in DumpNames :: Attr(o, c))
  }

  /** `ObservationSchema(many=True).dump(rows)`: one dump per row, in order. */
  function DumpEach(rows: seq<Observation>): (vs: seq<Value>)
    ensures |vs| == |rows|
    ensures forall i | 0 <= i < |rows| :: vs[i] == Dump(rows[i])
  {
    if rows == [] then [] else [Dump(rows[0])] + DumpEach(rows[1..])
  }

  /**
    * The object observations/observations.py echoes after an insert: every
    * column except `deleted`, with `isoformat()` timestamps.
    */
  function Echo(o: Observation): (v: Value)
    ensures v.Obj? && v.fields.Keys == Columns - {"deleted"}
  {
    Obj(map c | c in Columns - {"deleted"} :: EchoAttr(o, c))
  }

  function EchoAttr(o: Observation, name: string): Value
  {
    match name
    case "created" => Str(IsoTimestamp(o.created))
    case "updated" => if o.updated.Some? then Str(IsoTimestamp(o.updated.value)) else Null
    case _ => Attr(o, name)
  }

  // ---------------------------------------------------------------------------
  // What create and update store

  /** A successful create stores every plain column exactly as supplied, and null where the key is absent. */
  lemma FromBodyStoresSupplied(body: Body)
    requires FromBody(body).Some?
    ensures forall c | c in Plain :: FieldValue(FromBody(body).value, c) == Get(body, c)
  {
    var f := FromBody(body).value;
    PlainOfBody(f, body);
  }

  lemma PlainOfBody(f: Fields, body: Body)
    requires f == Fields(
      f.date, f.time,
      Get(body, "time_zone_offset"), Get(body, "coordinates"),
      Get(body, "temperature_water"), Get(body, "temperature_air"),
      Get(body, "humidity"), Get(body, "wind_speed"), Get(body, "wind_direction"),
      Get(body, "precipitation"), Get(body, "haze"), Get(body, "becquerel"),
      Get(body, "notes"))
    ensures forall c | c in Plain :: FieldValue(f, c) == Get(body, c)
  {
    forall c | c in Plain
      ensures FieldValue(f, c) == Get(body, c)
    {
      PlainCases(c);
    }
  }

  /** An update overwrites each plain column whose key is present and keeps every other one. */
  lemma ReviseOverwritesPresent(f: Fields, body: Body)
    requires Revise(f, body).Some?
    ensures forall c | c in Plain :: FieldValue(Revise(f, body).value, c) == (if c in body then body[c] else FieldValue(f, c))
  {
    var r := Revise(f, body).value;
    forall c | c in Plain
      ensures FieldValue(r, c) == (if c in body then body[c] else FieldValue(f, c))
    {
      PlainCases(c);
    }
  }

  lemma PlainCases(c: string)
    requires c in Plain
    ensures || c == "time_zone_offset" || c == "coordinates" || c == "temperature_water"
            || c == "temperature_air" || c == "humidity" || c == "wind_speed"
            || c == "wind_direction" || c == "precipitation" || c == "haze"
            || c == "becquerel" || c == "notes"
  {
  }

  // ---------------------------------------------------------------------------
  // What the views promise

  /** The serialised date and time are canonical ISO text that parses back to the stored values. */
  lemma SerializedDateTimeParse(o: Observation)
    ensures ParseDateValue(Serialize(o).fields["date"]) == Some(o.fields.date)
    ensures ParseTimeValue(Serialize(o).fields["time"]) == Some(o.fields.time)
  {
    var v := Serialize(o).fields;
    DateTimeColumns(o);
    assert v["date"] == Attr(o, "date") && v["time"] == Attr(o, "time");
    DateRoundTrip(o.fields.date);
    TimeRoundTrip(o.fields.time);
  }

  lemma DateTimeColumns(o: Observation)
    ensures "date" in Columns && "time" in Columns
    ensures Attr(o, "date") == Str(FormatDate(o.fields.date)) && Attr(o, "time") == Str(FormatTime(o.fields.time))
  {
  }

  /** A dump is the serialisation restricted to the schema's names; it never carries notes or the timezone offset. */
  lemma DumpIsRestriction(o: Observation)
    ensures forall c | c in DumpNames :: Dump(o).fields[c] == Serialize(o).fields[c]
    ensures "notes" !in Dump(o).fields && "time_zone_offset" !in Dump(o).fields && "deleted" !in Dump(o).fields
  {
  }

  /** The echo agrees with the serialisation on every column except the timestamps. */
  lemma EchoAgreesWithSerialize(o: Observation)
    ensures forall c | c in Columns - {"created", "updated", "deleted"} :: Echo(o).fields[c] == Serialize(o).fields[c]
    ensures "deleted" !in Echo(o).fields
  {
  }

  /** A word in a `Float` column, `"warm"` for the water temperature say, makes the commit fail. */
  lemma WordInFloatColumnRefused(f: Fields, c: string, word: string)
    requires c in Measurements && FieldValue(f, c) == Str(word)
    requires word != [] && 'a' <= word[0] <= 'z' && word[0] != 'i' && word[0] != 'n'
    ensures !Storable(f)
  {
    WordIsNotFloatText(word);
    MeasurementCases(c);
  }

  lemma MeasurementCases(c: string)
    requires c in Measurements
    ensures || c == "temperature_water" || c == "temperature_air" || c == "humidity"
            || c == "wind_speed" || c == "wind_direction" || c == "precipitation"
            || c == "haze" || c == "becquerel"
  {
  }

  /** A NOT NULL column of a storable row is never null once serialised. */
  lemma StorableRequiredNotNull(o: Observation)
    requires Storable(o.fields)
    ensures forall c | c in {"id", "date", "time", "time_zone_offset", "coordinates", "created"} :: Serialize(o).fields[c] != Null
  {
    SerializedNotNull(o);
  }

  lemma SerializedNotNull(o: Observation)
    requires o.fields.timeZoneOffset != Null && o.fields.coordinates != Null
    ensures forall c | c in {"id", "date", "time", "time_zone_offset", "coordinates", "created"} :: Serialize(o).fields[c] != Null
  {
  }
}
