/**
  * `ObservationSchema` (observations/schemas.py) as marshmallow 3 applies it:
  * `load` checks a request body against the declared fields and raises on
  * the first body it does not accept; `dump` writes a row out under the
  * declared names. The schema's names are not all column names: it says
  * `timezone_offset`, `water_temp` and `air_temp` where the table has
  * `time_zone_offset`, `temperature_water` and `temperature_air`.
  */
module Schema {
  import opened Json
  import opened Calendar
  import opened Models

  /** The marshmallow field types the schema uses for input. */
  datatype Kind = StrField | FloatField

  /** A field `load` reads: its type and whether it is `required=True`. */
  datatype Declared = Declared(kind: Kind, required: bool)

  /**
    * The fields `load` reads. `id` is declared `dump_only`, so `load` treats
    * an `id` key as unknown; `notes` is not declared at all.
    */
  const LoadFields: map<string, Declared> := map[
    "date" := Declared(StrField, true),
    "time" := Declared(StrField, true),
    "timezone_offset" := Declared(StrField, true),
    "coordinates" := Declared(StrField, true),
    "water_temp" := Declared(FloatField, false),
    "air_temp" := Declared(FloatField, false),
    "humidity" := Declared(FloatField, false),
    "wind_speed" := Declared(FloatField, false),
    "wind_direction" := Declared(FloatField, false),
    "precipitation" := Declared(FloatField, false),
    "haze" := Declared(FloatField, false),
    "becquerel" := Declared(FloatField, false)]

  const Required: set<string> := {"date", "time", "timezone_offset", "coordinates"}

  /** `fields.Str` takes a string and `fields.Float` a number; without `allow_none` neither takes null. */
  predicate Accepts(kind: Kind, v: Value)
  {
    match kind
    case StrField => v.Str?
    case FloatField => v.Num?
  }

  /** The message marshmallow records against one key of the body, if any. */
  function Problem(body: Body, k: string): Option<string>
  {
    if k !in LoadFields then
      (if k in body then Some("Unknown field.") else None)
    else if k !in body then
      (if LoadFields[k].required then Some("Missing data for required field.") else None)
    else if body[k].Null? then Some("Field may not be null.")
    else if Accepts(LoadFields[k].kind, body[k]) then None
    else if LoadFields[k].kind.StrField? then Some("Not a valid string.")
    else Some("Not a valid number.")
  }

  /** Every message `load` collects: unknown keys, missing required fields, values of the wrong type. */
  function Errors(body: Body): map<string, string>
  {
    map k | k in body.Keys + LoadFields.Keys && Problem(body, k).Some? :: Problem(body, k).value
  }

  /**
    * `schema.load(data)`: the body itself when no message was collected,
    * `None` where `ValidationError` is raised.
    */
  function Load(body: Body): (r: Option<Body>)
    ensures r.Some? <==> Errors(body) == map[]
    ensures r.Some? ==> r.value == body
  {
    if Errors(body) == map[] then Some(body) else None
  }

  /** What the declaration table says an accepted body is. */
  predicate Admissible(body: Body)
  {
    && (forall k | k in body :: k in LoadFields && Accepts(LoadFields[k].kind, body[k]))
    && (forall k | k in Required :: k in body)
  }

  lemma RequiredCases(k: string)
    requires k in LoadFields
    ensures LoadFields[k].required <==> k in Required
  {
  }

  /** `load` accepts exactly the bodies the declaration table admits. */
  lemma LoadExactly(body: Body)
    ensures Load(body).Some? <==> Admissible(body)
  {
    if Admissible(body) {
      forall k | k in body.Keys + LoadFields.Keys
        ensures Problem(body, k).None?
      {
        if k in LoadFields {
          RequiredCases(k);
        }
      }
      assert Errors(body).Keys == {};
    } else if k :| k in body && !(k in LoadFields && Accepts(LoadFields[k].kind, body[k])) {
      assert Problem(body, k).Some?;
      assert k in Errors(body);
    } else {
      var k :| k in Required && k !in body;
      assert Problem(body, k).Some?;
      assert k in Errors(body);
    }
  }

  /** Loaded data is keyed by the schema's names, holds the four required strings, and numbers elsewhere. */
  lemma LoadedNames(body: Body)
    requires Load(body).Some?
    ensures body.Keys <= LoadFields.Keys && Required <= body.Keys
    ensures forall k | k in Required :: body[k].Str?
    ensures forall k | k in body && k !in Required :: body[k].Num?
  {
    LoadExactly(body);
    AdmittedTypes(body);
  }

  lemma AdmittedTypes(body: Body)
    requires Admissible(body)
    ensures body.Keys <= LoadFields.Keys && Required <= body.Keys
    ensures forall k | k in Required :: body[k].Str?
    ensures forall k | k in body && k !in Required :: body[k].Num?
  {
    DeclaredKinds();
  }

  /** The four required fields are the string fields; every optional one is a number. */
  lemma DeclaredKinds()
    ensures forall k | k in LoadFields :: LoadFields[k].kind.StrField? <==> k in Required
  {
    forall k | k in LoadFields
      ensures LoadFields[k].kind.StrField? <==> k in Required
    {
      RequiredCases(k);
    }
  }

  /**
    * Loaded data never carries `id` or `notes`, nor the column names
    * `time_zone_offset`, `temperature_water` and `temperature_air`.
    */
  lemma LoadedLacksColumnNames(body: Body)
    requires Load(body).Some?
    ensures "id" !in body && "notes" !in body
    ensures "time_zone_offset" !in body && "temperature_water" !in body && "temperature_air" !in body
  {
    LoadExactly(body);
    AdmittedNames(body);
  }

  lemma AdmittedNames(body: Body)
    requires Admissible(body)
    ensures "id" !in body && "notes" !in body
    ensures "time_zone_offset" !in body && "temperature_water" !in body && "temperature_air" !in body
  {
    UndeclaredNames();
    UndeclaredColumnNames();
  }

  lemma UndeclaredNames()
    ensures "id" !in LoadFields && "notes" !in LoadFields
  {
  }

  lemma UndeclaredColumnNames()
    ensures "time_zone_offset" !in LoadFields
    ensures "temperature_water" !in LoadFields && "temperature_air" !in LoadFields
  {
  }

  /** Every admitted value is a string or a number: never null, always bindable. */
  lemma AdmittedBindable(body: Body)
    requires Admissible(body)
    ensures forall k | k in body :: body[k] != Null && Bindable(body[k])
  {
  }

  /** A body holding just the four required strings is accepted. */
  lemma LoadAcceptsRequired(date: string, time: string, offset: string, coordinates: string)
    ensures var body := map["date" := Str(date), "time" := Str(time),
                             "timezone_offset" := Str(offset), "coordinates" := Str(coordinates)];
      Load(body) == Some(body)
  {
    var body := map["date" := Str(date), "time" := Str(time),
                    "timezone_offset" := Str(offset), "coordinates" := Str(coordinates)];
    RequiredDeclared();
    assert body.Keys == Required;
    assert forall k | k in body :: body[k].Str?;
    LoadExactly(body);
  }

  lemma RequiredDeclared()
    ensures forall k | k in Required :: k in LoadFields && LoadFields[k].kind == StrField
  {
  }

  /** A body carrying `notes` or an `id` is refused, whatever else it holds. */
  lemma LoadRefusesUndeclared(body: Body)
    requires "notes" in body || "id" in body
    ensures Load(body).None?
  {
    LoadExactly(body);
    UndeclaredNames();
  }

  // ---------------------------------------------------------------------------
  // From loaded data to columns

  /**
    * The columns a loaded body evidently stands for: each schema name mapped to
    * its column, `date` and `time` parsed as app.py parses them, `notes` null
    * since the schema has no such field. `None` when the date or the time does
    * not parse.
    */
  function ToFields(loaded: Body): (r: Option<Fields>)
    ensures r.Some? <==> ParseDateValue(Get(loaded, "date")).Some? && ParseTimeValue(Get(loaded, "time")).Some?
  {
    var d := ParseDateValue(Get(loaded, "date"));
    var t := ParseTimeValue(Get(loaded, "time"));
    if d.None? || t.None? then None else Some(Renamed(loaded, d.value, t.value))
  }

  /** The columns of a loaded body once its date and time are parsed: each schema name under its column's name. */
  function Renamed(loaded: Body, date: CalendarDate, time: ClockTime): Fields
  {
    Fields(
      date, time,
      Get(loaded, "timezone_offset"), Get(loaded, "coordinates"),
      Get(loaded, "water_temp"), Get(loaded, "air_temp"),
      Get(loaded, "humidity"), Get(loaded, "wind_speed"), Get(loaded, "wind_direction"),
      Get(loaded, "precipitation"), Get(loaded, "haze"), Get(loaded, "becquerel"),
      Null)
  }

  /**
    * Loaded data always passes the table's NOT NULL and binding checks once
    * converted, and each column holds the value given under its schema name.
    */
  lemma LoadedColumns(body: Body)
    requires Load(body).Some? && ToFields(body).Some?
    ensures Storable(ToFields(body).value)
    ensures var f := ToFields(body).value;
      && f.timeZoneOffset == body["timezone_offset"] && f.coordinates == body["coordinates"]
      && f.temperatureWater == Get(body, "water_temp") && f.temperatureAir == Get(body, "air_temp")
      && f.notes == Null
  {
    LoadExactly(body);
    var f := ToFields(body).value;
    AdmittedColumns(body, f.date, f.time);
  }

  lemma AdmittedColumns(body: Body, date: CalendarDate, time: ClockTime)
    requires Admissible(body)
    ensures var f := Renamed(body, date, time);
      && Storable(f)
      && f.timeZoneOffset == body["timezone_offset"] && f.coordinates == body["coordinates"]
  {
    AdmittedBindable(body);
    AdmittedFloats(body);
    RequiredColumns();
  }

  lemma RequiredColumns()
    ensures "timezone_offset" in Required && "coordinates" in Required
    ensures "water_temp" !in Required && "air_temp" !in Required && "humidity" !in Required
    ensures "wind_speed" !in Required && "wind_direction" !in Required
    ensures "precipitation" !in Required && "haze" !in Required && "becquerel" !in Required
  {
  }

  /** An optional field of an admitted body is absent or a number, either of which a `Float` column binds. */
  lemma AdmittedFloats(body: Body)
    requires Admissible(body)
    ensures forall k | k !in Required :: FloatBindable(Get(body, k))
  {
    AdmittedTypes(body);
  }

  // ---------------------------------------------------------------------------
  // Dumping a row

  /** `int(s)` for an optional sign followed by ASCII digits. */
  predicate IntText(s: string)
  {
    if |s| > 0 && (s[0] == '+' || s[0] == '-') then |s| > 1 && AllDigits(s[1..])
    else |s| > 0 && AllDigits(s)
  }

  function IntValue(s: string): int
    requires IntText(s)
  {
    if s[0] == '-' then -(Number(s[1..]) as int) else if s[0] == '+' then Number(s[1..]) else Number(s)
  }

  predicate IsHex(c: char)
  {
    '0' <= c <= '9' || 'a' <= c <= 'f'
  }

  /** The text of a `uuid4()`: 32 lower-case hex digits in groups of 8-4-4-4-12. */
  predicate UuidText(s: string)
  {
    && |s| == 36
    && forall i | 0 <= i < 36 :: if i == 8 || i == 13 || i == 18 || i == 23 then s[i] == '-' else IsHex(s[i])
  }

  /**
    * `ObservationSchema().dump(row)` as declared: `id = fields.Int(...)` dumps
    * `int(row.id)`, which raises `ValueError` (`None`) for a text that is not
    * an integer. Every other name is dumped as `Dump` does.
    */
  function DumpAsWritten(o: Observation): (v: Option<Value>)
    ensures v.Some? ==> v.value.Obj? && v.value.fields.Keys == DumpNames
  {
    if IntText(o.id) then Some(Obj(Dump(o).fields["id" := Num(IntValue(o.id) as real)])) else None
  }

  /** A row whose id is a `uuid4()` text, as every stored row's is, cannot be dumped as declared. */
  lemma UuidRowsDoNotDump(o: Observation)
    requires UuidText(o.id)
    ensures DumpAsWritten(o).None?
  {
    var s := o.id;
    assert s[8] == '-' && !IsDigit(s[8]);
    assert IsHex(s[0]);
    if s[0] == '+' || s[0] == '-' {
    } else {
      assert !AllDigits(s);
    }
  }

  /**
    * `ObservationSchema(many=True).dump(rows)` as declared: the rows dumped in
    * order, `None` as soon as one of them raises.
    */
  function DumpEachAsWritten(rows: seq<Observation>): (r: Option<seq<Value>>)
    ensures r.Some? <==> forall i | 0 <= i < |rows| :: DumpAsWritten(rows[i]).Some?
    ensures r.Some? ==> |r.value| == |rows| && forall i | 0 <= i < |rows| :: r.value[i] == DumpAsWritten(rows[i]).value
  {
    if rows == [] then Some([])
    else
      var head, rest := DumpAsWritten(rows[0]), DumpEachAsWritten(rows[1..]);
      if head.None? || rest.None? then None else Some([head.value] + rest.value)
  }

  /** A list holding a row with a `uuid4()` id cannot be dumped as declared. */
  lemma UuidListsDoNotDump(rows: seq<Observation>, i: nat)
    requires i < |rows| && UuidText(rows[i].id)
    ensures DumpEachAsWritten(rows).None?
  {
    UuidRowsDoNotDump(rows[i]);
  }

  /** The dump the rest of the model uses writes the id as its text, agreeing with the declared one on every other name. */
  lemma DumpWritesIdText(o: Observation)
    ensures Dump(o).fields["id"] == Str(o.id)
    ensures DumpAsWritten(o).Some? ==>
      forall k | k in DumpNames && k != "id" :: DumpAsWritten(o).value.fields[k] == Dump(o).fields[k]
  {
    assert "id" in Columns;
  }
}
