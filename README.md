# Observation record store

A Dafny model of the CRUD core of a small Flask/SQLAlchemy API for
environmental field observations. It covers two stores:

- **Observations.** Each row has a uuid text key, thirteen writable columns
  (`date`, `time`, `time_zone_offset`, `coordinates`, eight optional
  measurements and `notes`) and three timestamps (`created`, `updated`,
  `deleted`). Several handler modules create, list, fetch, update, filter and
  delete them:
  - `app.py`;
  - `observations/observations.py`, `get.py`, `post.py` and `delete.py`;
  - `routes.py`.

  Some of these handlers validate through the marshmallow `ObservationSchema`
  (`observations/schemas.py`).
- **Weather readings** (`myproject/app.py`). Each row has an integer key that
  SQLite assigns and thirteen columns stored exactly as supplied.

Each handler is modelled as the status and JSON body it returns, together
with the new state of the table. Each table is a class:
`Store.ObservationStore` and `Weather.WeatherStore`. Rows are held in a map
from primary key to row, plus the list of keys in the order `query.all()`
returns them. A commit is all-or-nothing.

The model includes:

- `date` and `time` parsing, with `strptime` modelled exactly for
  `%Y-%m-%d` and `%H:%M:%S` (module `Calendar`);
- the three JSON views of a row: app.py's serialisation, the schema dump,
  and the echo in observations.py;
- marshmallow's `load`;
- the query-parameter filter of `routes.py`.

The modules are:

| module | models |
|---|---|
| `Json` | decoded JSON values, `dict.get` and truthiness, Flask responses |
| `Calendar` | strptime and strftime for the two formats |
| `Models` | the row and its JSON views |
| `Store` | the observation table |
| `Schema` | `ObservationSchema` |
| `App` | `app.py` |
| `ObservationsApi` | `observations/observations.py` |
| `GetApi` | `get.py` |
| `PostApi` | `post.py` |
| `DeleteApi` | `delete.py` |
| `Routes` | `routes.py` |
| `Weather` | `myproject/app.py` |

Inputs the handlers draw from outside are parameters:

- the body as decoded by `request.get_json()`;
- the uuid drawn for a new row (`freshId`);
- the clock: the two readings the `created` and `updated` defaults take at
  insert, and the reading `onupdate` takes at update (`now`).

Each `Float` column binds `float(value)`, so the commit fails on text that
`float()` does not read as a number (`Json.FloatText`).

A handler that raises an exception nobody catches answers
`InternalError` (500, Flask's default page).

## Model

| member | source | states |
|---|---|---|
| Calendar.ParseDateExactly | app.py:89 | `strptime(s, '%Y-%m-%d')` accepts a text exactly when it spells a valid calendar date: four-digit year, one- or two-digit month, and day that may be space-padded. Both directions are proved. |
| Calendar.ParseTimeExactly | app.py:90 | `strptime(s, '%H:%M:%S')` accepts a text exactly when it spells a valid time of day with one- or two-digit fields. Both directions are proved. |
| Calendar.DateRoundTrip | app.py:121 | A date written with `strftime('%Y-%m-%d')` parses back to the same date. |
| Calendar.TimeRoundTrip | app.py:122 | A time written with `strftime('%H:%M:%S')` parses back to the same time. |
| Calendar.ParsedDateCanonical | app.py:89-121 | A date accepted in any spelling is listed in its canonical form, and that form parses to the same date. |
| Models.FromBodyStoresSupplied | app.py:73-85 | Create stores every column except date and time exactly as supplied, and null where the key is absent. |
| Models.ReviseOverwritesPresent | app.py:198-219 | Update overwrites each such column whose key is present and keeps every other one. |
| Models.SerializedDateTimeParse | app.py:121-122 | The serialised date and time parse back to the stored values. |
| Models.DumpIsRestriction | observations/schemas.py:3-16 | The schema dump is the serialisation restricted to the declared names that are row attributes. It never carries `notes`, `time_zone_offset` or `deleted`. |
| Models.EchoAgreesWithSerialize | observations/observations.py:84-101 | The echo after create agrees with the serialisation on every column except the timestamps, and has no `deleted`. |
| Models.StorableRequiredNotNull | app.py:15-29 | A row that passed the NOT NULL checks never serialises a NOT NULL column as null. |
| Models.WordInFloatColumnRefused | app.py:20-27 | A word such as `"warm"` in a measurement column (declared `Float`) makes the commit fail. |
| Json.NumeralIsFloatText | app.py:20-27 | A plain numeral given as text passes `float()`, so a `Float` column binds it. |
| Json.WordIsNotFloatText | app.py:20-27 | Text starting with a letter other than those of `inf` and `nan` fails `float()`. |
| Models.DumpEach | observations/get.py:12-13 | `dump(many=True)` gives one dump per row, in order. |
| Store.ObservationStore.Add | app.py:54-55 | The commit succeeds exactly when `time_zone_offset` and `coordinates` are set, every value can be bound, each `Float` column's value passes `float()`, and the id is unused. On success exactly one row is appended; otherwise nothing changes. |
| Store.ObservationStore.Replace | app.py:222 | A commit of a revised row succeeds exactly when every value can be bound and each `Float` column's value passes `float()`. Only that row changes, and the order is kept. |
| Store.ObservationStore.Remove | app.py:148-149 | Delete erases the row, and only that row, from the table and from the order. |
| Store.ObservationStore.Find | app.py:187 | `query.get(id)` finds a row exactly when one is stored under that key. |
| Store.ObservationStore.Rows | app.py:115 | `query.all()` gives the stored rows in insertion order. |
| Store.StoredIdsDistinct | app.py:15 | Primary keys are pairwise distinct, and each row carries the key it is stored under. |
| App.CreateObservation | app.py:68-110 | 201 exactly when date and time parse and the commit succeeds (so, for example, `"warm"` as the water temperature gives 400); the row is then stored under the fresh id with its two clock readings. Every failure gives 400 and stores nothing. |
| App.GetObservations | app.py:113-139 | 200 with one serialised object per stored row, in order. |
| App.SerializeEach | app.py:117-137 | The loop appends the serialisation of each row in turn. |
| App.GetObservation | app.py:154-182 | 404 exactly when no row has the id; otherwise 200 with the serialised row. |
| App.UpdateObservation | app.py:185-224 | Unknown id gives 404. A date or time that does not parse, or a failed commit (a null NOT NULL column, a list or dict, text `float()` refuses in a `Float` column), gives 500 with the row untouched. Otherwise 200, and the row holds the revised columns, refreshed. |
| App.AssignFromBody | app.py:193-219 | The guarded assignments give exactly the revised columns, or fail where strptime raises. |
| App.DeleteObservation | app.py:142-151 | Unknown id gives 404 and no change; otherwise the row is erased and 200 names the id. |
| App.UpdateKeepsIdentity | app.py:30 | Update never changes the id, `created` or `deleted`. `updated` moves only when a column changed. |
| App.EmptyUpdateIsIdentity | app.py:193-222 | A body naming no column changes nothing, not even `updated`. |
| App.UpdateIdempotent | app.py:193-219 | Sending the same update twice gives the same columns as sending it once. |
| App.UpdatedDateReadsBack | app.py:164-195 | A date written by update is read back by get as the same date. |
| ObservationsApi.FirstMissing | observations/observations.py:54-57 | Returns the first required key that is absent, or none when all are present. Only presence is checked. |
| ObservationsApi.AddObservation | observations/observations.py:48-105 | 400 exactly when a required key is missing, naming the first one. 201 exactly when the keys are present, date and time parse and the commit succeeds (every `Float` value passing `float()`); the row is stored and echoed. Other failures give 500 and store nothing. |
| ObservationsApi.NullDatePassesKeyCheck | observations/observations.py:55-62 | A body whose keys are all present but whose date is null passes the key check and fails in parsing instead. |
| ObservationsApi.EchoOfNewRow | observations/observations.py:84-101 | The echo of a new row carries its id, ISO date and time, and the `created` and `updated` stamps, each from its own clock reading. It has no `deleted`. |
| GetApi.GetObservations | observations/get.py:9-13 | Corrected handler (id dumped as text): 200 with one dump per stored row, in order, none filtered out. |
| GetApi.GetObservation | observations/get.py:16-22 | Corrected handler (id dumped as text): 404 exactly when no row has the id; otherwise 200 with its dump. |
| GetApi.CreateObservationAsWritten | observations/get.py:25-68 | Every body gets 400. A falsy date, time or coordinates gives the missing-fields error; otherwise the create error. |
| GetApi.CreateAsWrittenNeverStores | observations/get.py:45-50 | Even a complete, valid body passes the guard and is still refused. |
| GetApi.CreateObservation | observations/get.py:25-68 | Corrected handler: the same guard, then `date` and `time` parsed, the row inserted and committed. 201 with the dump exactly when all succeed (every `Float` value passing `float()`); every failure gives 400 with no change. |
| GetApi.TimeZoneOffsetUnchecked | observations/get.py:45 | The guard ignores `time_zone_offset`; a body without it is refused only at commit. |
| GetApi.GetObservationsAsWritten | observations/get.py:9-13 | As written: 200 with the declared dumps exactly when every stored row's id is an integer literal; otherwise 500. |
| GetApi.ListingUuidRowFails | observations/get.py:12-13 | As written, once a row with a uuid4 id is stored, the list answers 500. |
| GetApi.GetObservationAsWritten | observations/get.py:16-22 | As written: 404 exactly when no row has the id; 200 exactly when the row's id is an integer literal; otherwise 500. |
| GetApi.FetchingUuidRowFails | observations/get.py:21-22 | As written, fetching a stored row whose id is a uuid4 text answers 500. |
| DeleteApi.DeleteObservation | observations/delete.py:7-18 | Unknown id gives `abort(404)`. Otherwise exactly that row is erased, the order shrinks by one and 200 names the id. |
| DeleteApi.ErasedOnce | observations/delete.py:15-16 | Erasing a key that occurs once in a list of distinct keys shortens it by exactly one. |
| DeleteApi.DeleteTwice | observations/delete.py:7-18 | Deleting the same id twice gives 200, then 404. |
| Schema.Load | observations/schemas.py:3-16 | `load` returns the body exactly when it collects no error message. |
| Schema.LoadExactly | observations/schemas.py:4-16 | `load` accepts exactly the bodies whose keys are all declared, with values of the declared type, and that hold the four required fields. |
| Schema.LoadedNames | observations/schemas.py:5-16 | Loaded data is keyed by the schema's names, holds the four required strings, and numbers elsewhere. |
| Schema.LoadedLacksColumnNames | observations/schemas.py:4-16 | Loaded data never has `id`, `notes`, `time_zone_offset`, `temperature_water` or `temperature_air`. |
| Schema.LoadAcceptsRequired | observations/schemas.py:5-8 | A body of just the four required strings is accepted. |
| Schema.LoadRefusesUndeclared | observations/schemas.py:4 | A body carrying `id` (dump-only) or `notes` (undeclared) is refused. |
| Schema.LoadedColumns | observations/post.py:34-48 | Loaded and converted data always passes the NOT NULL and binding checks, with each value under its column's name. |
| Schema.DumpAsWritten | observations/schemas.py:4 | The declared dump, with `id` as `fields.Int`, fails unless the id text is an integer. |
| Schema.UuidRowsDoNotDump | observations/schemas.py:4 | No row with a uuid4 id can be dumped as declared. |
| Schema.DumpWritesIdText | observations/schemas.py:4 | The corrected dump writes the id as its text and agrees with the declared dump on every other name. |
| Schema.DumpEachAsWritten | observations/schemas.py:4 | The declared `dump(many=True)` succeeds exactly when every row dumps, and then gives each row's dump in order. |
| Schema.UuidListsDoNotDump | observations/schemas.py:4 | A list holding a row with a uuid4 id cannot be dumped as declared. |
| PostApi.CreateObservationAsWritten | observations/post.py:20-54 | No body gets 201: a body `load` refuses gives 400, and every accepted one gives 500. |
| PostApi.CreateObservation | observations/post.py:20-54 | Corrected handler. 400 exactly when `load` refuses or the date or time does not parse. 201 with the dump exactly when the commit succeeds. A failed commit gives 500. |
| Routes.AddObservationAsWritten | routes.py:10-21 | Every body gets 400. |
| Routes.AddObservation | routes.py:10-21 | Corrected handler: 201 with the dump exactly when load, parsing and the commit succeed; every failure gives 400 with no change. |
| Routes.GetObservations | routes.py:23-34 | Corrected handler (id dumped as text): 200, for every query string, with the dumps of exactly the stored rows that match every item of the query string naming a column, in stored order. |
| Routes.GetObservationsAsWritten | routes.py:23-34 | As written: 200 with the declared dumps of the matching rows exactly when each of them dumps; otherwise 500. |
| Routes.UuidResultFails | routes.py:33-34 | As written, a query that yields a row with a uuid4 id answers 500. |
| Routes.ItemsExactly | routes.py:26-29 | `args.items()` names each parameter once, with the first value given for it, and leaves no name out. |
| Routes.MatchesQuery | routes.py:26-31 | A row is kept exactly when it equals, on each column the query string names, the first value given for it; other names and later values of a repeated name are ignored. |
| Routes.ApplyFilters | routes.py:29-31 | The loop narrows the query once per parameter that names a column. |
| Routes.Keep | routes.py:29-33 | A row is kept exactly when it satisfies every filter on a column; the count never grows. |
| Routes.WhereNarrows | routes.py:31 | One more filter on a column is the previous result narrowed by that column. |
| Routes.UnknownNameIgnored | routes.py:30 | A parameter that names no column leaves the result as it was. |
| Routes.NoFiltersListAll | routes.py:26-33 | Without parameters, every row is listed, in order. |
| Routes.OrderIrrelevant | routes.py:29-31 | The same parameters, in any order or repeated, give the same rows. |
| Routes.MatchesIgnoresDeleted | routes.py:29-33 | Unless a parameter names `deleted`, a row's `deleted` stamp does not affect the filter. |
| Weather.WeatherStore.NextId | myproject/app.py:13 | The next rowid is above every stored id, and at least 1. |
| Weather.NextIdIsFresh | myproject/app.py:13 | A new id collides with no stored id, and exceeds every id in the order. |
| Weather.WeatherStore.Insert | myproject/app.py:54-55 | The commit succeeds exactly when every value can be bound, each `Float` column's value passing `float()`. The row is then appended under the next id; otherwise nothing changes. Every stored row keeps exactly the thirteen columns (its type, `Record`) and a positive id equal to its key. |
| Weather.WeatherStore.Replace | myproject/app.py:122 | A commit of a revised row succeeds exactly when every value can be bound, each `Float` column's value passing `float()`. Only that row changes, and it keeps exactly the thirteen columns. |
| Weather.WeatherStore.Remove | myproject/app.py:129-130 | Delete erases exactly that row; the order stays increasing. |
| Weather.ErasedIncreasing | myproject/app.py:129-130 | Erasing a key from an increasing list leaves it increasing. |
| Weather.FromInputs | myproject/app.py:39-53 | The constructed row has the new id and exactly the thirteen columns. |
| Weather.AddData | myproject/app.py:33-56 | A missing or empty body gives 400 "No data provided". A missing key, or a value that cannot be bound (such as `"north"` as the latitude), gives 500 with no change. Otherwise 201, with the row stored under the next id. |
| Weather.GetData | myproject/app.py:59-78 | 200 with one dictionary per row, in id order, each holding exactly the id and the thirteen columns. |
| Weather.GetSingleData | myproject/app.py:81-100 | `get_or_404`: Flask's 404 for an unknown id, else the row's dictionary. |
| Weather.UpdateData | myproject/app.py:103-123 | Unknown id gives 404. A null body, or a value that cannot be bound (text `float()` refuses in a `Float` column included), gives 500 with no change. Otherwise 200, and the row is revised with the id kept. |
| Weather.DeleteData | myproject/app.py:126-131 | Unknown id gives 404; otherwise exactly that row is erased. |
| Weather.AddedRowReadsBack | myproject/app.py:39-53 | GET after POST returns the new id and the posted value under every column key, and no other key. |
| Weather.UpdateSetsPresent | myproject/app.py:108-120 | Update sets each column whose key is present and keeps the others. |
| Weather.EmptyUpdateIsIdentity | myproject/app.py:108-120 | An empty body changes nothing. |
| Weather.UpdateIdempotent | myproject/app.py:108-120 | The same update applied twice gives the same row as applying it once. |
| Weather.UpdateIgnoresOtherKeys | myproject/app.py:108-120 | Keys that name no column do not affect an update. |
| Weather.WordInFloatColumnRefused | myproject/app.py:17-26 | A word such as `"north"` in a `Float` column makes the commit fail. |
| Weather.DeleteLastReusesId | myproject/app.py:126-131 | After the row with the largest id is deleted, the next id is no larger than the deleted one: SQLite reuses it. |

## Left out

- Flask routing, request parsing and JWT checks (`jwt_required`) are left out. The body is taken as already decoded.
- Bodies that are not JSON objects are left out. For `myproject/app.py`, the handlers take an optional object: `None` stands for a JSON `null`.
- Flask renders `abort()` pages as HTML. The model keeps the status and the description text as the body.
- Exception texts: an `str(e)` message is modelled as the fixed prefix the handler writes, e.g. `Failed to create observation: `, or as the empty string where the body is only `str(e)`.
- SQLite type affinity and SQLAlchemy type coercion on read-back are left out. A `Float` column's bind is modelled only as far as whether `float()` raises: the model keeps the supplied value (`"1.5"`, `true`) rather than the float SQLite stores (`1.5`, `1.0`). `String(n)` length limits are not enforced by SQLite and are not modelled.
- Json.Bindable: JSON integers outside SQLite's signed 64-bit range, or, in a `Float` column, beyond the range of a double, make the bind raise `OverflowError`; measurement values are kept opaque (`Num` holds any number), so this failure is not modelled, and `Store.ObservationStore.Add`, `Weather.WeatherStore.Insert` and the handlers above them accept such values.
- Json.FloatText: only ASCII digits and ASCII whitespace are modelled. Python's `float()` also accepts other Unicode digits and strips Unicode whitespace.
- Models.Refreshed: values are compared structurally. SQLAlchemy's change test uses Python `==`, under which `true` equals `1` and `1.0`; assigning such an equal value emits no UPDATE, while the model refreshes `updated`.
- Routes.GetObservations: every query-string value binds as text, whatever its column's type (SQLAlchemy keeps a literal's own type when it differs from the column's), so `query.all()` raises nothing. How SQLite then compares the column with that text is a parameter (`eq`, of type `Comparison`), not modelled. Every result holds for any comparison.
- Routes.Matches: `hasattr(Observation, key)` is modelled as "is a column name". Methods and other class attributes are not counted.
- Calendar: only ASCII digits are modelled. CPython's `\d` also accepts other Unicode digits.
- Calendar.FormatDate: `strftime` for years below 1000 is left out; the model pads to four digits.
- Schema: marshmallow 3 is assumed. `fields.Float` accepting numeric strings is not modelled, nor is the Str/Float conversion applied at dump. The dump writes stored values as they are.
- Schema.DumpAsWritten: `int()` also accepts surrounding whitespace and underscores between digits. `IntText` does not, which does not change the result for uuid texts.
- observations/patch.py and observations/update.py are outside the core; myproject/apidb/models.py and config.py are context only. None of them is modelled.
- Soft delete: no handler sets `deleted`, so every stored row has it unset (`Store.Live`).
- Session state after a failed commit (the rollback a real session needs) is not modelled. A failed commit leaves the table as it was.
- Module-level conflicts between the several `app`/`db`/`Observation` definitions are not modelled. Each handler module is modelled against its own table.
- Weather.UpdateData: the thirteen attribute assignments are modelled as one revision of the row's column map (`Revised`), not as thirteen steps.
- Weather.AddData: the 400 body is the description of `abort(400)`; the HTML page is left out.

## Findings

| source | as written | input that shows it | evidently intended | confidence | as-written member | corrected member |
|---|---|---|---|---|---|---|
| observations/post.py:37 | reads `observation_data['time_zone_offset']`, but loaded data is keyed `timezone_offset`: an uncaught `KeyError` | any body `load` accepts, e.g. `{"date": "2024-05-01", "time": "12:00:00", "timezone_offset": "+00:00", "coordinates": "1,2"}`, gets 500 | map the schema's names to the columns, parse date and time, store, 201 | not executed | PostApi.CreateObservationAsWritten | PostApi.CreateObservation |
| routes.py:16 | `Observation(**observation)` passes `timezone_offset`, which names no attribute: `TypeError`, caught as 400 | the same accepted body gets 400 and nothing is stored | three defects mended: convert the loaded data to columns before constructing the row; parse `date` and `time` with `strptime` (the loaded text would fail the `Date` column's bind); dump the new row with its id as text (the declared dump at line 19 would raise on the uuid4 id after the commit, leaving the row stored and answering 400) | not executed | Routes.AddObservationAsWritten | Routes.AddObservation |
| observations/get.py:50 | calls `Observation.create`, which the `Observation` of models.py does not define: `AttributeError`, caught as 400 | `{"date": "2024-05-01", "time": "12:00:00", "time_zone_offset": "+00:00", "coordinates": "1,2"}` passes the guard and gets 400 | two defects mended: insert and commit the row that the missing `create` stands for, and parse `date` and `time` with `strptime` first (the raw text would fail the `Date` column's bind) | not executed | GetApi.CreateAsWrittenNeverStores | GetApi.CreateObservation |
| observations/schemas.py:4 | `id = fields.Int` dumps `int(row.id)`, but ids are uuid4 texts: `ValueError` | any stored row, e.g. id `0f8fad5b-d9cb-469f-a165-70867728950e` | dump the id as its text | not executed | Schema.UuidRowsDoNotDump | Schema.DumpWritesIdText |
| observations/get.py:13 | dumps every row with the declared schema, whose `fields.Int` id raises `ValueError` on a uuid4 text, outside any `try` | any table holding a row, since every create stores a uuid4 id: 500 | dump the id as its text; 200 with every row | not executed | GetApi.ListingUuidRowFails | GetApi.GetObservations |
| observations/get.py:22 | dumps the fetched row with the declared schema, outside any `try` | GET of any stored id, e.g. `0f8fad5b-d9cb-469f-a165-70867728950e`: 500 | 200 with the row's dump | not executed | GetApi.FetchingUuidRowFails | GetApi.GetObservation |
| routes.py:34 | dumps the query's results with the declared schema, outside any `try` | any query that yields a row: 500 | 200 with the matching rows' dumps | not executed | Routes.UuidResultFails | Routes.GetObservations |
