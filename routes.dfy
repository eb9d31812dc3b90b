/**
  * routes.py: a create handler that passes the loaded data straight to the
  * `Observation` constructor, and a list handler that narrows the query by
  * every query parameter naming a column.
  */
module Routes {
  import opened Json
  import opened Calendar
  import opened Models
  import opened Store
  import opened Schema

  /**
    * POST /observations as written. A body `load` refuses gives 400. Past
    * `load`, `Observation(**observation)` passes `timezone_offset`, which
    * names no attribute of the model; the declarative constructor raises
    * `TypeError`, which is caught: every body ends in 400 and nothing is stored.
    */
  method AddObservationAsWritten(body: Body) returns (resp: Response)
    ensures resp == Response(400, Error(""))
  {
    var observation := Load(body);
    if observation.None? {
      return Response(400, Error(""));
    }
    LoadedNames(body);
    assert "timezone_offset" in observation.value && "timezone_offset" !in Columns;
    resp := Response(400, Error(""));
  }

  /**
    * POST /observations as evidently intended: the loaded data converted to
    * columns (`ToFields`) before construction. Every failure, of `load`, of
    * parsing or of the commit, is caught and answered with 400; success
    * inserts one row and answers 201 with its dump.
    */
  method AddObservation(store: ObservationStore, body: Body, freshId: string, created: Timestamp, updated: Timestamp)
    returns (resp: Response)
    requires store.Valid()
    modifies store
    ensures store.Valid()
    ensures resp.status == 201 || resp == Response(400, Error(""))
    ensures resp.status == 201 <==> Load(body).Some? && ToFields(body).Some? && freshId !in old(store.rows)
    ensures resp.status == 201 ==>
      var row := NewRow(freshId, ToFields(body).value, created, updated);
      && store.rows == old(store.rows)[freshId := row]
      && store.order == old(store.order) + [freshId]
      && resp.body == Dump(row)
    ensures resp.status != 201 ==> store.rows == old(store.rows) && store.order == old(store.order)
  {
    var observation := Load(body);
    if observation.None? {
      return Response(400, Error(""));
    }
    var f := ToFields(observation.value);
    if f.None? {
      return Response(400, Error(""));
    }
    LoadedColumns(body);
    var ok := store.Add(freshId, f.value, created, updated);
    if !ok {
      return Response(400, Error(""));
    }
    resp := Response(201, Dump(NewRow(freshId, f.value, created, updated)));
  }

  // ---------------------------------------------------------------------------
  // Filtering the list

  /**
    * SQL's `column == value` for a stored value and the text of a query
    * parameter. SQLAlchemy binds the text as a `String` whatever the column's
    * type; how SQLite then compares the two (type affinity) is not modelled,
    * and every result below holds whatever the comparison is.
    */
  type Comparison = (Value, string) -> bool

  /** A row satisfies every filter that names a column; the others say nothing. */
  predicate Matches(o: Observation, filters: seq<(string, string)>, eq: Comparison)
  {
    forall i | 0 <= i < |filters| :: filters[i].0 in Columns ==> eq(Attr(o, filters[i].0), filters[i].1)
  }

  /** The rows matching every filter, in their stored order: what the filtered query yields. */
  function Keep(rows: seq<Observation>, filters: seq<(string, string)>, eq: Comparison): (r: seq<Observation>)
    ensures |r| <= |rows|
    ensures forall o :: o in r <==> o in rows && Matches(o, filters, eq)
  {
    if rows == [] then []
    else (if Matches(rows[0], filters, eq) then [rows[0]] else []) + Keep(rows[1..], filters, eq)
  }

  /** `query.filter(getattr(Observation, key) == value)` applied to what the query yields so far. */
  function Where(rows: seq<Observation>, key: string, value: string, eq: Comparison): (r: seq<Observation>)
    ensures |r| <= |rows|
  {
    if rows == [] then []
    else (if eq(Attr(rows[0], key), value) then [rows[0]] else []) + Where(rows[1..], key, value, eq)
  }

  lemma MatchesSnoc(o: Observation, filters: seq<(string, string)>, key: string, value: string, eq: Comparison)
    ensures Matches(o, filters + [(key, value)], eq) <==>
      Matches(o, filters, eq) && (key in Columns ==> eq(Attr(o, key), value))
  {
    var fs := filters + [(key, value)];
    assert forall i | 0 <= i < |filters| :: fs[i] == filters[i];
    assert fs[|filters|] == (key, value);
  }

  /** One more filter on a column narrows the kept rows by that column. */
  lemma {:induction false} WhereNarrows(rows: seq<Observation>, filters: seq<(string, string)>, key: string, value: string, eq: Comparison)
    requires key in Columns
    ensures Where(Keep(rows, filters, eq), key, value, eq) == Keep(rows, filters + [(key, value)], eq)
  {
    if rows != [] {
      MatchesSnoc(rows[0], filters, key, value, eq);
      WhereNarrows(rows[1..], filters, key, value, eq);
      var head := if Matches(rows[0], filters, eq) then [rows[0]] else [];
      WhereAppend(head, Keep(rows[1..], filters, eq), key, value, eq);
    }
  }

  lemma {:induction false} WhereAppend(a: seq<Observation>, b: seq<Observation>, key: string, value: string, eq: Comparison)
    ensures Where(a + b, key, value, eq) == Where(a, key, value, eq) + Where(b, key, value, eq)
  {
    if a == [] {
      assert a + b == b;
    } else {
      var head := if eq(Attr(a[0], key), value) then [a[0]] else [];
      assert (a + b)[0] == a[0] && (a + b)[1..] == a[1..] + b;
      assert Where(a + b, key, value, eq) == head + Where(a[1..] + b, key, value, eq);
      WhereAppend(a[1..], b, key, value, eq);
      var wa, wb := Where(a[1..], key, value, eq), Where(b, key, value, eq);
      assert head + (wa + wb) == (head + wa) + wb;
    }
  }

  /** A parameter naming no column leaves the kept rows as they were. */
  lemma {:induction false} UnknownNameIgnored(rows: seq<Observation>, filters: seq<(string, string)>, key: string, value: string, eq: Comparison)
    requires key !in Columns
    ensures Keep(rows, filters + [(key, value)], eq) == Keep(rows, filters, eq)
  {
    if rows != [] {
      MatchesSnoc(rows[0], filters, key, value, eq);
      UnknownNameIgnored(rows[1..], filters, key, value, eq);
    }
  }

  // ---------------------------------------------------------------------------
  // The query parameters

  /**
    * `request.args.items()` for the query string's pairs `args`: werkzeug's
    * `MultiDict` yields each name once, with the first value given for it,
    * in the order the names first appear.
    */
  function Items(args: seq<(string, string)>): seq<(string, string)>
  {
    ItemsAfter(args, {})
  }

  /** The items of `args` whose names are not in `seen`. */
  function ItemsAfter(args: seq<(string, string)>, seen: set<string>): seq<(string, string)>
  {
    if args == [] then []
    else if args[0].0 in seen then ItemsAfter(args[1..], seen)
    else [args[0]] + ItemsAfter(args[1..], seen + {args[0].0})
  }

  /** The first value the query string gives for `name`: what `request.args[name]` reads. */
  function FirstValue(args: seq<(string, string)>, name: string): Option<string>
  {
    if args == [] then None
    else if args[0].0 == name then Some(args[0].1)
    else FirstValue(args[1..], name)
  }

  /** The items name each parameter once, each with its first value, and leave none out. */
  lemma ItemsExactly(args: seq<(string, string)>)
    ensures forall i, j | 0 <= i < j < |Items(args)| :: Items(args)[i].0 != Items(args)[j].0
    ensures forall p | p in Items(args) :: FirstValue(args, p.0) == Some(p.1)
    ensures forall name | FirstValue(args, name).Some? :: (name, FirstValue(args, name).value) in Items(args)
  {
    ItemsAfterExactly(args, {});
  }

  lemma {:induction false} ItemsAfterExactly(args: seq<(string, string)>, seen: set<string>)
    ensures var r := ItemsAfter(args, seen);
      && (forall i, j | 0 <= i < j < |r| :: r[i].0 != r[j].0)
      && (forall p | p in r :: p.0 !in seen && FirstValue(args, p.0) == Some(p.1))
      && (forall name | name !in seen && FirstValue(args, name).Some? :: (name, FirstValue(args, name).value) in r)
  {
    if args != [] {
      var a := args[0];
      if a.0 in seen {
        ItemsAfterExactly(args[1..], seen);
      } else {
        var rest := ItemsAfter(args[1..], seen + {a.0});
        ItemsAfterExactly(args[1..], seen + {a.0});
        var r := [a] + rest;
        assert ItemsAfter(args, seen) == r;
        forall i, j | 0 <= i < j < |r|
          ensures r[i].0 != r[j].0
        {
          if i == 0 {
            assert r[j] in rest;
          } else {
            assert r[i] == rest[i - 1] && r[j] == rest[j - 1];
          }
        }
      }
    }
  }

  /**
    * A row is kept when, for each column the query string names, it equals
    * the first value given for that column; names that are not columns and
    * later values of a repeated name say nothing.
    */
  lemma MatchesQuery(o: Observation, args: seq<(string, string)>, eq: Comparison)
    ensures Matches(o, Items(args), eq) <==>
      forall name | name in Columns && FirstValue(args, name).Some? :: eq(Attr(o, name), FirstValue(args, name).value)
  {
    var items := Items(args);
    ItemsExactly(args);
    if Matches(o, items, eq) {
      forall name | name in Columns && FirstValue(args, name).Some?
        ensures eq(Attr(o, name), FirstValue(args, name).value)
      {
        var i :| 0 <= i < |items| && items[i] == (name, FirstValue(args, name).value);
      }
    }
    if forall name | name in Columns && FirstValue(args, name).Some? :: eq(Attr(o, name), FirstValue(args, name).value) {
      forall i | 0 <= i < |items| && items[i].0 in Columns
        ensures eq(Attr(o, items[i].0), items[i].1)
      {
        assert items[i] in items;
      }
    }
  }

  // ---------------------------------------------------------------------------
  // The list handler

  /**
    * GET /observations with the id dumped as text: the query over every row,
    * narrowed by the items of the query string, answered with 200 and the
    * dump of each row it yields. Each query-string value is compared as text,
    * whatever its column's type, so executing the query raises nothing.
    */
  method GetObservations(store: ObservationStore, args: seq<(string, string)>, eq: Comparison)
    returns (resp: Response)
    requires store.Valid()
    ensures resp == Response(200, Arr(DumpEach(Keep(store.Rows(), Items(args), eq))))
  {
    var results := ApplyFilters(store.Rows(), Items(args), eq);
    resp := Response(200, Arr(DumpEach(results)));
  }

  /**
    * GET /observations as written: the declared dump of the results raises on
    * the first row whose id is not an integer literal, outside any `try`, so
    * Flask answers 500; only a query that yields no such row answers 200.
    */
  method GetObservationsAsWritten(store: ObservationStore, args: seq<(string, string)>, eq: Comparison)
    returns (resp: Response)
    requires store.Valid()
    ensures var results := Keep(store.Rows(), Items(args), eq);
      && (DumpEachAsWritten(results).None? ==> resp == InternalError)
      && (DumpEachAsWritten(results).Some? ==> resp == Response(200, Arr(DumpEachAsWritten(results).value)))
  {
    var results := ApplyFilters(store.Rows(), Items(args), eq);
    var dumped := DumpEachAsWritten(results);
    if dumped.None? {
      return InternalError;
    }
    resp := Response(200, Arr(dumped.value));
  }

  /** As written, a query that yields a row with a `uuid4()` id, as every created row has, answers 500. */
  lemma UuidResultFails(rows: seq<Observation>, items: seq<(string, string)>, eq: Comparison, o: Observation)
    requires o in Keep(rows, items, eq) && UuidText(o.id)
    ensures DumpEachAsWritten(Keep(rows, items, eq)).None?
  {
    var results := Keep(rows, items, eq);
    var i :| 0 <= i < |results| && results[i] == o;
    UuidListsDoNotDump(results, i);
  }

  /**
    * The loop of `get_observations`: the query is rebound once per parameter
    * whose name is a column, in the order the parameters come; other names
    * are skipped.
    */
  method ApplyFilters(rows: seq<Observation>, filters: seq<(string, string)>, eq: Comparison)
    returns (query: seq<Observation>)
    ensures query == Keep(rows, filters, eq)
  {
    query := rows;
    NoFiltersListAll(rows, eq);
    var i := 0;
    while i < |filters|
      invariant 0 <= i <= |filters|
      invariant query == Keep(rows, filters[..i], eq)
    {
      var (key, value) := filters[i];
      assert filters[..i + 1] == filters[..i] + [(key, value)];
      if key in Columns {
        WhereNarrows(rows, filters[..i], key, value, eq);
        query := Where(query, key, value, eq);
      } else {
        UnknownNameIgnored(rows, filters[..i], key, value, eq);
      }
      i := i + 1;
    }
    assert filters[..i] == filters;
  }

  /** When every row matches, nothing is dropped; in particular no parameters list every row. */
  lemma {:induction false} KeepEverything(rows: seq<Observation>, filters: seq<(string, string)>, eq: Comparison)
    requires forall o | o in rows :: Matches(o, filters, eq)
    ensures Keep(rows, filters, eq) == rows
  {
    if rows != [] {
      assert rows[0] in rows;
      assert forall o | o in rows[1..] :: o in rows;
      KeepEverything(rows[1..], filters, eq);
      assert [rows[0]] + rows[1..] == rows;
    }
  }

  /** With no query parameters the list is every stored row, in order. */
  lemma NoFiltersListAll(rows: seq<Observation>, eq: Comparison)
    ensures Keep(rows, [], eq) == rows
  {
    KeepEverything(rows, [], eq);
  }

  /** Filters combine by conjunction: the same set of parameters, in any order or repeated, gives the same rows. */
  lemma {:induction false} OrderIrrelevant(rows: seq<Observation>, fs: seq<(string, string)>, gs: seq<(string, string)>, eq: Comparison)
    requires forall f :: f in fs <==> f in gs
    ensures Keep(rows, fs, eq) == Keep(rows, gs, eq)
  {
    if rows != [] {
      SameMatches(rows[0], fs, gs, eq);
      OrderIrrelevant(rows[1..], fs, gs, eq);
    }
  }

  lemma SameMatches(o: Observation, fs: seq<(string, string)>, gs: seq<(string, string)>, eq: Comparison)
    requires forall f :: f in fs <==> f in gs
    ensures Matches(o, fs, eq) <==> Matches(o, gs, eq)
  {
    if Matches(o, fs, eq) {
      forall i | 0 <= i < |gs| && gs[i].0 in Columns
        ensures eq(Attr(o, gs[i].0), gs[i].1)
      {
        assert gs[i] in fs;
      }
    }
    if Matches(o, gs, eq) {
      forall i | 0 <= i < |fs| && fs[i].0 in Columns
        ensures eq(Attr(o, fs[i].0), fs[i].1)
      {
        assert fs[i] in gs;
      }
    }
  }

  /**
    * Nothing filters on `deleted`: unless a parameter names that column, a
    * row is kept or dropped the same whatever its `deleted` holds.
    */
  lemma MatchesIgnoresDeleted(o: Observation, filters: seq<(string, string)>, eq: Comparison, d: Option<Timestamp>)
    requires forall i | 0 <= i < |filters| :: filters[i].0 != "deleted"
    ensures Matches(o.(deleted := d), filters, eq) <==> Matches(o, filters, eq)
  {
    forall i | 0 <= i < |filters|
      ensures Attr(o.(deleted := d), filters[i].0) == Attr(o, filters[i].0)
    {
    }
  }
}
