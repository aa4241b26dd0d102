/** `computeSortedConnections` from end to end: the configuration checks,
    the trip reduction, the stopover stream and the expansion into the tree.
    The two table readers are not part of this model: their results, the
    trip records and the service days, are parameters, and so are the
    `stop_times` rows (with their times already parsed to seconds) and the
    resolution of a day and a time of day to an instant. */
module Compute {
  import opened Types
  import opened Config
  import opened Trips
  import opened Grouping
  import opened StopoverStream
  import opened SortedIndex
  import opened Expansion

  /** A refused configuration fails before anything is read. Otherwise the
      rows are consumed one at a time; the first one whose references do not
      resolve fails the call with its row number and no tree is returned.
      Otherwise every grouped trip resolves, and the tree holds the
      connections of every trip, visited in some order, inserted in turn. */
  method ComputeSortedConnections(readFile: Value, filters: Value, rawTrips: map<string, RawTrip>,
                                  services: map<string, seq<int>>, rows: seq<StopoverRow>, resolve: (int, int) -> int)
    returns (r: Result<Tree, Error>, order: seq<string>)
    ensures ValidateConfig(readFile, filters).Err? ==> r == Err(ConfigError(ValidateConfig(readFile, filters).error))
    ensures ValidateConfig(readFile, filters).Ok? ==>
      var tables := Tables(ReducedTrips(rawTrips), services);
      var parsed := ParseAll(ValidateConfig(readFile, filters).value.stopover, tables, Initial, rows);
      (parsed.Err? ==> r == Err(parsed.error)) &&
      (parsed.Ok? ==>
        r.Ok? && fresh(r.value) && r.value.Valid() &&
        (forall t :: t in parsed.value.stopovers ==> Resolves(tables, t)) &&
        IsEnumeration(order, parsed.value.stopovers.Keys) &&
        r.value.entries == InsertAll(AllConnections(parsed.value.stopovers, tables, order, resolve)) &&
        // the connections come out sorted by departure, and none is lost or added
        (forall k :: 0 <= k < |r.value.Values()| - 1 ==>
           r.value.Values()[k].departure <= r.value.Values()[k + 1].departure) &&
        multiset(r.value.Values()) == multiset(AllConnections(parsed.value.stopovers, tables, order, resolve)))
  {
    order := [];
    var config := ValidateConfig(readFile, filters);
    if config.Err? {
      return Err(ConfigError(config.error)), order;
    }
    var trips := ReduceTrips(rawTrips);
    var tables := Tables(trips, services);
    var accept := config.value.stopover;
    var parser := new StopoverParser(accept, tables);
    var err := PumpRows(parser, rows);
    if err.Some? {
      return Err(err.value), order;
    }
    ParsedTripsResolve(accept, tables, rows);
    assert parser.State() == ParseAll(accept, tables, Initial, rows).value;
    order := Enumerate(parser.stopovers.Keys);
    var byDeparture := Expand(parser.stopovers, tables, order, resolve);
    r := Ok(byDeparture);
  }

  /** `pump` feeding the `stop_times` rows to the parser: its single-row
      `write`, one row at a time, until the first error. (The batched path,
      `StopoverParser.ParseStopovers`, runs the same step on buffered
      entries.) */
  method PumpRows(parser: StopoverParser, rows: seq<StopoverRow>) returns (err: Option<Error>)
    modifies parser
    ensures match ParseAll(parser.accept, parser.tables, old(parser.State()), rows)
      case Ok(next) => err == None && parser.State() == next
      case Err(e) => err == Some(e)
  {
    ghost var start := parser.State();
    var n := 0;
    while n < |rows|
      invariant 0 <= n <= |rows|
      invariant ParseAll(parser.accept, parser.tables, start, rows[..n]) == Ok(parser.State())
    {
      ghost var before := parser.State();
      ParseAllAppend(parser.accept, parser.tables, start, rows[..n], [rows[n]]);
      assert rows[..n] + [rows[n]] == rows[..n + 1];
      assert [rows[n]][1..] == [];
      assert ParseAll(parser.accept, parser.tables, start, rows[..n + 1]) ==
        match Grouping.ParseStopover(parser.accept, parser.tables, before, rows[n])
        case Err(e) => Err(e)
        case Ok(next) => Ok(next);
      err := parser.ParseStopover(rows[n]);
      if err.Some? {
        ParseAllAppend(parser.accept, parser.tables, start, rows[..n + 1], rows[n + 1..]);
        assert rows[..n + 1] + rows[n + 1..] == rows;
        return;
      }
      n := n + 1;
    }
    assert rows[..n] == rows;
    err := None;
  }

  /** A single row naming a trip the table does not have fails the whole
      stream, tagged with row 1 and the unknown trip ID. */
  lemma UnknownTripFailsAtRowOne(tables: Tables, row: StopoverRow)
    requires row.tripId !in tables.trips
    ensures ParseAll(_ => true, tables, Initial, [row]) == Err(RowError(UnknownTrip(row.tripId), 1))
  {
    ParseAllAbortsAt(_ => true, tables, [row], 0);
  }

  /** The one-trip example: trip T1 of service S1 and route R1 calling at A,
      B and C at 08:00, 08:10 and 08:20, its rows arriving out of sequence
      order, on a service running on the one day `day`. */
  function ExampleTables(day: int): Tables {
    Tables(map["T1" := Trip("S1", "R1")], map["S1" := [day]])
  }

  const ExampleRows: seq<StopoverRow> := [
    StopoverRow("T1", "B", 2, 29400, 29400),
    StopoverRow("T1", "A", 1, 28800, 28800),
    StopoverRow("T1", "C", 3, 30000, 30000)]

  /** The example's rows, grouped under T1 in stream order, by any stopover
      filter that accepts every row. */
  lemma ExampleGroups(day: int, accept: StopoverRow -> bool)
    requires forall row :: accept(row)
    ensures ParseAll(accept, ExampleTables(day), Initial, ExampleRows) ==
      Ok(ParseState(map["T1" := AnnotateAll(ExampleRows, Trip("S1", "R1"))], 3))
  {
    var tables := ExampleTables(day);
    var rows := ExampleRows;
    var rB, rA, rC := rows[0], rows[1], rows[2];
    var trip := Trip("S1", "R1");
    var sB, sA, sC := Annotate(rB, trip), Annotate(rA, trip), Annotate(rC, trip);
    assert Resolves(tables, "T1");
    assert rows[1..] == [rA, rC] && rows[1..][1..] == [rC] && rows[1..][1..][1..] == [];
    assert AnnotateAll(rows, trip) == [sB, sA, sC];
    var st1 := ParseState(map["T1" := [sB]], 1);
    var st2 := ParseState(map["T1" := [sB, sA]], 2);
    var st3 := ParseState(map["T1" := [sB, sA, sC]], 3);
    assert Grouping.ParseStopover(accept, tables, Initial, rB) == Ok(st1);
    assert [sB] + [sA] == [sB, sA];
    assert map["T1" := [sB]]["T1" := [sB] + [sA]] == map["T1" := [sB, sA]];
    assert Grouping.ParseStopover(accept, tables, st1, rA) == Ok(st2);
    assert [sB, sA] + [sC] == [sB, sA, sC];
    assert map["T1" := [sB, sA]]["T1" := [sB, sA] + [sC]] == map["T1" := [sB, sA, sC]];
    assert Grouping.ParseStopover(accept, tables, st2, rC) == Ok(st3);
    assert ParseAll(accept, tables, st2, [rC]) == Ok(st3);
    assert ParseAll(accept, tables, st1, [rA, rC]) == Ok(st3);
  }

  /** Expanding the example's group yields exactly the two connections A to
      B and B to C, their instants resolved on `day`, both tagged R1 and S1. */
  lemma ExampleConnections(day: int, resolve: (int, int) -> int)
    ensures
      var groups := map["T1" := AnnotateAll(ExampleRows, Trip("S1", "R1"))];
      IsEnumeration(["T1"], groups.Keys) &&
      multiset(InOrder(InsertAll(AllConnections(groups, ExampleTables(day), ["T1"], resolve)))) ==
        multiset{Connection("A", resolve(day, 28800), "B", resolve(day, 29400), "R1", "S1"),
                 Connection("B", resolve(day, 29400), "C", resolve(day, 30000), "R1", "S1")}
  {
    var tables := ExampleTables(day);
    var rows := ExampleRows;
    var trip := Trip("S1", "R1");
    var sB, sA, sC := Annotate(rows[0], trip), Annotate(rows[1], trip), Annotate(rows[2], trip);
    assert rows[1..] == [rows[1], rows[2]] && rows[1..][1..] == [rows[2]] && rows[1..][1..][1..] == [];
    assert AnnotateAll(rows, trip) == [sB, sA, sC];
    var groups := map["T1" := [sB, sA, sC]];
    assert Resolves(tables, "T1");
    var sorted := [sA, sB, sC];
    assert Sorting.SortStopovers([sC]) == [sC];
    assert [sA, sC][1..] == [sC];
    assert Sorting.SortStopovers([sA, sC]) == [sA, sC];
    assert [sB, sA, sC][1..] == [sA, sC];
    assert Sorting.InsertBySequence(sB, [sC]) == [sB, sC];
    assert Sorting.InsertBySequence(sB, [sA, sC]) == [sA] + [sB, sC];
    assert Sorting.SortStopovers([sB, sA, sC]) == sorted;
    var c1 := Connection("A", resolve(day, 28800), "B", resolve(day, 29400), "R1", "S1");
    var c2 := Connection("B", resolve(day, 29400), "C", resolve(day, 30000), "R1", "S1");
    assert DayConnections(sorted, day, trip, resolve) == [c1, c2];
    assert [day][..0] == [];
    assert TripConnections(sorted, [day], trip, resolve) == [c1, c2];
    var order := ["T1"];
    assert order[..0] == [];
    assert AllConnections(groups, tables, order, resolve) == [c1, c2];
    InsertAllIndex([c1, c2]);
  }

  /** A map with a single key is listed by `for ... in` in one way only. */
  lemma OneKeyEnumeration(order: seq<string>, key: string)
    requires IsEnumeration(order, {key})
    ensures order == [key]
  {
    assert |order| >= 2 ==> order[0] != order[1];
    assert key in order;
    forall i | 0 <= i < |order| ensures order[i] == key {
      assert order[i] in order;
    }
  }

  /** The raw trip table of the example, with a column the reduction drops. */
  const ExampleTrips: map<string, RawTrip> := map["T1" := RawTrip("S1", "R1", map["trip_headsign" := "C"])]

  /** With `readFile` given and no filters, the configuration is accepted
      and the stopover filter is accept-all. */
  lemma ExampleConfig()
    ensures ValidateConfig(Function(AcceptAll), Object(map[])).Ok?
    ensures forall row :: ValidateConfig(Function(AcceptAll), Object(map[])).value.stopover(row)
  {
    assert forall k :: k in FilterNames ==> Callable(map[], k);
  }

  /** The example's raw trip table reduces to the example's trips. */
  lemma ExampleReduced(day: int)
    ensures Tables(ReducedTrips(ExampleTrips), map["S1" := [day]]) == ExampleTables(day)
  {
    assert ReducedTrips(ExampleTrips) == map["T1" := Trip("S1", "R1")];
  }

  /** The one-trip example through the whole function: `readFile` given, no
      filters, the rows out of sequence order. The call succeeds and its
      tree holds exactly A to B and B to C, resolved on `day`. */
  method ExampleRun(day: int, resolve: (int, int) -> int) returns (r: Result<Tree, Error>)
    ensures r.Ok?
    ensures multiset(r.value.Values()) ==
      multiset{Connection("A", resolve(day, 28800), "B", resolve(day, 29400), "R1", "S1"),
               Connection("B", resolve(day, 29400), "C", resolve(day, 30000), "R1", "S1")}
  {
    var readFile := Function(AcceptAll);
    var filters := Object(map[]);
    var order;
    r, order := ComputeSortedConnections(readFile, filters, ExampleTrips, map["S1" := [day]], ExampleRows, resolve);
    ExampleConfig();
    var config := ValidateConfig(readFile, filters);
    ExampleReduced(day);
    var tables := ExampleTables(day);
    ExampleGroups(day, config.value.stopover);
    var groups := map["T1" := AnnotateAll(ExampleRows, Trip("S1", "R1"))];
    assert groups.Keys == {"T1"};
    OneKeyEnumeration(order, "T1");
    ExampleConnections(day, resolve);
    InsertAllIndex(AllConnections(groups, tables, ["T1"], resolve));
  }
}
