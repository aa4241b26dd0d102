/** The validation and grouping of the `stop_times` rows: `onStopover` and the
    row counter of `parseStopover`, as pure functions of the state they
    update. The class in StopoverStream is proved against these. */
module Grouping {
  import opened Types

  /** The tables a stopover is resolved against: trips by trip ID (already
      reduced) and the service days by service ID. */
  datatype Tables = Tables(trips: map<string, Trip>, services: map<string, seq<int>>)

  /** What the stream updates: the stopovers by trip ID, and the number of
      rows consumed so far. */
  datatype ParseState = ParseState(stopovers: map<string, seq<Stopover>>, row: nat)

  /** `Object.create(null)` and `let row = 0`. */
  const Initial: ParseState := ParseState(map[], 0)

  /** A trip ID that names a known trip whose service is known. */
  predicate Resolves(tables: Tables, tripId: string) {
    tripId in tables.trips && tables.trips[tripId].serviceId in tables.services
  }

  /** The row with `service_id` and `route_id` copied from its trip. */
  function Annotate(s: StopoverRow, trip: Trip): Stopover {
    Stopover(s.tripId, s.stopId, s.stopSequence, s.arrivalTime, s.departureTime, trip.serviceId, trip.routeId)
  }

  /** The list kept for a trip; the empty list when it has none yet. */
  function ListOf(groups: map<string, seq<Stopover>>, tripId: string): seq<Stopover> {
    if tripId in groups then groups[tripId] else []
  }

  /** `onStopover`: filter the row, resolve its trip and service, annotate
      it and append it to its trip's list. */
  function OnStopover(accept: StopoverRow -> bool, tables: Tables,
                      groups: map<string, seq<Stopover>>, s: StopoverRow): (r: Result<map<string, seq<Stopover>>, Fault>)
    // a rejected row changes nothing, whatever it refers to
    ensures !accept(s) ==> r == Ok(groups)
    // an accepted row fails exactly when its references do not resolve, the trip being looked up first
    ensures r.Err? <==> accept(s) && !Resolves(tables, s.tripId)
    ensures accept(s) && s.tripId !in tables.trips ==> r == Err(UnknownTrip(s.tripId))
    ensures accept(s) && s.tripId in tables.trips && !Resolves(tables, s.tripId) ==>
      r == Err(UnknownService(tables.trips[s.tripId].serviceId))
    // an accepted row goes at the end of its own trip's list; every other list is unchanged
    ensures accept(s) && r.Ok? ==>
      r.value.Keys == groups.Keys + {s.tripId} &&
      r.value[s.tripId] == ListOf(groups, s.tripId) + [Annotate(s, tables.trips[s.tripId])] &&
      forall t :: t in groups && t != s.tripId ==> r.value[t] == groups[t]
  {
    if !accept(s) then Ok(groups)
    else if s.tripId !in tables.trips then Err(UnknownTrip(s.tripId))
    else
      var trip := tables.trips[s.tripId];
      if trip.serviceId !in tables.services then Err(UnknownService(trip.serviceId))
      else
        var a := Annotate(s, trip);
        if s.tripId !in groups then Ok(groups[s.tripId := [a]])
        else Ok(groups[s.tripId := groups[s.tripId] + [a]])
  }

  /** `parseStopover`: count the row, then run `onStopover` on it; a fault is
      tagged with the number of the row, counted from 1. */
  function ParseStopover(accept: StopoverRow -> bool, tables: Tables, st: ParseState, s: StopoverRow): Result<ParseState, Error> {
    match OnStopover(accept, tables, st.stopovers, s)
    case Ok(groups) => Ok(ParseState(groups, st.row + 1))
    case Err(fault) => Err(RowError(fault, st.row + 1))
  }

  /** The stream of rows fed to the parser one at a time; the first error
      aborts it. */
  function ParseAll(accept: StopoverRow -> bool, tables: Tables, st: ParseState, rows: seq<StopoverRow>): Result<ParseState, Error>
    decreases |rows|
  {
    if rows == [] then Ok(st)
    else match ParseStopover(accept, tables, st, rows[0])
      case Err(e) => Err(e)
      case Ok(next) => ParseAll(accept, tables, next, rows[1..])
  }

  /** The rows of `tripId` the filter keeps, in stream order. */
  function KeptFor(accept: StopoverRow -> bool, rows: seq<StopoverRow>, tripId: string): seq<StopoverRow>
    decreases |rows|
  {
    if rows == [] then []
    else (if accept(rows[0]) && rows[0].tripId == tripId then [rows[0]] else []) + KeptFor(accept, rows[1..], tripId)
  }

  /** Every row annotated with the same trip. */
  function AnnotateAll(rows: seq<StopoverRow>, trip: Trip): seq<Stopover>
    decreases |rows|
  {
    if rows == [] then [] else [Annotate(rows[0], trip)] + AnnotateAll(rows[1..], trip)
  }

  /** What the grouping appends for `tripId` when `rows` are consumed. */
  function Appended(accept: StopoverRow -> bool, tables: Tables, rows: seq<StopoverRow>, tripId: string): seq<Stopover> {
    if tripId in tables.trips then AnnotateAll(KeptFor(accept, rows, tripId), tables.trips[tripId]) else []
  }

  /** Every row consumed adds exactly one to the counter, kept or not. */
  lemma {:induction false} ParseAllRowCount(accept: StopoverRow -> bool, tables: Tables, st: ParseState, rows: seq<StopoverRow>)
    requires ParseAll(accept, tables, st, rows).Ok?
    ensures ParseAll(accept, tables, st, rows).value.row == st.row + |rows|
    decreases |rows|
  {
    if rows != [] {
      var next := ParseStopover(accept, tables, st, rows[0]).value;
      ParseAllRowCount(accept, tables, next, rows[1..]);
    }
  }

  /** Feeding `a` and then `b` is feeding `a + b`: a batch behaves as its rows
      delivered one by one, and an error in `a` aborts before `b`. */
  lemma {:induction false} ParseAllAppend(accept: StopoverRow -> bool, tables: Tables, st: ParseState, a: seq<StopoverRow>, b: seq<StopoverRow>)
    ensures ParseAll(accept, tables, st, a + b) ==
      match ParseAll(accept, tables, st, a)
      case Err(e) => Err(e)
      case Ok(mid) => ParseAll(accept, tables, mid, b)
    decreases |a|
  {
    if a == [] {
      assert a + b == b;
    } else {
      assert (a + b)[0] == a[0];
      assert (a + b)[1..] == a[1..] + b;
      match ParseStopover(accept, tables, st, a[0])
      case Err(e) =>
      case Ok(next) => ParseAllAppend(accept, tables, next, a[1..], b);
    }
  }

  /** A row whose references do not resolve aborts the stream with its own
      row number, counted from 1, when every row before it went through. */
  lemma ParseAllAbortsAt(accept: StopoverRow -> bool, tables: Tables, rows: seq<StopoverRow>, k: nat)
    requires k < |rows|
    requires ParseAll(accept, tables, Initial, rows[..k]).Ok?
    requires accept(rows[k]) && !Resolves(tables, rows[k].tripId)
    ensures ParseAll(accept, tables, Initial, rows) ==
      Err(RowError(if rows[k].tripId !in tables.trips then UnknownTrip(rows[k].tripId)
                   else UnknownService(tables.trips[rows[k].tripId].serviceId), k + 1))
  {
    var mid := ParseAll(accept, tables, Initial, rows[..k]).value;
    ParseAllRowCount(accept, tables, Initial, rows[..k]);
    ParseAllAppend(accept, tables, Initial, rows[..k], rows[k..]);
    assert rows[..k] + rows[k..] == rows;
    assert rows[k..][0] == rows[k];
  }

  /** Conversely, every error of the stream names the first row whose
      references do not resolve, and every earlier row went through. */
  lemma {:induction false} ParseAllErrorRow(accept: StopoverRow -> bool, tables: Tables, st: ParseState, rows: seq<StopoverRow>)
    returns (k: nat)
    requires ParseAll(accept, tables, st, rows).Err?
    ensures k < |rows|
    ensures ParseAll(accept, tables, st, rows[..k]).Ok?
    ensures accept(rows[k]) && !Resolves(tables, rows[k].tripId)
    ensures ParseAll(accept, tables, st, rows).error.RowError?
    ensures ParseAll(accept, tables, st, rows).error.row == st.row + k + 1
    decreases |rows|
  {
    assert rows != [];
    match ParseStopover(accept, tables, st, rows[0])
    case Err(e) =>
      k := 0;
      assert rows[..0] == [];
    case Ok(next) =>
      var k' := ParseAllErrorRow(accept, tables, next, rows[1..]);
      k := k' + 1;
      assert rows[1..][..k'] == rows[..k][1..];
      assert rows[..k][0] == rows[0];
  }

  /** One row's effect on one trip's list. */
  lemma OnStopoverAt(accept: StopoverRow -> bool, tables: Tables, st: ParseState, s: StopoverRow, t: string)
    requires ParseStopover(accept, tables, st, s).Ok?
    ensures accept(s) && s.tripId == t ==> Resolves(tables, t)
    ensures t in ParseStopover(accept, tables, st, s).value.stopovers <==>
      t in st.stopovers || (accept(s) && s.tripId == t)
    ensures ListOf(ParseStopover(accept, tables, st, s).value.stopovers, t) ==
      ListOf(st.stopovers, t) + (if accept(s) && s.tripId == t then [Annotate(s, tables.trips[t])] else [])
  {
  }

  /** A successful stream went through its first row. */
  lemma ParseAllFirst(accept: StopoverRow -> bool, tables: Tables, st: ParseState, rows: seq<StopoverRow>)
    returns (next: ParseState)
    requires rows != [] && ParseAll(accept, tables, st, rows).Ok?
    ensures ParseStopover(accept, tables, st, rows[0]) == Ok(next)
    ensures ParseAll(accept, tables, st, rows) == ParseAll(accept, tables, next, rows[1..])
  {
    next := ParseStopover(accept, tables, st, rows[0]).value;
  }

  /** `Appended` takes the first row off. */
  lemma AppendedFirst(accept: StopoverRow -> bool, tables: Tables, rows: seq<StopoverRow>, t: string)
    requires rows != []
    requires accept(rows[0]) && rows[0].tripId == t ==> t in tables.trips
    ensures KeptFor(accept, rows, t) != [] <==>
      (accept(rows[0]) && rows[0].tripId == t) || KeptFor(accept, rows[1..], t) != []
    ensures Appended(accept, tables, rows, t) ==
      (if accept(rows[0]) && rows[0].tripId == t then [Annotate(rows[0], tables.trips[t])] else []) +
      Appended(accept, tables, rows[1..], t)
  {
    var kept := KeptFor(accept, rows[1..], t);
    if accept(rows[0]) && rows[0].tripId == t {
      var all := [rows[0]] + kept;
      assert KeptFor(accept, rows, t) == all;
      assert all[0] == rows[0] && all[1..] == kept;
      assert AnnotateAll(all, tables.trips[t]) == [Annotate(rows[0], tables.trips[t])] + AnnotateAll(kept, tables.trips[t]);
    } else {
      assert KeptFor(accept, rows, t) == [] + kept;
      assert [] + kept == kept;
    }
  }

  /** After a successful stream, a trip with a kept row resolves, and the
      trip has a list only when it had one or a row of it was kept. */
  lemma {:induction false} ParseAllKeys(accept: StopoverRow -> bool, tables: Tables, st: ParseState, rows: seq<StopoverRow>, t: string)
    requires ParseAll(accept, tables, st, rows).Ok?
    ensures KeptFor(accept, rows, t) != [] ==> Resolves(tables, t)
    ensures t in ParseAll(accept, tables, st, rows).value.stopovers <==>
              t in st.stopovers || KeptFor(accept, rows, t) != []
    decreases |rows|
  {
    if rows != [] {
      var next := ParseAllFirst(accept, tables, st, rows);
      OnStopoverAt(accept, tables, st, rows[0], t);
      ParseAllKeys(accept, tables, next, rows[1..], t);
      AppendedFirst(accept, tables, rows, t);
    }
  }

  /** After a successful stream, a trip's list is its previous list followed
      by exactly the rows of that trip the filter kept, annotated from the
      trip table, in stream order. */
  lemma {:induction false} ParseAllGroups(accept: StopoverRow -> bool, tables: Tables, st: ParseState, rows: seq<StopoverRow>, t: string)
    requires ParseAll(accept, tables, st, rows).Ok?
    ensures ListOf(ParseAll(accept, tables, st, rows).value.stopovers, t) ==
              ListOf(st.stopovers, t) + Appended(accept, tables, rows, t)
    decreases |rows|
  {
    if rows != [] {
      var next := ParseAllFirst(accept, tables, st, rows);
      var here := if accept(rows[0]) && rows[0].tripId == t then [Annotate(rows[0], tables.trips[t])] else [];
      OnStopoverAt(accept, tables, st, rows[0], t);
      ParseAllGroups(accept, tables, next, rows[1..], t);
      AppendedFirst(accept, tables, rows, t);
      assert ListOf(next.stopovers, t) == ListOf(st.stopovers, t) + here;
      assert Appended(accept, tables, rows, t) == here + Appended(accept, tables, rows[1..], t);
    }
  }

  /** Every trip with a list after a successful stream resolves and has at
      least one stopover: what the expansion relies on. */
  lemma ParsedTripsResolve(accept: StopoverRow -> bool, tables: Tables, rows: seq<StopoverRow>)
    requires ParseAll(accept, tables, Initial, rows).Ok?
    ensures forall t :: t in ParseAll(accept, tables, Initial, rows).value.stopovers ==>
      Resolves(tables, t) && ParseAll(accept, tables, Initial, rows).value.stopovers[t] != []
  {
    var groups := ParseAll(accept, tables, Initial, rows).value.stopovers;
    forall t | t in groups ensures Resolves(tables, t) && groups[t] != [] {
      ParseAllKeys(accept, tables, Initial, rows, t);
      ParseAllGroups(accept, tables, Initial, rows, t);
      var kept := KeptFor(accept, rows, t);
      assert kept != [];
      assert ListOf(groups, t) == AnnotateAll(kept, tables.trips[t]);
      assert AnnotateAll(kept, tables.trips[t])[0] == Annotate(kept[0], tables.trips[t]);
    }
  }

  /** The rows carried by a batch of buffered writes, in order. */
  function Rows(batch: seq<Chunk>): (rows: seq<StopoverRow>)
    ensures |rows| == |batch| && forall k :: 0 <= k < |batch| ==> rows[k] == batch[k].chunk
  {
    seq(|batch|, k requires 0 <= k < |batch| => batch[k].chunk)
  }

  /** What a name denotes inside `parseStopovers`. `writev` is called as
      `writev(chunks, callback)`: its first parameter receives the
      `{chunk, encoding}` entries, its second the callback, and any further
      parameter is left `undefined`. */
  datatype Binding = ChunksValue | CallbackValue | CounterValue | UndefinedValue | OtherValue | Unbound

  /** The names bound around `parseStopovers` other than its parameters and
      its counter: its own name, the bindings of the two enclosing closures,
      and the module's imports, constants and CommonJS wrapper. The engine's
      global object adds no `s`. */
  const OuterNames: set<string> := {
    "parseStopovers", "services", "trips", "stopovers", "onStopover", "row", "parser",
    "readFile", "filters", "timezone",
    "pump", "Writable", "AVLTree", "DateTime", "readServicesAndExceptions", "readTrips",
    "parseTime", "isObj", "noFilters", "computeStopoversByTrip", "sortStopovers",
    "computeSortedConnections", "require", "module", "exports"}

  /** Looking `id` up from the loop body: the loop counter `i` first, then
      the parameters `params`, then the enclosing scopes. */
  function Lookup(params: seq<string>, id: string): Binding {
    if id == "i" then CounterValue
    else if |params| > 0 && id == params[0] then ChunksValue
    else if |params| > 1 && id == params[1] then CallbackValue
    else if id in params then UndefinedValue
    else if id in OuterNames then OtherValue
    else Unbound
  }

  /** The argument expression handed to `onStopover`: a bare name, an entry
      `target[index]`, or an entry's row `target[index].chunk`. */
  datatype Argument = Name(id: string) | Element(target: string, index: string) | ChunkOf(target: string, index: string)

  /** What the argument evaluates to on pass `i`. */
  datatype Evaluated = RowValue(row: StopoverRow) | NotARow | ReferenceFailure(id: string)

  /** Evaluating the argument on pass `i`: only the `.chunk` of the batch
      entry at the counter is a stopover row; an entry itself is a
      `{chunk, encoding}` pair, and every other bound value is no row. */
  function Evaluate(arg: Argument, params: seq<string>, batch: seq<Chunk>, i: nat): Evaluated
    requires i < |batch|
  {
    match arg
    case Name(id) => if Lookup(params, id).Unbound? then ReferenceFailure(id) else NotARow
    case Element(target, index) =>
      if Lookup(params, target).Unbound? then ReferenceFailure(target)
      else if Lookup(params, index).Unbound? then ReferenceFailure(index)
      else NotARow
    case ChunkOf(target, index) =>
      if Lookup(params, target).Unbound? then ReferenceFailure(target)
      else if Lookup(params, index).Unbound? then ReferenceFailure(index)
      else if Lookup(params, target).ChunksValue? && Lookup(params, index).CounterValue? then RowValue(batch[i].chunk)
      else NotARow
  }

  /** Calling `name(...)` to hand `outcome` to the stream: it arrives only
      when `name` denotes the callback; otherwise the call throws, and the
      error escapes `parseStopovers`. */
  function Callback(params: seq<string>, name: string, outcome: Result<ParseState, Error>): Result<ParseState, Error> {
    match Lookup(params, name)
    case CallbackValue => outcome
    case Unbound => Err(Escaped(ReferenceError(name)))
    case _ => Err(Escaped(NotAFunction(name)))
  }

  /** The shape of a `parseStopovers`: its parameter list, the argument it
      hands `onStopover`, the name it calls back, and whether its loop
      counter is declared `const`. */
  datatype BatchCode = BatchCode(params: seq<string>, arg: Argument, callback: string, constCounter: bool)

  /** The loop of `parseStopovers` from pass `i` on: the guard, then `cb()`
      once it fails; `row++`; the call inside the `try`, whose `catch` tags
      whatever it throws with the row number and returns `cb(err)`; then the
      counter's update, which throws a TypeError out of the loop when the
      counter is `const`. */
  function BatchFrom(accept: StopoverRow -> bool, tables: Tables, st: ParseState, batch: seq<Chunk>, i: nat,
                     code: BatchCode): Result<ParseState, Error>
    requires i <= |batch|
    decreases |batch| - i
  {
    if i == |batch| then Callback(code.params, code.callback, Ok(st))
    else
      var counted := st.row + 1;
      match Evaluate(code.arg, code.params, batch, i)
      case ReferenceFailure(id) => Callback(code.params, code.callback, Err(Caught(ReferenceError(id), counted)))
      case NotARow => Callback(code.params, code.callback, Err(ForeignArgument(counted)))
      case RowValue(s) =>
        match OnStopover(accept, tables, st.stopovers, s)
        case Err(fault) => Callback(code.params, code.callback, Err(RowError(fault, counted)))
        case Ok(groups) =>
          if code.constCounter then Err(Escaped(NotAssignable("i")))
          else BatchFrom(accept, tables, ParseState(groups, counted), batch, i + 1, code)
  }

  /** `function parseStopovers (stopovers, _, cb)` as written:
      `for (const i = 0; ...)`, `onStopover(s)`, `cb(err)` and `cb()`. */
  const AsWritten: BatchCode := BatchCode(["stopovers", "_", "cb"], Name("s"), "cb", true)

  /** `function parseStopovers (stopovers, cb)` as evidently meant:
      `for (let i = 0; ...)`, `onStopover(stopovers[i].chunk)`. */
  const Intended: BatchCode := BatchCode(["stopovers", "cb"], ChunkOf("stopovers", "i"), "cb", false)

  function ParseStopoversAsWritten(accept: StopoverRow -> bool, tables: Tables, st: ParseState, batch: seq<Chunk>): Result<ParseState, Error> {
    BatchFrom(accept, tables, st, batch, 0, AsWritten)
  }

  function ParseStopoversIntended(accept: StopoverRow -> bool, tables: Tables, st: ParseState, batch: seq<Chunk>): Result<ParseState, Error> {
    BatchFrom(accept, tables, st, batch, 0, Intended)
  }

  /** As written, no batch reaches the stream: `cb` is the third parameter,
      which `writev(chunks, callback)` leaves `undefined`. On a non-empty
      batch the ReferenceError for `s` is caught and tagged, and the
      `cb(err)` that should deliver it throws instead; the `const` counter's
      update is never reached. */
  lemma AsWrittenBatchFails(accept: StopoverRow -> bool, tables: Tables, st: ParseState, batch: seq<Chunk>)
    ensures ParseStopoversAsWritten(accept, tables, st, batch) == Err(Escaped(NotAFunction("cb")))
    ensures batch != [] ==> Evaluate(AsWritten.arg, AsWritten.params, batch, 0) == ReferenceFailure("s")
  {
    assert Lookup(AsWritten.params, "cb") == UndefinedValue;
    assert "s" !in OuterNames;
  }

  /** The loop as meant, from pass `i`, feeds the rest of the batch's rows
      through the single-row step. */
  lemma {:induction false} IntendedBatchFrom(accept: StopoverRow -> bool, tables: Tables, st: ParseState, batch: seq<Chunk>, i: nat)
    requires i <= |batch|
    ensures BatchFrom(accept, tables, st, batch, i, Intended) == ParseAll(accept, tables, st, Rows(batch)[i..])
    decreases |batch| - i
  {
    assert Lookup(Intended.params, "cb") == CallbackValue;
    if i < |batch| {
      var rows := Rows(batch);
      assert rows[i..][0] == batch[i].chunk && rows[i..][1..] == rows[i + 1..];
      assert Evaluate(Intended.arg, Intended.params, batch, i) == RowValue(batch[i].chunk);
      match OnStopover(accept, tables, st.stopovers, batch[i].chunk)
      case Err(fault) =>
      case Ok(groups) => IntendedBatchFrom(accept, tables, ParseState(groups, st.row + 1), batch, i + 1);
    }
  }

  /** The loop as meant is the stream of its rows: a batch delivers exactly
      what delivering its rows one at a time would, state or first error. */
  lemma IntendedBatchIsStream(accept: StopoverRow -> bool, tables: Tables, st: ParseState, batch: seq<Chunk>)
    ensures ParseStopoversIntended(accept, tables, st, batch) == ParseAll(accept, tables, st, Rows(batch))
  {
    IntendedBatchFrom(accept, tables, st, batch, 0);
    assert Rows(batch)[0..] == Rows(batch);
  }

  /** Two buffered rows of a known trip on a known service go through the
      single-row path and through the loop as meant, but the loop as written
      hands the stream no result at all. */
  lemma BatchAsWrittenRefusesValidRows()
    ensures
      var batch := [Chunk(StopoverRow("T1", "A", 1, 28800, 28800), "buffer"),
                    Chunk(StopoverRow("T1", "B", 2, 29400, 29400), "buffer")];
      var tables := Tables(map["T1" := Trip("S1", "R1")], map["S1" := [0]]);
      ParseAll(_ => true, tables, Initial, Rows(batch)).Ok? &&
      ParseStopoversIntended(_ => true, tables, Initial, batch) == ParseAll(_ => true, tables, Initial, Rows(batch)) &&
      ParseStopoversAsWritten(_ => true, tables, Initial, batch) == Err(Escaped(NotAFunction("cb")))
  {
    var batch := [Chunk(StopoverRow("T1", "A", 1, 28800, 28800), "buffer"),
                  Chunk(StopoverRow("T1", "B", 2, 29400, 29400), "buffer")];
    var tables := Tables(map["T1" := Trip("S1", "R1")], map["S1" := [0]]);
    var rows := Rows(batch);
    assert rows == [batch[0].chunk, batch[1].chunk];
    assert Resolves(tables, "T1");
    assert rows[1..][1..] == [];
    IntendedBatchIsStream(_ => true, tables, Initial, batch);
    AsWrittenBatchFails(_ => true, tables, Initial, batch);
  }
}
