/** The stopover parser as the source keeps it: a map of stopovers by trip ID
    and a row counter, both updated in place by each row the stream writes. */
module StopoverStream {
  import opened Types
  import opened Grouping

  class StopoverParser {
    const accept: StopoverRow -> bool   // `filters.stopover`
    const tables: Tables                 // the reduced trips and the services
    var stopovers: map<string, seq<Stopover>>
    var row: nat

    /** The state as the pure model of the stream sees it. */
    function State(): ParseState
      reads this
    {
      ParseState(stopovers, row)
    }

    constructor (accept: StopoverRow -> bool, tables: Tables)
      ensures this.accept == accept && this.tables == tables
      ensures State() == Initial
    {
      this.accept := accept;
      this.tables := tables;
      stopovers := map[];
      row := 0;
    }

    /** `onStopover`: an unresolved reference is reported and leaves the map
        as it was; otherwise the map becomes what `Grouping.OnStopover` says. */
    method OnStopover(s: StopoverRow) returns (fault: Option<Fault>)
      modifies this
      ensures row == old(row)
      ensures match Grouping.OnStopover(accept, tables, old(stopovers), s)
        case Ok(groups) => fault == None && stopovers == groups
        case Err(f) => fault == Some(f) && stopovers == old(stopovers)
    {
      fault := None;
      if !accept(s) {
        return;
      }
      if s.tripId !in tables.trips {
        return Some(UnknownTrip(s.tripId));
      }
      var trip := tables.trips[s.tripId];
      if trip.serviceId !in tables.services {
        return Some(UnknownService(trip.serviceId));
      }
      var annotated := Annotate(s, trip);
      if s.tripId !in stopovers {
        stopovers := stopovers[s.tripId := [annotated]];
      } else {
        stopovers := stopovers[s.tripId := stopovers[s.tripId] + [annotated]];
      }
    }

    /** `parseStopover` (the single-row `write`): the counter goes up by one
        whatever happens to the row; a fault comes back tagged with it. */
    method ParseStopover(s: StopoverRow) returns (err: Option<Error>)
      modifies this
      ensures row == old(row) + 1
      ensures match Grouping.ParseStopover(accept, tables, old(State()), s)
        case Ok(next) => err == None && State() == next
        case Err(e) => err == Some(e) && stopovers == old(stopovers)
    {
      row := row + 1;
      var fault := OnStopover(s);
      if fault.Some? {
        err := Some(RowError(fault.value, row));
      } else {
        err := None;
      }
    }

    /** `parseStopovers` (the batched `writev`) as it is evidently meant,
        `writev(stopovers, cb)`: the row of every buffered entry through the
        single-row step, stopping at the first error with that row's number. */
    method ParseStopovers(batch: seq<Chunk>) returns (err: Option<Error>)
      modifies this
      ensures match ParseAll(accept, tables, old(State()), Rows(batch))
        case Ok(next) => err == None && State() == next
        case Err(e) => err == Some(e)
    {
      ghost var rows := Rows(batch);
      var i := 0;
      err := None;
      while i < |batch|
        invariant 0 <= i <= |batch|
        invariant ParseAll(accept, tables, old(State()), rows[..i]) == Ok(State())
        invariant err == None
      {
        ghost var before := State();
        var s := batch[i].chunk;
        assert s == rows[i];
        ParseAllAppend(accept, tables, old(State()), rows[..i], [s]);
        assert rows[..i] + [s] == rows[..i + 1];
        assert [s][1..] == [];
        assert ParseAll(accept, tables, old(State()), rows[..i + 1]) ==
          match Grouping.ParseStopover(accept, tables, before, s)
          case Err(e) => Err(e)
          case Ok(next) => Ok(next);
        err := ParseStopover(s);
        if err.Some? {
          ParseAllAppend(accept, tables, old(State()), rows[..i + 1], rows[i + 1..]);
          assert rows[..i + 1] + rows[i + 1..] == rows;
          return;
        }
        i := i + 1;
      }
      assert rows[..i] == rows;
    }
  }
}
