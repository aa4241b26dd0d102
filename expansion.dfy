/** The expansion of the grouped stopovers into connections: for every trip
    (its stopovers sorted by `stop_sequence`), for every day of its service
    and for every pair of adjacent stopovers, one connection inserted into
    `byDeparture`. Turning a service day and a time of day into an instant
    (luxon's `DateTime.fromMillis(...).plus(...)`, then `/ 1000 | 0`) is the
    parameter `resolve`. */
module Expansion {
  import opened Types
  import opened Grouping
  import opened Sorting
  import opened SortedIndex

  /** The number of adjacent pairs in a list of `n` stopovers. */
  function PairCount(n: nat): nat {
    if n == 0 then 0 else n - 1
  }

  /** The connection from stopover `j` to stopover `j + 1` on `day`. */
  function ConnectionAt(stopovers: seq<Stopover>, j: nat, day: int, trip: Trip, resolve: (int, int) -> int): Connection
    requires j + 1 < |stopovers|
  {
    Connection(
      stopovers[j].stopId, resolve(day, stopovers[j].departureTime),
      stopovers[j + 1].stopId, resolve(day, stopovers[j + 1].arrivalTime),
      trip.routeId, trip.serviceId)
  }

  /** The inner loop over `j`: one connection per adjacent pair, in order. */
  function DayConnections(stopovers: seq<Stopover>, day: int, trip: Trip, resolve: (int, int) -> int): seq<Connection> {
    seq(PairCount(|stopovers|), j requires 0 <= j < PairCount(|stopovers|) => ConnectionAt(stopovers, j, day, trip, resolve))
  }

  /** The loop over the days: the day connections of each day in turn. */
  function TripConnections(stopovers: seq<Stopover>, days: seq<int>, trip: Trip, resolve: (int, int) -> int): seq<Connection>
    decreases |days|
  {
    if days == [] then []
    else TripConnections(stopovers, days[..|days| - 1], trip, resolve) + DayConnections(stopovers, days[|days| - 1], trip, resolve)
  }

  /** One trip's connections: its list sorted first, then its service days
      and its route looked up. */
  function ConnectionsOfTrip(groups: map<string, seq<Stopover>>, tables: Tables, tripId: string, resolve: (int, int) -> int): seq<Connection>
    requires tripId in groups && Resolves(tables, tripId)
  {
    var trip := tables.trips[tripId];
    TripConnections(SortStopovers(groups[tripId]), tables.services[trip.serviceId], trip, resolve)
  }

  /** The loop over the trips, in the order `order` lists them. */
  function AllConnections(groups: map<string, seq<Stopover>>, tables: Tables, order: seq<string>, resolve: (int, int) -> int): seq<Connection>
    requires forall t :: t in order ==> t in groups && Resolves(tables, t)
    decreases |order|
  {
    if order == [] then []
    else AllConnections(groups, tables, order[..|order| - 1], resolve) + ConnectionsOfTrip(groups, tables, order[|order| - 1], resolve)
  }

  /** The number of connections one trip contributes: its number of service
      days times its number of adjacent pairs. */
  function TripCount(groups: map<string, seq<Stopover>>, tables: Tables, tripId: string): nat
    requires tripId in groups && Resolves(tables, tripId)
  {
    |tables.services[tables.trips[tripId].serviceId]| * PairCount(|groups[tripId]|)
  }

  /** The number of connections the trips of `order` contribute together. */
  function ConnectionCount(groups: map<string, seq<Stopover>>, tables: Tables, order: seq<string>): nat
    requires forall t :: t in order ==> t in groups && Resolves(tables, t)
    decreases |order|
  {
    if order == [] then 0
    else ConnectionCount(groups, tables, order[..|order| - 1]) + TripCount(groups, tables, order[|order| - 1])
  }

  /** `for (const tripId in allStopovers)` visits every key once. */
  ghost predicate IsEnumeration(order: seq<string>, keys: set<string>) {
    (forall t :: t in order <==> t in keys) &&
    (forall i, j :: 0 <= i < j < |order| ==> order[i] != order[j])
  }

  /** The keys in the order a `for ... in` loop visits them; the order
      is the engine's choice, and the model takes any. */
  method Enumerate(keys: set<string>) returns (order: seq<string>)
    ensures IsEnumeration(order, keys)
  {
    order := [];
    var pending := keys;
    while pending != {}
      invariant pending <= keys
      invariant forall t :: t in order <==> t in keys && t !in pending
      invariant forall i, j :: 0 <= i < j < |order| ==> order[i] != order[j]
      decreases pending
    {
      var t :| t in pending;
      order := order + [t];
      pending := pending - {t};
    }
  }

  /** A trip with K stopovers on a service of D days yields exactly D * (K - 1)
      connections, and none when K <= 1. */
  lemma {:induction false} TripConnectionsCount(stopovers: seq<Stopover>, days: seq<int>, trip: Trip, resolve: (int, int) -> int)
    ensures |TripConnections(stopovers, days, trip, resolve)| == |days| * PairCount(|stopovers|)
    ensures |stopovers| <= 1 ==> TripConnections(stopovers, days, trip, resolve) == []
    decreases |days|
  {
    if days != [] {
      TripConnectionsCount(stopovers, days[..|days| - 1], trip, resolve);
      assert |days| * PairCount(|stopovers|) == (|days| - 1) * PairCount(|stopovers|) + PairCount(|stopovers|);
    }
  }

  /** Connection number i * (K - 1) + j of a trip goes, on service day i, from
      stopover j to stopover j + 1: their stops, the departure of the first
      and the arrival of the second resolved on that day, and the trip's
      route and service. With the count above, these are all of them. */
  lemma {:induction false} TripConnectionsAt(stopovers: seq<Stopover>, days: seq<int>, trip: Trip, resolve: (int, int) -> int, i: nat, j: nat)
    requires i < |days| && j + 1 < |stopovers|
    ensures i * (|stopovers| - 1) + j < |TripConnections(stopovers, days, trip, resolve)|
    ensures
      var c := TripConnections(stopovers, days, trip, resolve)[i * (|stopovers| - 1) + j];
      c.fromStop == stopovers[j].stopId && c.toStop == stopovers[j + 1].stopId &&
      c.departure == resolve(days[i], stopovers[j].departureTime) &&
      c.arrival == resolve(days[i], stopovers[j + 1].arrivalTime) &&
      c.routeId == trip.routeId && c.serviceId == trip.serviceId
    decreases |days|
  {
    var n := |days|;
    var pairs := |stopovers| - 1;
    var init := days[..n - 1];
    TripConnectionsCount(stopovers, init, trip, resolve);
    TripConnectionsCount(stopovers, days, trip, resolve);
    var before := TripConnections(stopovers, init, trip, resolve);
    var last := DayConnections(stopovers, days[n - 1], trip, resolve);
    assert TripConnections(stopovers, days, trip, resolve) == before + last;
    assert |before| == (n - 1) * pairs;
    if i == n - 1 {
      assert i * pairs + j == |before| + j;
      assert (before + last)[|before| + j] == last[j];
    } else {
      TripConnectionsAt(stopovers, init, trip, resolve, i, j);
      assert init[i] == days[i];
      assert (before + last)[i * pairs + j] == before[i * pairs + j];
    }
  }

  /** The trips of `order` together yield exactly `ConnectionCount`
      connections. */
  lemma {:induction false} AllConnectionsCount(groups: map<string, seq<Stopover>>, tables: Tables, order: seq<string>, resolve: (int, int) -> int)
    requires forall t :: t in order ==> t in groups && Resolves(tables, t)
    ensures |AllConnections(groups, tables, order, resolve)| == ConnectionCount(groups, tables, order)
    decreases |order|
  {
    if order != [] {
      var t := order[|order| - 1];
      AllConnectionsCount(groups, tables, order[..|order| - 1], resolve);
      SortStopoversSorted(groups[t]);
      TripConnectionsCount(SortStopovers(groups[t]), tables.services[tables.trips[t].serviceId], tables.trips[t], resolve);
    }
  }

  /** The loop over `j` for one day: each adjacent pair's connection
      inserted under its departure. */
  method InsertDay(byDeparture: Tree, stopovers: seq<Stopover>, day: int, trip: Trip, resolve: (int, int) -> int,
                   ghost emitted: seq<Connection>)
    requires byDeparture.Valid() && byDeparture.entries == InsertAll(emitted)
    modifies byDeparture
    ensures byDeparture.Valid()
    ensures byDeparture.entries == InsertAll(emitted + DayConnections(stopovers, day, trip, resolve))
  {
    ghost var done := emitted;
    var maxJ := |stopovers| - 1;
    var j := 0;
    while j < maxJ
      invariant 0 <= j <= PairCount(|stopovers|)
      invariant byDeparture.Valid()
      invariant done == emitted + DayConnections(stopovers, day, trip, resolve)[..j]
      invariant byDeparture.entries == InsertAll(done)
    {
      var s1 := stopovers[j];
      var s2 := stopovers[j + 1];
      var dep := resolve(day, s1.departureTime);
      var c := Connection(s1.stopId, dep, s2.stopId, resolve(day, s2.arrivalTime), trip.routeId, trip.serviceId);
      byDeparture.Insert(dep, c);
      InsertAllSnoc(done, c);
      assert DayConnections(stopovers, day, trip, resolve)[..j + 1] == DayConnections(stopovers, day, trip, resolve)[..j] + [c];
      done := done + [c];
      j := j + 1;
    }
    assert DayConnections(stopovers, day, trip, resolve)[..j] == DayConnections(stopovers, day, trip, resolve);
  }

  /** The loop over the service days of one trip. */
  method InsertTrip(byDeparture: Tree, stopovers: seq<Stopover>, days: seq<int>, trip: Trip, resolve: (int, int) -> int,
                    ghost emitted: seq<Connection>)
    requires byDeparture.Valid() && byDeparture.entries == InsertAll(emitted)
    modifies byDeparture
    ensures byDeparture.Valid()
    ensures byDeparture.entries == InsertAll(emitted + TripConnections(stopovers, days, trip, resolve))
  {
    assert days[..0] == [] && emitted + [] == emitted;
    var i := 0;
    while i < |days|
      invariant 0 <= i <= |days|
      invariant byDeparture.Valid()
      invariant byDeparture.entries == InsertAll(emitted + TripConnections(stopovers, days[..i], trip, resolve))
    {
      InsertDay(byDeparture, stopovers, days[i], trip, resolve, emitted + TripConnections(stopovers, days[..i], trip, resolve));
      assert days[..i + 1][..i] == days[..i];
      assert TripConnections(stopovers, days[..i + 1], trip, resolve) ==
        TripConnections(stopovers, days[..i], trip, resolve) + DayConnections(stopovers, days[i], trip, resolve);
      assert emitted + TripConnections(stopovers, days[..i + 1], trip, resolve) ==
        (emitted + TripConnections(stopovers, days[..i], trip, resolve)) + DayConnections(stopovers, days[i], trip, resolve);
      i := i + 1;
    }
    assert days[..i] == days;
  }

  /** The loops of `computeSortedConnections` over the trips, their days and
      their adjacent stopover pairs, inserting each connection into a fresh
      tree keyed by its departure. */
  method Expand(groups: map<string, seq<Stopover>>, tables: Tables, order: seq<string>, resolve: (int, int) -> int)
    returns (byDeparture: Tree)
    requires IsEnumeration(order, groups.Keys)
    requires forall t :: t in groups ==> Resolves(tables, t)
    ensures fresh(byDeparture) && byDeparture.Valid()
    ensures byDeparture.entries == InsertAll(AllConnections(groups, tables, order, resolve))
    ensures forall k :: 0 <= k < |byDeparture.Values()| - 1 ==>
              byDeparture.Values()[k].departure <= byDeparture.Values()[k + 1].departure
    ensures multiset(byDeparture.Values()) == multiset(AllConnections(groups, tables, order, resolve))
  {
    byDeparture := new Tree();
    var k := 0;
    while k < |order|
      invariant 0 <= k <= |order|
      invariant fresh(byDeparture) && byDeparture.Valid()
      invariant byDeparture.entries == InsertAll(AllConnections(groups, tables, order[..k], resolve))
    {
      var tripId := order[k];
      var stopovers := SortStopovers(groups[tripId]);
      var trip := tables.trips[tripId];
      var days := tables.services[trip.serviceId];
      InsertTrip(byDeparture, stopovers, days, trip, resolve, AllConnections(groups, tables, order[..k], resolve));
      assert order[..k + 1][..k] == order[..k];
      assert AllConnections(groups, tables, order[..k + 1], resolve) ==
        AllConnections(groups, tables, order[..k], resolve) + ConnectionsOfTrip(groups, tables, tripId, resolve);
      k := k + 1;
    }
    assert order[..k] == order;
    InsertAllIndex(AllConnections(groups, tables, order, resolve));
  }
}
