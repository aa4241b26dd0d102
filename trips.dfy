/** The reduction of the trip table to the two columns the expansion uses. */
module Trips {
  import opened Types

  /** A trip record as the trip reader yields it: `service_id`, `route_id`
      and whatever other columns the feed has. */
  datatype RawTrip = RawTrip(serviceId: string, routeId: string, otherColumns: map<string, string>)

  /** The trip table after the reduction: the same trip IDs, each mapped to
      exactly its service and route. */
  function ReducedTrips(raw: map<string, RawTrip>): (trips: map<string, Trip>)
    ensures trips.Keys == raw.Keys
    ensures forall id :: id in raw ==>
      trips[id].serviceId == raw[id].serviceId && trips[id].routeId == raw[id].routeId
  {
    map id | id in raw :: Trip(raw[id].serviceId, raw[id].routeId)
  }

  /** The `for (let tripId in trips)` loop: every entry is overwritten by
      `{serviceId, routeId}`, in whatever order the keys are enumerated. */
  method ReduceTrips(raw: map<string, RawTrip>) returns (trips: map<string, Trip>)
    ensures trips.Keys == raw.Keys
    ensures forall id :: id in raw ==>
      trips[id].serviceId == raw[id].serviceId && trips[id].routeId == raw[id].routeId
    ensures trips == ReducedTrips(raw)
  {
    trips := map[];
    var pending := raw.Keys;
    while pending != {}
      invariant pending <= raw.Keys
      invariant trips.Keys == raw.Keys - pending
      invariant forall id :: id in trips ==> trips[id] == Trip(raw[id].serviceId, raw[id].routeId)
      decreases pending
    {
      var id :| id in pending;
      trips := trips[id := Trip(raw[id].serviceId, raw[id].routeId)];
      pending := pending - {id};
    }
  }
}
