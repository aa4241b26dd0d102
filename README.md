# Sorted connections of a GTFS feed, in Dafny

A model of `computeSortedConnections` from gtfs-utils. This function turns a
timetable into the departure-sorted list of connections that a
Connection-Scan router consumes. It works in four steps:

1. It checks its arguments: `readFile` must be a function and `filters` a
   non-null object that is not an array. Each of the `service`, `trip` and `stopover` predicates
   must be a function, and a missing one defaults to accept-all.
2. It reduces every trip record to `{serviceId, routeId}`.
3. It streams the `stop_times` rows. For each row it applies the stopover
   filter, resolves the trip and its service (an unknown one fails the call
   with the row's number, counted from 1), annotates the row and appends it
   to its trip's list.
4. For every trip it sorts the list by `stop_sequence`. For every day of the
   trip's service and every pair of adjacent stopovers, it inserts one
   connection into an AVL tree keyed by departure.

Modules, one per part of the source:

- `Types`: the records (rows, trips, stopovers, connections) and errors.
- `Config`: the argument checks and the defaulting of the filters.
- `Trips`: the reduction of the trip table.
- `Grouping`: the stopover stream as pure functions. `OnStopover` is one
  row's effect, `ParseStopover` adds the row counter, and `ParseAll` folds
  over the rows. The lemmas here state what the stream promises.
- `StopoverStream`: the parser as the source keeps it. It is a class whose
  `stopovers` map and `row` counter are updated in place, and its methods
  are proved against `Grouping`.
- `Sorting`: the `stop_sequence` comparator and the sort.
- `SortedIndex`: the AVL tree, seen through its in-order traversal. This is
  a list kept sorted by key, where each insertion adds exactly one entry.
- `Expansion`: the nested loops over trips, days and adjacent pairs, proved
  against a specification of the connections they emit.
- `Compute`: the whole function, and the one-trip example of a trip calling
  at A, B and C.

Time resolution is left abstract. Turning a service day and a time of day
into an instant is luxon's timezone arithmetic plus the `/ 1000 | 0`
truncation, and the model takes it as a parameter `resolve(day, seconds)`.
The table readers are also outside the model. Their results are
parameters: the trip records, the service days per service, and the
`stop_times` rows with their times already parsed to seconds.

## Model

| member | source | states |
|---|---|---|
| Config.TypeOf | compute-sorted-connections.js:95-108 | `typeof` is "function" exactly for functions, and "object" exactly for null, arrays and objects |
| Config.IsObj | compute-sorted-connections.js:12 | `isObj` holds exactly for an object value: not null, not an array, not a function (of type "function") |
| Config.Assign | compute-sorted-connections.js:100 | `Object.assign({}, noFilters, filters)` has the keys of both. A supplied property always wins, even one whose value is `undefined`, and a default fills only the keys that were not supplied |
| Config.ValidateConfig | compute-sorted-connections.js:94-109 | A non-function `readFile` is refused first, then a non-object `filters`. After that, a supplied predicate that is not a function is always refused, and the error names the first such predicate (service, trip, stopover). The call is accepted exactly when every supplied predicate is a function, and a predicate that was not supplied accepts every row |
| Trips.ReducedTrips | compute-sorted-connections.js:26-31 | The reduced table has the same trip IDs, each holding exactly its record's `service_id` and `route_id` |
| Trips.ReduceTrips | compute-sorted-connections.js:26-31 | The reduction loop keeps the set of trip IDs and overwrites every entry with `{serviceId, routeId}`, whatever order it visits them in |
| Grouping.OnStopover | compute-sorted-connections.js:34-48 | A row the filter rejects leaves the map unchanged. An accepted row fails exactly when its trip is unknown (`UnknownTrip`, checked first) or its trip's service is unknown (`UnknownService`). Otherwise it is appended at the end of its own trip's list, with `service_id` and `route_id` copied from the trip, and every other trip's list is unchanged |
| Grouping.ParseAllRowCount | compute-sorted-connections.js:50-63 | Of `ParseStopover` (one row through `parseStopover`: the counter, then `onStopover`, then the row-numbered error) and `ParseAll` (the rows one after the other): after n rows the counter has gone up by exactly n, whether each row was kept or rejected |
| Grouping.ParseAllAbortsAt | compute-sorted-connections.js:53-61 | Of `ParseAll` over `ParseStopover`: if every row before row k went through and row k is accepted but does not resolve, the whole stream fails with that row's fault, tagged with row k + 1 |
| Grouping.ParseAllErrorRow | compute-sorted-connections.js:53-61 | Conversely, every failure of the stream is a row error. It names the first row that is accepted and does not resolve, every row before it went through, and the tag is that row's number counted from 1 |
| Grouping.ParseAllKeys | compute-sorted-connections.js:42-47 | After a successful stream, a trip has a list exactly when it had one before or a row of it was kept, and every trip with a kept row is known and so is its service |
| Grouping.ParseAllGroups | compute-sorted-connections.js:42-47 | After a successful stream, each trip's list is its previous list followed by exactly the rows of that trip the filter kept, annotated from the trip table, in stream order |
| Grouping.ParsedTripsResolve | compute-sorted-connections.js:37-40 | Every trip that holds a list after a successful stream is known and so is its service, and its list is not empty: the lookups at lines 119-120 cannot miss |
| Grouping.ParseAllAppend | compute-sorted-connections.js:64-76 | Feeding `a` then `b` equals feeding `a + b`. A batch therefore behaves exactly like its rows fed one by one, and an error in `a` aborts before `b` |
| Grouping.AsWrittenBatchFails | compute-sorted-connections.js:64-76 | Of `ParseStopoversAsWritten`: lines 64-76 run as `writev(chunks, callback)` calls them, so `_` is the callback and `cb` is `undefined`, with the `const` counter and the argument `s` looked up among the names bound at line 68. No batch, empty or not, reaches the stream: on a non-empty one the ReferenceError for `s` is caught and tagged, and then `cb(err)` throws a TypeError out of `writev`. On an empty one the final `cb()` throws the same TypeError. The counter's update is never reached |
| Grouping.IntendedBatchIsStream | compute-sorted-connections.js:64-76 | Of `ParseStopoversIntended`, the same loop declared `(stopovers, cb)`, with a `let` counter and the argument `stopovers[i].chunk`: a batch gives exactly what its rows fed one at a time give, state or first error |
| Grouping.BatchAsWrittenRefusesValidRows | compute-sorted-connections.js:64-76 | Two buffered rows of a known trip on a known service go through the single-row path and through the loop as meant, while the loop as written ends in the TypeError for `cb` |
| StopoverStream.StopoverParser.constructor | compute-sorted-connections.js:33-50 | A new parser starts with an empty map and the row counter at 0 |
| StopoverStream.StopoverParser.OnStopover | compute-sorted-connections.js:34-48 | Updates the map in place exactly as `Grouping.OnStopover` says. On a fault it reports the fault and leaves the map as it was, and the counter never changes |
| StopoverStream.StopoverParser.ParseStopover | compute-sorted-connections.js:53-63 | The counter goes up by one for every row. The new state is the one `Grouping.ParseStopover` gives, or the error it gives tagged with the new counter |
| StopoverStream.StopoverParser.ParseStopovers | compute-sorted-connections.js:64-76 | The corrected batch path, which takes the row of every `{chunk, encoding}` entry, leaves the parser in the state `Grouping.ParseAll` gives for the batch's rows, or returns the error it gives |
| Sorting.CompareStopovers | compute-sorted-connections.js:92 | The comparator is negative, zero or positive exactly as the first stopover's `stop_sequence` is below, equal to or above the second's |
| Sorting.SortStopoversSorted | compute-sorted-connections.js:116 | Of `SortStopovers`, the `.sort` by the comparator: the sorted list has non-decreasing `stop_sequence` and is a permutation of the trip's list |
| SortedIndex.InsertEntryContents | compute-sorted-connections.js:131 | Of `InsertEntry`, one `insert` on the traversal: one insertion adds exactly its own entry, so nothing is lost or overwritten, equal keys included, and entries keyed by their departure stay so |
| SortedIndex.InsertEntrySorted | compute-sorted-connections.js:131 | An insertion keeps the in-order traversal sorted by key |
| SortedIndex.InsertAllIndex | compute-sorted-connections.js:113-143 | Of `InsertAll`, the insertions one after the other: inserting connections in any order into an empty tree gives a traversal that is sorted by key, with each entry keyed by its connection's departure. Departures never decrease from one connection to the next, and the traversal holds exactly the inserted connections as a multiset |
| SortedIndex.Tree.constructor | compute-sorted-connections.js:113 | `new AVLTree()` is an empty tree |
| SortedIndex.Tree.Insert | compute-sorted-connections.js:131-138 | `insert(dep, connection)` keeps the tree sorted and adds the entry to its traversal |
| Expansion.Enumerate | compute-sorted-connections.js:115 | `for (const tripId in allStopovers)` visits every trip ID exactly once |
| Expansion.TripConnectionsCount | compute-sorted-connections.js:122-126 | Of `TripConnections` (the day loop) over `DayConnections` (the `j` loop): a trip with K stopovers on a service of D days yields exactly D × (K − 1) connections, and none when K ≤ 1 |
| Expansion.TripConnectionsAt | compute-sorted-connections.js:126-138 | Of `TripConnections` over `DayConnections`: connection number i × (K − 1) + j of a trip is the one for service day i. It goes from stopover j's stop to stopover j + 1's stop, departs at stopover j's departure and arrives at stopover j + 1's arrival, both resolved on that day, and carries the trip's route and service |
| Expansion.AllConnectionsCount | compute-sorted-connections.js:115-141 | Of `AllConnections` (the trip loop, each list sorted first): all trips together yield the sum of their days × pairs |
| Expansion.InsertDay | compute-sorted-connections.js:125-139 | The loop over `j` inserts each adjacent pair's connection under its departure, in order |
| Expansion.InsertTrip | compute-sorted-connections.js:122-140 | The loop over the days inserts each day's connections in turn |
| Expansion.Expand | compute-sorted-connections.js:113-143 | The nested loops build a fresh, sorted tree. Its traversal is the insertion, one after the other, of every connection of every trip, with each list sorted first, in the order the trips are visited. Its connections come out with non-decreasing departures and are exactly those connections as a multiset |
| Compute.ComputeSortedConnections | compute-sorted-connections.js:94-145 | A refused configuration fails before any row is read. Otherwise the first row that does not resolve fails the call with its row number, and no tree is returned. Otherwise every grouped trip resolves, the tree is the one `Expansion.Expand` builds from the groups, its connections come out with non-decreasing departures, and they are exactly the connections of every trip as a multiset |
| Compute.PumpRows | compute-sorted-connections.js:79-88 | `pump` feeding the `stop_times` rows through the single-row `write` leaves the parser in the state `Grouping.ParseAll` gives for the rows, or stops with the error it gives |
| Compute.UnknownTripFailsAtRowOne | compute-sorted-connections.js:37-60 | A single row naming an unknown trip fails the stream with `UnknownTrip` and row 1 |
| Compute.ExampleGroups | compute-sorted-connections.js:34-54 | In the one-trip example, with any stopover filter that accepts every row, the three rows are grouped under T1 in stream order and the counter reaches 3 |
| Compute.ExampleConnections | compute-sorted-connections.js:115-141 | The example's group yields exactly A→B and B→C, with instants resolved on the service day, both tagged R1 and S1 |
| Compute.OneKeyEnumeration | compute-sorted-connections.js:115 | `for ... in` over an object with a single key visits exactly that key |
| Compute.ExampleRun | compute-sorted-connections.js:94-145 | The whole function on the example (a function for `readFile`, no filters, a trip record with an extra column, rows out of sequence order) succeeds, and its tree holds exactly A→B and B→C |

## Left out

- Streams and concurrency: `pump`, `Writable`, backpressure and the joint
  `Promise.all` of the two readers. The rows are a finite sequence consumed
  in order. A failure of the row source or of either reader (an upstream
  read error) is not modelled. A refused configuration is thrown
  synchronously, before any promise exists (lines 95-108), while a row error
  rejects the returned promise (line 84); the model returns both as one
  `Result`.
- `readServicesAndExceptions`, `readTrips` and `parseTime` are not part of
  this model. Their results are parameters, so `filters.service` and
  `filters.trip`, which are handed to those readers, are only checked to be
  functions here.
- Time resolution: luxon's timezone and daylight-saving arithmetic, and the
  `/ 1000 | 0` truncation, are the `resolve` parameter. Nothing is proved
  about daylight-saving transitions.
- `SortedIndex.InsertEntry`: the AVL tree's rebalancing is not modelled. Its
  in-order traversal is. Among equal departures the model puts a new entry
  ahead of the existing ones (the tree descends left on equal keys). That
  order belongs to the `avl` package, which is not part of this model, and
  no property here depends on it.
- `Expansion.Enumerate`: the order of `for ... in` is any listing of the
  keys. JavaScript's own order (integer-like keys first) is not modelled. It
  only affects the order among connections with equal departures.
- `Sorting.SortStopovers`: `Array.prototype.sort` sorts the trip's array in
  place. The model sorts a value with a stable insertion sort, and proves
  sortedness and permutation but not stability. A `stop_sequence` that
  `parseInt` turns into `NaN` is not modelled: rows carry integers.
- The row object is annotated in place in the source (`s.service_id = ...`).
  The model builds a new annotated value instead, so aliasing with the
  caller's row object is not captured.
- The trip reduction overwrites the trip table `readTrips` returned in
  place. The model builds a new map with the same keys.
- The `allStopovers[tripId] = null` memory hint at line 117, and the text of
  the error messages (the model keeps their kind, the missing identifier
  and the row number).
- `Grouping.OnStopover`: the stopover filter is a total predicate on the
  row's five modelled fields. In the source it receives the raw row object,
  with every column of `stop_times` and `stop_sequence` and the times still
  strings, so a filter reading any other column is not expressible; and an
  exception the filter throws, which the `catch` at lines 55-60 tags with the
  row number like any other, is not modelled.
- `Grouping.BatchFrom`: a batch loop whose argument is bound to something
  other than a stopover row (an `{chunk, encoding}` entry, say) ends in the
  error `ForeignArgument`; what `onStopover` would do with such a value is
  not modelled. Neither the loop as written nor the loop as meant reaches
  it. The `writev(chunks, callback)` calling convention and the shape of
  its entries are the stream library's, which is not part of this model.
  An error thrown out of `writev` is modelled as `Escaped`; what the stream
  machinery then does with it is not modelled.
- JavaScript values in `Config.Value`: a function is represented by how it
  answers for a stopover row. The source checks only `typeof`, not arity,
  so the model checks nothing more. Looking up `trips[s.trip_id]` on an
  object that inherits properties such as `constructor` is not modelled.
  Objects are record-like only: `isObj` also accepts a `Map`, a `Date` or a
  class instance, which `Config.Value` does not represent.

## Findings

| source | as written | input that shows it | evidently intended | confidence | as-written member | corrected member |
|---|---|---|---|---|---|---|
| compute-sorted-connections.js:64-76 | The batched `writev` is declared `(stopovers, _, cb)`, declares its loop counter `const` and calls `onStopover(s)`. No `s` is bound in scope, and `writev(chunks, callback)` leaves `cb` undefined. The first row of any non-empty batch therefore raises a ReferenceError, which the `catch` tags with that row's number, and then `cb(err)` throws a TypeError out of `writev`, so the stream never gets the row's error | A batch of two rows of trip T1 (service S1, running on one day) with an accept-all filter. They go through the single-row path, and the batch path ends in the TypeError for `cb` (`Grouping.BatchAsWrittenRefusesValidRows`). A `Writable` hands over a batch only when at least two writes are buffered, which with the synchronous `write` here means a corked stream | `writev(stopovers, cb)` hands each entry's `chunk` to `onStopover` in turn, with the same row-numbered errors as the single-row path | high; not executed | Grouping.ParseStopoversAsWritten | StopoverStream.StopoverParser.ParseStopovers |
