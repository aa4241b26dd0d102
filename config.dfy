/** The checks `computeSortedConnections` makes of its arguments before any
    table is read, and the defaulting of the filter predicates. */
module Config {
  import opened Types

  /** The JavaScript values the checks can meet. A function is modelled by
      how it answers for a stopover row: that is the only call the core makes
      of a predicate itself (the service and trip predicates are handed to
      the table readers, so for them only being callable matters). */
  datatype Value =
    | Undefined
    | Null
    | Boolean(b: bool)
    | Number(n: int)
    | Str(s: string)
    | Array(elements: seq<Value>)
    | Object(properties: map<string, Value>)
    | Function(call: StopoverRow -> bool)

  /** JavaScript's `typeof`. */
  function TypeOf(v: Value): (r: string)
    ensures r == "function" <==> v.Function?
    ensures r == "object" <==> v.Null? || v.Array? || v.Object?
  {
    match v
    case Undefined => "undefined"
    case Null => "object"
    case Boolean(_) => "boolean"
    case Number(_) => "number"
    case Str(_) => "string"
    case Array(_) => "object"
    case Object(_) => "object"
    case Function(_) => "function"
  }

  /** `isObj`: of type "object", not null and not an array. `Value` has
      only record-like objects, so a `Map`, a `Date` or a class instance is
      not represented. */
  function IsObj(v: Value): (r: bool)
    ensures r <==> v.Object?
  {
    TypeOf(v) == "object" && !v.Null? && !v.Array?
  }

  const AcceptAll: StopoverRow -> bool := _ => true

  /** `noFilters`: every predicate accepts everything. */
  const NoFilters: map<string, Value> :=
    map["service" := Function(AcceptAll), "trip" := Function(AcceptAll), "stopover" := Function(AcceptAll)]

  /** The predicates in the order they are checked. */
  const FilterNames: seq<string> := ["service", "trip", "stopover"]

  /** `Object.assign({}, defaults, given)`: every own property of `given`
      wins, including one whose value is `undefined`. */
  function Assign(defaults: map<string, Value>, given: map<string, Value>): (merged: map<string, Value>)
    ensures merged.Keys == defaults.Keys + given.Keys
    ensures forall k :: k in given ==> merged[k] == given[k]
    ensures forall k :: k in defaults && k !in given ==> merged[k] == defaults[k]
  {
    defaults + given
  }

  /** The three predicates once the configuration is accepted. The source
      hands `service` a service record and `trip` a trip record, inside the
      table readers, which are not part of this model; they are typed like
      the stopover predicate only because the core never calls them, and
      only whether they are callable matters here. */
  datatype Filters = Filters(
    service: StopoverRow -> bool,
    trip: StopoverRow -> bool,
    stopover: StopoverRow -> bool)

  /** A predicate the caller either left out or supplied as a function. */
  predicate Callable(filters: map<string, Value>, name: string) {
    name !in filters || filters[name].Function?
  }

  /** The predicate in effect for `name`: the supplied one, or accept-all. */
  predicate Effective(filters: map<string, Value>, name: string, s: StopoverRow) {
    if name in filters && filters[name].Function? then filters[name].call(s) else true
  }

  function ValidateConfig(readFile: Value, filters: Value): (r: Result<Filters, ConfigFault>)
    // readFile is checked first, then the shape of filters
    ensures !readFile.Function? ==> r == Err(ReadFileNotFunction)
    ensures readFile.Function? && !filters.Object? ==> r == Err(FiltersNotObject)
    // accepted exactly when every supplied predicate is a function
    ensures r.Ok? <==>
      readFile.Function? && filters.Object? &&
      forall k :: k in FilterNames ==> Callable(filters.properties, k)
    // a supplied predicate that is not a function is refused
    ensures readFile.Function? && filters.Object? &&
            !(forall k :: k in FilterNames ==> Callable(filters.properties, k)) ==>
              r.Err? && r.error.FilterNotFunction?
    // a refused predicate is the first of service, trip, stopover that was supplied and is not a function
    ensures r.Err? && r.error.FilterNotFunction? ==>
      readFile.Function? && filters.Object? &&
      exists i :: 0 <= i < |FilterNames| && r.error.name == FilterNames[i] &&
        !Callable(filters.properties, FilterNames[i]) &&
        forall j :: 0 <= j < i ==> Callable(filters.properties, FilterNames[j])
    // predicates that are not supplied accept everything
    ensures r.Ok? ==> forall s :: r.value.stopover(s) == Effective(filters.properties, "stopover", s)
    ensures r.Ok? ==> forall s :: r.value.service(s) == Effective(filters.properties, "service", s)
    ensures r.Ok? ==> forall s :: r.value.trip(s) == Effective(filters.properties, "trip", s)
  {
    if TypeOf(readFile) != "function" then Err(ReadFileNotFunction)
    else if !IsObj(filters) then Err(FiltersNotObject)
    else
      var merged := Assign(NoFilters, filters.properties);
      assert FilterNames[0] == "service" && FilterNames[1] == "trip" && FilterNames[2] == "stopover";
      assert NoFilters["service"].Function? && NoFilters["trip"].Function? && NoFilters["stopover"].Function?;
      if TypeOf(merged["service"]) != "function" then
        assert !Callable(filters.properties, FilterNames[0]);
        Err(FilterNotFunction("service"))
      else if TypeOf(merged["trip"]) != "function" then
        assert !Callable(filters.properties, FilterNames[1]);
        Err(FilterNotFunction("trip"))
      else if TypeOf(merged["stopover"]) != "function" then
        assert !Callable(filters.properties, FilterNames[2]);
        Err(FilterNotFunction("stopover"))
      else Ok(Filters(merged["service"].call, merged["trip"].call, merged["stopover"].call))
  }
}
