/** The records that flow through the computation of sorted connections. */
module Types {

  datatype Option<T> = None | Some(value: T)

  datatype Result<T, E> = Ok(value: T) | Err(error: E)

  /** One row of `stop_times` as the stopover filter sees it. The times are
      seconds since local midnight, as `parseTime` yields them (they may be
      86400 or more for trips running past midnight). */
  datatype StopoverRow = StopoverRow(
    tripId: string,
    stopId: string,
    stopSequence: int,
    arrivalTime: int,
    departureTime: int)

  /** One buffered write as `writev` receives it: `{chunk, encoding}`. */
  datatype Chunk = Chunk(chunk: StopoverRow, encoding: string)

  /** A trip as kept after the reduction of the trip table. */
  datatype Trip = Trip(serviceId: string, routeId: string)

  /** A stopover row annotated with its trip's service and route. */
  datatype Stopover = Stopover(
    tripId: string,
    stopId: string,
    stopSequence: int,
    arrivalTime: int,
    departureTime: int,
    serviceId: string,
    routeId: string)

  /** One hop between two consecutive stops of one trip on one service day. */
  datatype Connection = Connection(
    fromStop: string,
    departure: int,
    toStop: string,
    arrival: int,
    routeId: string,
    serviceId: string)

  /** Why a stopover could not be resolved. */
  datatype Fault = UnknownTrip(tripId: string) | UnknownService(serviceId: string)

  /** Why the configuration was refused. */
  datatype ConfigFault = ReadFileNotFunction | FiltersNotObject | FilterNotFunction(name: string)

  /** An error the engine throws while running the source. */
  datatype Thrown = ReferenceError(name: string) | NotAFunction(name: string) | NotAssignable(name: string)

  datatype Error =
    | ConfigError(config: ConfigFault)
    | RowError(fault: Fault, row: nat)   // `row` counts the rows of stop_times from 1
    | Caught(thrown: Thrown, row: nat)   // thrown inside a `try`, tagged like a row error
    | ForeignArgument(row: nat)          // `onStopover` handed a value that is not a stopover row
    | Escaped(thrown: Thrown)            // thrown out of `parseStopovers` instead of reaching its callback
}
