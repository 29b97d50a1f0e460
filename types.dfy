/** The records and enumerations of the housing-search front end (types.ts),
    plus the Option/Result wrappers the model uses for optional fields and for
    external calls that may fail. */
module Types {

  datatype Option<+T> = None | Some(value: T)

  /** The outcome of an awaited external call: a value, or a thrown error
      carrying its `message`. */
  datatype Result<+T> = Ok(value: T) | Err(message: string)

  /** The five run phases (types.ts:2-8). */
  datatype AgentStatus = Idle | Strategizing | Hunting | Closing | Completed

  /** The outreach tag a listing carries. */
  datatype ListingStatus = New | Contacted | Replied | Rejected

  /** A discovered housing unit. Every field but `status` and `agentNote` is
      display text copied from the listing-discovery call. */
  datatype Listing = Listing(
    id: string,
    title: string,
    price: string,
    location: string,
    commuteTime: string,
    source: string,
    url: string,
    imageUrl: string,
    status: ListingStatus,
    agentNote: Option<string>)

  datatype Transport = Driving | Transit | Walking

  /** The user's query; `maxCommute` is a count of minutes. */
  datatype SearchQuery = SearchQuery(
    workLocation: string,
    budget: string,
    currency: string,
    transport: Transport,
    maxCommute: int)

  /** The `type` of a log entry (renamed `kind`: `type` is a Dafny keyword). */
  datatype LogType = Info | Success | Warning | Agent

  /** One line of the mission log; the timestamp is the formatted wall-clock
      reading taken when the entry was appended, kept as opaque text. */
  datatype AgentLog = AgentLog(timestamp: string, message: string, kind: LogType)
}
