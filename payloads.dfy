/** The JSON shapes the providers return, as records with optional fields,
    and the outcomes of a provider call. */
module Payloads {

  import opened Wrappers

  /** A JSON object field as Python's `dict.get` sees it: the key may be missing,
      present with `null`, or present with a value. */
  datatype Field<+T> = Absent | Null | Present(value: T)

  /** `d.get(key, default)`: the default only when the key is missing; `None` for a JSON null. */
  function GetOr<T>(f: Field<T>, default: Option<T>): Option<T>
  {
    match f
    case Absent => default
    case Null => None
    case Present(v) => Some(v)
  }

  /** `d.get(key)`. */
  function Get<T>(f: Field<T>): Option<T>
  {
    GetOr(f, None)
  }

  /** `d.get(a) or d.get(b)` for string fields: the first value unless it is missing, null or empty. */
  function TextOr(a: Field<string>, b: Field<string>): Option<string>
  {
    if a.Present? && a.value != "" then Some(a.value) else Get(b)
  }

  /** Python truthiness of an optional string: present and non-empty. */
  predicate Truthy(s: Option<string>)
  {
    s.Some? && s.value != ""
  }

  /** An opaque JSON value: payload parts this layer passes through without reading. */
  datatype Json =
    | JNull
    | JBool(b: bool)
    | JInt(i: int)
    | JText(s: string)
    | JArray(items: seq<Json>)
    | JObject(fields: map<string, Json>)

  // ---------------------------------------------------------------------------
  // Rail boards (Darwin and Huxley share the shape)
  // ---------------------------------------------------------------------------

  /** An entry of `destination` or `origin`. */
  datatype Location = Location(locationName: Field<string>, crs: Field<string>)

  /** An entry of a `callingPoint` list. */
  datatype CallingPoint = CallingPoint(
    locationName: Field<string>,
    crs: Field<string>,
    st: Field<string>,
    et: Field<string>)

  /** An entry of `subsequentCallingPoints`. */
  datatype CallingPointList = CallingPointList(callingPoint: Field<seq<CallingPoint>>)

  /** An entry of `trainServices`. An entry of `subsequentCallingPoints` may be a JSON null (`None`). */
  datatype Service = Service(
    std: Field<string>,
    sta: Field<string>,
    etd: Field<string>,
    eta: Field<string>,
    platform: Field<string>,
    operator: Field<string>,
    operatorCode: Field<string>,
    isCancelled: Field<bool>,
    cancelReason: Field<string>,
    delayReason: Field<string>,
    destination: Field<seq<Location>>,
    origin: Field<seq<Location>>,
    subsequentCallingPoints: Field<seq<Option<CallingPointList>>>)

  /** A departure or arrival board. `otherKeys` names the keys of the JSON object
      that nothing here reads; they matter only for the object's truthiness. */
  datatype Board = Board(
    locationName: Field<string>,
    crs: Field<string>,
    generatedAt: Field<string>,
    nrccMessages: Field<seq<Json>>,
    platformAvailable: Field<bool>,
    areServicesAvailable: Field<bool>,
    trainServices: Field<seq<Service>>,
    otherKeys: set<string>)

  /** The `{}` a provider client returns on failure. */
  const EmptyBoard := Board(Absent, Absent, Absent, Absent, Absent, Absent, Absent, {})

  /** Python truthiness of the board's JSON object: it has at least one key. */
  predicate NonEmpty(b: Board)
  {
    || !b.locationName.Absent? || !b.crs.Absent? || !b.generatedAt.Absent?
    || !b.nrccMessages.Absent? || !b.platformAvailable.Absent?
    || !b.areServicesAvailable.Absent? || !b.trainServices.Absent?
    || b.otherKeys != {}
  }

  lemma EmptyBoardIsFalsy()
    ensures !NonEmpty(EmptyBoard)
    ensures forall b :: !NonEmpty(b) ==> b == EmptyBoard
  {
  }

  // ---------------------------------------------------------------------------
  // TfL Unified API
  // ---------------------------------------------------------------------------

  /** An entry of a line's `lineStatuses`. */
  datatype LineStatus = LineStatus(
    statusSeverity: Option<int>,
    statusSeverityDescription: Field<string>,
    reason: Field<string>)

  /** One line of a `Line/{ids}/Status` answer. */
  datatype Line = Line(
    id: Field<string>,
    name: Field<string>,
    modeName: Field<string>,
    lineStatuses: Option<seq<LineStatus>>)

  /** One prediction of a `StopPoint/{id}/Arrivals` answer. */
  datatype Arrival = Arrival(
    lineName: Field<string>,
    destinationName: Option<string>,
    expectedArrival: Option<string>,
    timeToStation: Option<int>,
    towards: Field<string>,
    vehicleId: Field<string>,
    platformName: Field<string>,
    currentLocation: Field<string>,
    direction: Field<string>)

  // ---------------------------------------------------------------------------
  // Outcomes
  // ---------------------------------------------------------------------------

  /** What one HTTP GET gave: a status and a body that parsed as the expected JSON
      (`None` when `response.json()` raised), or a transport error. */
  datatype Http<+T> = Reply(status: int, body: Option<T>) | TransportError(message: string)

  /** The outcome of a Python call: the value it returned, or the text of the exception it raised. */
  datatype Attempt<+T> = Returned(value: T) | Raised(message: string)
}
