/** The integration's constants and the shape of a configuration entry's data. */
module Const {

  import opened Wrappers

  const Domain := "tfl_local_transport"

  const DefaultNumDepartures := 10
  const DefaultTimeWindow := 120
  /** Seconds between polls of the rail departure and arrival feeds. */
  const DefaultUpdateInterval := 120

  const TflApiBase := "https://api.tfl.gov.uk"
  const DarwinApiBase := "https://api1.raildata.org.uk/1010-live-departure-board-dep1_2/LDBWS/api/20220120"
  const HuxleyApiBase := "https://huxley2.azurewebsites.net"

  const GroveParkCrs := "GRP"

  /** Bus stops monitored when none are configured. */
  const DefaultBusStops := ["490001124E", "490015256D"]

  /** The keys of the London terminals table, in their declared order. */
  const LondonTerminalCodes := ["CHX", "CST", "VIC", "LBG", "WAT", "WAE", "STP"]

  /** `LONDON_TERMINALS.get(code, code)`. */
  function TerminalName(code: string): string
  {
    match code
    case "CHX" => "London Charing Cross"
    case "CST" => "London Cannon Street"
    case "VIC" => "London Victoria"
    case "LBG" => "London Bridge"
    case "WAT" => "London Waterloo"
    case "WAE" => "London Waterloo East"
    case "STP" => "St Pancras International"
    case _ => code
  }

  /** The data of a configuration entry (and the user input it is built from):
      each key may be missing (`None`). */
  datatype EntryData = EntryData(
    stationCrs: Option<string>,
    darwinApiKey: Option<string>,
    tflAppKey: Option<string>,
    destinations: Option<seq<string>>,
    busStops: Option<seq<string>>,
    lines: Option<seq<string>>,
    numDepartures: Option<int>,
    timeWindow: Option<int>)
}
