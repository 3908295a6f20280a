/** The sensor platform's wiring: which feeds setup creates from a configuration
    entry, how often each kind of feed polls, and the update step of each
    coordinator (return the client's result, or report `UpdateFailed`). */
module SensorSetup {

  import opened Wrappers
  import opened Text
  import opened Payloads
  import opened Const
  import opened Api
  import ConfigFlow
  import DlrSensor

  /** One coordinator, with the parameters its fetch uses. A departure feed also carries
      the destination name its sensor shows. */
  datatype Feed =
    | DepartureFeed(stationCrs: string, numDepartures: int, timeWindow: int,
                    filterCrs: Option<string>, filterType: string, destinationName: Option<string>)
    | ArrivalFeed(stationCrs: string, numArrivals: int, timeWindow: int,
                  filterCrs: Option<string>, filterType: string)
    | LineStatusFeed(lines: seq<string>)
    | BusStopFeed(stopId: string)

  /** The DLR sensor setup creates (it polls on its own, without a coordinator). */
  datatype DlrSetup = DlrSetup(stationId: string, stationName: string, destinationFilter: Option<string>)

  /** The keys the clients are built with. The unified client gets no Huxley key. */
  datatype ClientKeys = ClientKeys(tfl: TflClient, darwinApiKey: Option<string>, huxleyApiKey: Option<string>)

  /** The Lewisham DLR stop. The station table this id comes from is not part of this
      model; the id is the one the sensor's documentation gives. */
  const LewishamDlrStop := "940GZZDLLEW"

  // ---------------------------------------------------------------------------
  // Settings read from the entry
  // ---------------------------------------------------------------------------

  /** The values setup reads from the entry, each with its default. */
  datatype Settings = Settings(
    stationCrs: string, destinations: seq<string>, busStops: seq<string>,
    lines: seq<string>, numDepartures: int, timeWindow: int)

  function SettingsOf(config: EntryData): Settings
  {
    Settings(
      config.stationCrs.GetOr(GroveParkCrs),
      config.destinations.GetOr(LondonTerminalCodes),
      if config.busStops.Some? && config.busStops.value != [] then config.busStops.value else DefaultBusStops,
      config.lines.GetOr(["southeastern"]),
      config.numDepartures.GetOr(DefaultNumDepartures),
      config.timeWindow.GetOr(DefaultTimeWindow))
  }

  function MainFeed(s: Settings): Feed
  {
    DepartureFeed(s.stationCrs, s.numDepartures, s.timeWindow, None, "to", None)
  }

  function DestinationFeed(s: Settings, dest: string): Feed
  {
    DepartureFeed(s.stationCrs, s.numDepartures, s.timeWindow, Some(dest), "to", Some(TerminalName(dest)))
  }

  function ArrivalsFeed(s: Settings): Feed
  {
    ArrivalFeed(s.stationCrs, s.numDepartures, s.timeWindow, None, "from")
  }

  function DestinationFeeds(s: Settings, dests: seq<string>): (r: seq<Feed>)
    ensures |r| == |dests|
  {
    seq(|dests|, i requires 0 <= i < |dests| => DestinationFeed(s, dests[i]))
  }

  function BusFeeds(stops: seq<string>): (r: seq<Feed>)
    ensures |r| == |stops|
  {
    seq(|stops|, i requires 0 <= i < |stops| => BusStopFeed(stops[i]))
  }

  /** The coordinators setup creates, in order: main departures, one per destination among
      the first five, arrivals, line status, one per bus stop. */
  function PlannedFeeds(config: EntryData): seq<Feed>
  {
    var s := SettingsOf(config);
    [MainFeed(s)] + DestinationFeeds(s, Take(s.destinations, 5))
      + [ArrivalsFeed(s), LineStatusFeed(s.lines)] + BusFeeds(s.busStops)
  }

  /** `async_setup_entry`: builds the coordinators one after another, as the source's loops
      append to its entity list. */
  method SetupEntry(config: EntryData) returns (feeds: seq<Feed>, keys: ClientKeys, dlr: DlrSetup)
    ensures feeds == PlannedFeeds(config)
    ensures keys == ClientKeys(TflClient(config.tflAppKey), config.darwinApiKey, None)
    ensures dlr == DlrSetup(LewishamDlrStop, "Lewisham", Some("Bank"))
  {
    var s := SettingsOf(config);
    keys := ClientKeys(TflClient(config.tflAppKey), config.darwinApiKey, None);
    feeds := [MainFeed(s)];
    var dests := Take(s.destinations, 5);
    for i := 0 to |dests|
      invariant feeds == [MainFeed(s)] + DestinationFeeds(s, dests[..i])
    {
      assert DestinationFeeds(s, dests[..i + 1]) == DestinationFeeds(s, dests[..i]) + [DestinationFeed(s, dests[i])];
      feeds := feeds + [DestinationFeed(s, dests[i])];
    }
    assert dests[..|dests|] == dests;
    feeds := feeds + [ArrivalsFeed(s)];
    feeds := feeds + [LineStatusFeed(s.lines)];
    ghost var before := feeds;
    for i := 0 to |s.busStops|
      invariant feeds == before + BusFeeds(s.busStops[..i])
    {
      assert BusFeeds(s.busStops[..i + 1]) == BusFeeds(s.busStops[..i]) + [BusStopFeed(s.busStops[i])];
      feeds := feeds + [BusStopFeed(s.busStops[i])];
    }
    assert s.busStops[..|s.busStops|] == s.busStops;
    dlr := DlrSetup(LewishamDlrStop, "Lewisham", Some("Bank"));
  }

  /** The number of coordinators, and where destination feeds sit: right after the main feed,
      for the first five destinations, in their configured order. */
  lemma {:induction false} FeedLayout(config: EntryData)
    ensures var s := SettingsOf(config);
      var feeds := PlannedFeeds(config);
      var k := Min(5, |s.destinations|);
      && |feeds| == 3 + k + |s.busStops|
      && feeds[0] == MainFeed(s)
      && (forall i :: 0 <= i < k ==> feeds[1 + i] == DestinationFeed(s, s.destinations[i]))
      && feeds[1 + k] == ArrivalsFeed(s)
      && feeds[2 + k] == LineStatusFeed(s.lines)
      && (forall i :: 0 <= i < |s.busStops| ==> feeds[3 + k + i] == BusStopFeed(s.busStops[i]))
  {
    var s := SettingsOf(config);
    var dests := Take(s.destinations, 5);
    var feeds := PlannedFeeds(config);
    var k := Min(5, |s.destinations|);
    assert |dests| == k;
    forall i | 0 <= i < k ensures feeds[1 + i] == DestinationFeed(s, s.destinations[i]) {
      assert feeds[1 + i] == DestinationFeeds(s, dests)[i];
    }
    forall i | 0 <= i < |s.busStops| ensures feeds[3 + k + i] == BusStopFeed(s.busStops[i]) {
      assert feeds[3 + k + i] == BusFeeds(s.busStops)[i];
    }
  }

  /** Only the first five configured destinations are polled: a destination that does not
      occur among them gets no coordinator. */
  lemma LaterDestinationsNeverPolled(config: EntryData, dest: string)
    requires dest !in Take(SettingsOf(config).destinations, 5)
    ensures forall f :: f in PlannedFeeds(config) ==> f.DepartureFeed? ==> f.filterCrs != Some(dest)
  {
    var s := SettingsOf(config);
    var dests := Take(s.destinations, 5);
    forall f | f in PlannedFeeds(config) && f.DepartureFeed? ensures f.filterCrs != Some(dest) {
      if f in DestinationFeeds(s, dests) {
        var i :| 0 <= i < |dests| && DestinationFeeds(s, dests)[i] == f;
        assert f.filterCrs == Some(dests[i]);
      } else {
        assert f in [MainFeed(s)] + [ArrivalsFeed(s), LineStatusFeed(s.lines)] + BusFeeds(s.busStops);
      }
    }
  }

  /** With no bus stops configured (missing or empty), the default stops are polled. */
  lemma BusStopsFallBack(config: EntryData)
    requires config.busStops.None? || config.busStops.value == []
    ensures SettingsOf(config).busStops == DefaultBusStops
    ensures var k := Min(5, |SettingsOf(config).destinations|);
      PlannedFeeds(config)[3 + k..] == [BusStopFeed("490001124E"), BusStopFeed("490015256D")]
  {
    FeedLayout(config);
  }

  /** An entry without destinations polls the first five London terminals, so Waterloo East
      and St Pancras are never polled. */
  lemma DefaultDestinations()
    ensures var config := EntryData(None, None, None, None, None, None, None, None);
      && Take(SettingsOf(config).destinations, 5) == ["CHX", "CST", "VIC", "LBG", "WAT"]
      && (forall f :: f in PlannedFeeds(config) ==> f.DepartureFeed? ==>
            f.filterCrs != Some("WAE") && f.filterCrs != Some("STP"))
  {
    var config := EntryData(None, None, None, None, None, None, None, None);
    assert Take(SettingsOf(config).destinations, 5) == ["CHX", "CST", "VIC", "LBG", "WAT"];
    LaterDestinationsNeverPolled(config, "WAE");
    LaterDestinationsNeverPolled(config, "STP");
  }

  /** An entry made by the user step from a bare station code polls Charing Cross, London Bridge
      and Victoria, and (its bus stop list being empty) the default bus stops. */
  lemma FlowDefaultsFeedSetup(code: string)
    requires |code| == 3
    ensures var r := ConfigFlow.StepUser(Some(EntryData(Some(code), None, None, None, None, None, None, None)));
      && r.CreateEntry?
      && var feeds := PlannedFeeds(r.data);
      && |feeds| == 8
      && feeds[1].filterCrs == Some("CHX") && feeds[2].filterCrs == Some("LBG") && feeds[3].filterCrs == Some("VIC")
      && feeds[6] == BusStopFeed("490001124E") && feeds[7] == BusStopFeed("490015256D")
  {
    var r := ConfigFlow.StepUser(Some(EntryData(Some(code), None, None, None, None, None, None, None)));
    FeedLayout(r.data);
  }

  /** The DLR sensor setup adds watches Lewisham towards Bank, under the name and id below. */
  lemma SetupDlrSensorIdentity()
    ensures var dlr := DlrSetup(LewishamDlrStop, "Lewisham", Some("Bank"));
      && DlrSensor.GenerateName(dlr.stationName, dlr.destinationFilter) == "DLR Lewisham to Bank"
      && DlrSensor.GenerateUniqueId(dlr.stationId, dlr.destinationFilter)
           == "tfl_local_transport_dlr_departures_940GZZDLLEW_to_bank"
  {
    DlrSensor.LewishamToBankName();
    DlrSensor.LewishamToBankId();
  }

  // ---------------------------------------------------------------------------
  // Poll intervals
  // ---------------------------------------------------------------------------

  /** Seconds between polls of a coordinator. */
  function PollInterval(feed: Feed): nat
  {
    match feed
    case DepartureFeed(_, _, _, _, _, _) => DefaultUpdateInterval
    case ArrivalFeed(_, _, _, _, _) => DefaultUpdateInterval
    case LineStatusFeed(_) => 300
    case BusStopFeed(_) => 60
  }

  /** Rail feeds poll every two minutes, line status every five, bus stops every minute:
      the interval depends on the kind of feed only. */
  lemma PollIntervalsByKind(feed: Feed)
    ensures (feed.DepartureFeed? || feed.ArrivalFeed?) ==> PollInterval(feed) == 120
    ensures feed.LineStatusFeed? ==> PollInterval(feed) == 300
    ensures feed.BusStopFeed? ==> PollInterval(feed) == 60
  {
  }

  // ---------------------------------------------------------------------------
  // The update step
  // ---------------------------------------------------------------------------

  /** What `_async_update_data` returns, or the `UpdateFailed` it raises. */
  datatype UpdateResult<+T> = Ok(data: T) | UpdateFailed(message: string)

  function ErrorPrefix(feed: Feed): string
  {
    match feed
    case DepartureFeed(_, _, _, _, _, _) => "Error fetching train data: "
    case ArrivalFeed(_, _, _, _, _) => "Error fetching arrival data: "
    case LineStatusFeed(_) => "Error fetching line status: "
    case BusStopFeed(_) => "Error fetching bus arrivals: "
  }

  /** A coordinator's update: the client's result unchanged (an empty one too), or,
      when the client raised, `UpdateFailed` with a message that ends in the error's text. */
  function UpdateData<T>(feed: Feed, fetched: Attempt<T>): (u: UpdateResult<T>)
    ensures u.Ok? <==> fetched.Returned?
    ensures u.Ok? ==> u.data == fetched.value
    ensures u.UpdateFailed? ==>
              IsPrefix(ErrorPrefix(feed), u.message) && u.message[|ErrorPrefix(feed)|..] == fetched.message
  {
    match fetched
    case Returned(v) => Ok(v)
    case Raised(e) => UpdateFailed(ErrorPrefix(feed) + e)
  }

  /** The request a rail coordinator sends: its station, rows, filter and window, no offset. */
  function TrainRequest(feed: Feed): BoardRequest
    requires feed.DepartureFeed? || feed.ArrivalFeed?
  {
    match feed
    case DepartureFeed(crs, n, w, f, t, _) => BoardRequest(crs, n, f, t, 0, w)
    case ArrivalFeed(crs, n, w, f, t) => BoardRequest(crs, n, f, t, 0, w)
  }

  /** In this code an empty board from both providers is reported as a successful update
      carrying `{}`: nothing here keeps the previous data in its place. */
  lemma BothProvidersEmptyIsSuccess(feed: Feed, hasDarwin: bool, last: Option<Source>)
    requires feed.DepartureFeed? || feed.ArrivalFeed?
    ensures var kind := if feed.DepartureFeed? then Departures else Arrivals;
      var step := Fallback(kind, hasDarwin, TrainRequest(feed), Returned(EmptyBoard), Returned(EmptyBoard), last);
      UpdateData(feed, step.result) == Ok(EmptyBoard) && step.lastSource == last
  {
  }

  /** One poll of a rail coordinator: the unified client asks the providers (whose answers
      are given as HTTP outcomes) and the update step wraps what it returns. Because each
      provider client folds its failures into `{}`, the poll never reports `UpdateFailed`. */
  method RefreshTrainFeed(feed: Feed, client: TrainApiClient, darwinReply: Http<Board>, huxleyReply: Http<Board>)
    returns (u: UpdateResult<Board>)
    requires feed.DepartureFeed? || feed.ArrivalFeed?
    modifies client
    ensures var kind := if feed.DepartureFeed? then Departures else Arrivals;
      var step := Fallback(kind, client.darwin.Some?, TrainRequest(feed),
                           Returned(Fold(darwinReply, EmptyBoard)), Returned(Fold(huxleyReply, EmptyBoard)),
                           old(client.lastSource));
      && u == Ok(step.result.value)
      && client.lastSource == step.lastSource
      && client.calls == old(client.calls) + step.calls
  {
    var req := TrainRequest(feed);
    var board := if feed.DepartureFeed? then Departures else Arrivals;
    var darwinAnswer := Returned(EmptyBoard);
    if client.darwin.Some? {
      var x := DarwinGetBoard(client.darwin.value, board, req, darwinReply);
      darwinAnswer := Returned(x.result);
    }
    var h := HuxleyGetBoard(client.huxley, HuxleyBoardOf(board), req, true, huxleyReply);
    var fetched;
    if feed.DepartureFeed? {
      fetched := client.GetDepartures(req, darwinAnswer, Returned(h.result));
    } else {
      fetched := client.GetArrivals(req, darwinAnswer, Returned(h.result));
    }
    u := UpdateData(feed, fetched);
  }

  /** One poll of the line-status coordinator: always a successful update, `[]` on failure. */
  function RefreshLineStatus(feed: Feed, tfl: TflClient, reply: Http<seq<Line>>): (u: UpdateResult<seq<Line>>)
    requires feed.LineStatusFeed?
    ensures u.Ok?
    ensures u.data == Fold(reply, [])
  {
    UpdateData(feed, Returned(GetLineStatus(tfl, feed.lines, reply).result))
  }

  /** One poll of a bus-stop coordinator: always a successful update, holding the stop's
      arrivals sorted by expected arrival, or `[]` on failure. */
  function RefreshBusStop(feed: Feed, tfl: TflClient, reply: Http<seq<Arrival>>): (u: UpdateResult<seq<Arrival>>)
    requires feed.BusStopFeed?
    ensures u.Ok?
    ensures u.data == GetStopArrivals(tfl, feed.stopId, reply).result
    ensures SortedByExpected(u.data)
    ensures reply.Reply? && reply.status == 200 && reply.body.Some? ==> multiset(u.data) == multiset(reply.body.value)
    ensures reply.TransportError? || reply.status != 200 || reply.body.None? ==> u.data == []
  {
    UpdateData(feed, Returned(GetStopArrivals(tfl, feed.stopId, reply).result))
  }
}
