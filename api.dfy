/** The provider clients (TfL Unified API, Darwin, Huxley2) and the unified
    rail client that tries Darwin first and falls back to Huxley.
    An HTTP exchange is not performed: each provider operation receives the
    outcome of its GET (`Http<T>`) and yields the request it would send and
    the value it returns. */
module Api {

  import opened Wrappers
  import opened Text
  import opened Payloads
  import opened Const

  /** A GET request: URL, query parameters (as sent on the wire) and headers. */
  datatype HttpGet = HttpGet(url: string, params: map<string, string>, headers: map<string, string>)

  /** One provider call: the request it sends and the value it returns to its caller. */
  datatype Exchange<+T> = Exchange(request: HttpGet, result: T)

  /** What every provider method does with the outcome of its GET: the parsed body on
      status 200, and the empty value on any other status, an unparseable body or a
      transport error. No provider method lets an exception escape. */
  function Fold<T>(reply: Http<T>, empty: T): (r: T)
    ensures reply.Reply? && reply.status == 200 && reply.body.Some? ==> r == reply.body.value
    ensures reply.TransportError? || reply.status != 200 || reply.body.None? ==> r == empty
  {
    if reply.Reply? && reply.status == 200 && reply.body.Some? then reply.body.value else empty
  }

  // ---------------------------------------------------------------------------
  // TfL Unified API client
  // ---------------------------------------------------------------------------

  datatype TflClient = TflClient(appKey: Option<string>)

  /** `TflApiClient._build_url`: `base/endpoint`, with `app_key` appended when a key is set. */
  function BuildTflUrl(client: TflClient, endpoint: string): (url: string)
    ensures var plain := TflApiBase + "/" + endpoint;
      && IsPrefix(plain, url)
      && (!Truthy(client.appKey) ==> url == plain)
      && (Truthy(client.appKey) ==>
            && |url| > |plain|
            && url[|plain|] == (if '?' in plain then '&' else '?')
            && url[|plain| + 1..] == "app_key=" + client.appKey.value
            && '?' in url)
  {
    var plain := TflApiBase + "/" + endpoint;
    if Truthy(client.appKey) then
      var sep := if '?' in plain then "&" else "?";
      var url := plain + sep + ("app_key=" + client.appKey.value);
      assert url[..|plain|] == plain && url[|plain|] == sep[0];
      assert url[|plain| + 1..] == "app_key=" + client.appKey.value;
      assert '?' in url by {
        if '?' in plain {
          var i :| 0 <= i < |plain| && plain[i] == '?';
          assert url[i] == '?';
        } else {
          assert url[|plain|] == '?';
        }
      }
      url
    else plain
  }

  /** The base URL holds no `?`, so an endpoint without one always gets `?app_key=`. */
  lemma TflKeyStartsQuery(client: TflClient, endpoint: string)
    requires Truthy(client.appKey) && '?' !in endpoint
    ensures BuildTflUrl(client, endpoint) == TflApiBase + "/" + endpoint + "?app_key=" + client.appKey.value
  {
    var plain := TflApiBase + "/" + endpoint;
    assert forall i :: 0 <= i < |plain| ==> plain[i] != '?' by {
      forall i | 0 <= i < |plain| ensures plain[i] != '?' {
        if i >= |TflApiBase| + 1 {
          assert plain[i] == endpoint[i - |TflApiBase| - 1];
        }
      }
    }
  }

  function LineStatusEndpoint(lineIds: seq<string>): string
  {
    "Line/" + Join(",", lineIds) + "/Status"
  }

  function DisruptionsEndpoint(modes: seq<string>): string
  {
    "Line/Mode/" + Join(",", modes) + "/Disruption"
  }

  /** The ids segment of the line-status endpoint splits back into the requested ids. */
  lemma LineIdsRoundTrip(lineIds: seq<string>)
    requires |lineIds| >= 1
    requires forall i :: 0 <= i < |lineIds| ==> ',' !in lineIds[i]
    ensures var e := LineStatusEndpoint(lineIds);
      |e| >= 12 && Split(',', e[5..|e| - 7]) == lineIds
  {
    var e := LineStatusEndpoint(lineIds);
    assert e[5..|e| - 7] == Join(",", lineIds);
    SplitJoin(',', lineIds);
  }

  /** The modes segment of the disruptions endpoint splits back into the requested modes. */
  lemma ModesRoundTrip(modes: seq<string>)
    requires |modes| >= 1
    requires forall i :: 0 <= i < |modes| ==> ',' !in modes[i]
    ensures var e := DisruptionsEndpoint(modes);
      |e| >= 21 && Split(',', e[10..|e| - 11]) == modes
  {
    var e := DisruptionsEndpoint(modes);
    assert e[10..|e| - 11] == Join(",", modes);
    SplitJoin(',', modes);
  }

  function TflGet(client: TflClient, endpoint: string): HttpGet
  {
    HttpGet(BuildTflUrl(client, endpoint), map[], map[])
  }

  /** `get_line_status`: the line list, or `[]` on any failure. */
  function GetLineStatus(client: TflClient, lineIds: seq<string>, reply: Http<seq<Line>>): Exchange<seq<Line>>
  {
    Exchange(TflGet(client, LineStatusEndpoint(lineIds)), Fold(reply, []))
  }

  /** `get_station_info`: the station object, or `{}` on any failure. */
  function GetStationInfo(client: TflClient, naptanId: string, reply: Http<map<string, Json>>): Exchange<map<string, Json>>
  {
    Exchange(TflGet(client, "StopPoint/" + naptanId), Fold(reply, map[]))
  }

  /** `get_disruptions`: the disruption list, or `[]` on any failure. */
  function GetDisruptions(client: TflClient, modes: seq<string>, reply: Http<seq<Json>>): Exchange<seq<Json>>
  {
    Exchange(TflGet(client, DisruptionsEndpoint(modes)), Fold(reply, []))
  }

  /** `get_stop_arrivals`: on status 200 the predictions sorted by `expectedArrival`
      (a missing key sorts as `""`), and `[]` on any failure. */
  function GetStopArrivals(client: TflClient, stopId: string, reply: Http<seq<Arrival>>): (x: Exchange<seq<Arrival>>)
    ensures x.request.url == BuildTflUrl(client, "StopPoint/" + stopId + "/Arrivals")
    ensures SortedByExpected(x.result)
    ensures reply.Reply? && reply.status == 200 && reply.body.Some? ==>
              multiset(x.result) == multiset(reply.body.value)
    ensures reply.TransportError? || reply.status != 200 || reply.body.None? ==> x.result == []
  {
    var sorted := if reply.Reply? && reply.status == 200 && reply.body.Some?
                  then SortByExpected(reply.body.value) else [];
    Exchange(TflGet(client, "StopPoint/" + stopId + "/Arrivals"), sorted)
  }

  // Sorting by expected arrival -------------------------------------------------

  function ExpectedKey(a: Arrival): string
  {
    a.expectedArrival.GetOr("")
  }

  predicate SortedByExpected(s: seq<Arrival>)
  {
    forall i, j :: 0 <= i < j < |s| ==> LexLe(ExpectedKey(s[i]), ExpectedKey(s[j]))
  }

  /** Insert `x` before the first element whose key is not below its own. */
  function InsertByExpected(x: Arrival, s: seq<Arrival>): (r: seq<Arrival>)
    ensures multiset(r) == multiset(s) + multiset{x}
    ensures |r| == |s| + 1
  {
    if s == [] then [x]
    else if LexLe(ExpectedKey(x), ExpectedKey(s[0])) then [x] + s
    else
      assert s == [s[0]] + s[1..];
      [s[0]] + InsertByExpected(x, s[1..])
  }

  lemma {:induction false} InsertKeepsSorted(x: Arrival, s: seq<Arrival>)
    requires SortedByExpected(s)
    ensures SortedByExpected(InsertByExpected(x, s))
  {
    if s == [] {
    } else if LexLe(ExpectedKey(x), ExpectedKey(s[0])) {
      forall j | 0 <= j < |s| ensures LexLe(ExpectedKey(x), ExpectedKey(s[j])) {
        if j > 0 { LexLeTransitive(ExpectedKey(x), ExpectedKey(s[0]), ExpectedKey(s[j])); }
      }
    } else {
      LexLeTotal(ExpectedKey(x), ExpectedKey(s[0]));
      InsertKeepsSorted(x, s[1..]);
      var t := InsertByExpected(x, s[1..]);
      forall k | 0 <= k < |t| ensures LexLe(ExpectedKey(s[0]), ExpectedKey(t[k])) {
        assert t[k] in multiset(t);
        if t[k] != x {
          assert t[k] in multiset(s[1..]);
          var j :| 0 <= j < |s[1..]| && s[1..][j] == t[k];
          assert s[j + 1] == t[k];
        }
      }
      assert InsertByExpected(x, s) == [s[0]] + t;
    }
  }

  /** `sorted(arrivals, key=expectedArrival)`: an insertion sort that keeps equal keys in order. */
  function SortByExpected(s: seq<Arrival>): (r: seq<Arrival>)
    ensures multiset(r) == multiset(s)
    ensures SortedByExpected(r)
  {
    if s == [] then []
    else
      var t := SortByExpected(s[1..]);
      InsertKeepsSorted(s[0], t);
      assert s == [s[0]] + s[1..];
      InsertByExpected(s[0], t)
  }

  // ---------------------------------------------------------------------------
  // Rail boards: request shapes shared by Darwin and Huxley
  // ---------------------------------------------------------------------------

  datatype BoardKind = Departures | Arrivals

  /** The arguments of a board request. */
  datatype BoardRequest = BoardRequest(
    stationCrs: string,
    numRows: int,
    filterCrs: Option<string>,
    filterType: string,
    timeOffset: int,
    timeWindow: int)

  // ---------------------------------------------------------------------------
  // Darwin client
  // ---------------------------------------------------------------------------

  /** A Darwin client exists only with a (truthy) API key. */
  datatype DarwinClient = DarwinClient(apiKey: string)

  function DarwinUrl(kind: BoardKind, stationCrs: string): string
  {
    DarwinApiBase + (if kind == Departures then "/GetDepBoardWithDetails/" else "/GetArrBoardWithDetails/") + stationCrs
  }

  function DarwinHeaders(client: DarwinClient): map<string, string>
  {
    map["x-apikey" := client.apiKey, "User-Agent" := "HomeAssistantTfLIntegration/1.0"]
  }

  /** The query parameters of a Darwin board request: the row count, offset and window
      always, the filter station and direction exactly when a filter is given. Numbers
      are sent in decimal and read back unchanged. */
  method DarwinParams(req: BoardRequest) returns (params: map<string, string>)
    ensures params.Keys == {"numRows", "timeOffset", "timeWindow"}
                           + (if Truthy(req.filterCrs) then {"filterCrs", "filterType"} else {})
    ensures ParseInt(params["numRows"]) == Some(req.numRows)
    ensures ParseInt(params["timeOffset"]) == Some(req.timeOffset)
    ensures ParseInt(params["timeWindow"]) == Some(req.timeWindow)
    ensures Truthy(req.filterCrs) ==>
              params["filterCrs"] == req.filterCrs.value && params["filterType"] == req.filterType
  {
    params := map[
      "numRows" := IntToString(req.numRows),
      "timeOffset" := IntToString(req.timeOffset),
      "timeWindow" := IntToString(req.timeWindow)
    ];
    if Truthy(req.filterCrs) {
      params := params["filterCrs" := req.filterCrs.value];
      params := params["filterType" := req.filterType];
    }
    ParseIntToString(req.numRows);
    ParseIntToString(req.timeOffset);
    ParseIntToString(req.timeWindow);
  }

  /** Darwin's `get_departures` / `get_arrivals`: one GET with the key in a header;
      the board on status 200, `{}` on any failure. */
  method DarwinGetBoard(client: DarwinClient, kind: BoardKind, req: BoardRequest, reply: Http<Board>)
    returns (x: Exchange<Board>)
    ensures x.request.url == DarwinUrl(kind, req.stationCrs)
    ensures x.request.headers.Keys == {"x-apikey", "User-Agent"}
    ensures x.request.headers["x-apikey"] == client.apiKey
    ensures x.request.headers["User-Agent"] == "HomeAssistantTfLIntegration/1.0"
    ensures x.request.params.Keys == {"numRows", "timeOffset", "timeWindow"}
                                     + (if Truthy(req.filterCrs) then {"filterCrs", "filterType"} else {})
    ensures ParseInt(x.request.params["numRows"]) == Some(req.numRows)
    ensures ParseInt(x.request.params["timeOffset"]) == Some(req.timeOffset)
    ensures ParseInt(x.request.params["timeWindow"]) == Some(req.timeWindow)
    ensures Truthy(req.filterCrs) ==>
              x.request.params["filterCrs"] == req.filterCrs.value
              && x.request.params["filterType"] == req.filterType
    ensures x.result == Fold(reply, EmptyBoard)
  {
    var params := DarwinParams(req);
    x := Exchange(HttpGet(DarwinUrl(kind, req.stationCrs), params, DarwinHeaders(client)), Fold(reply, EmptyBoard));
  }

  // ---------------------------------------------------------------------------
  // Huxley2 client
  // ---------------------------------------------------------------------------

  datatype HuxleyClient = HuxleyClient(apiKey: Option<string>, baseUrl: string)

  /** `HuxleyApiClient(session, api_key, base_url)`: the public proxy unless a (truthy) base URL is given. */
  function NewHuxleyClient(apiKey: Option<string>, baseUrl: Option<string>): (c: HuxleyClient)
    ensures c.apiKey == apiKey
    ensures c.baseUrl == if Truthy(baseUrl) then baseUrl.value else HuxleyApiBase
  {
    HuxleyClient(apiKey, if Truthy(baseUrl) then baseUrl.value else HuxleyApiBase)
  }

  /** The three Huxley board endpoints. */
  datatype HuxleyBoard = HuxleyDepartures | HuxleyArrivals | HuxleyAll

  function HuxleyBoardName(board: HuxleyBoard): string
  {
    match board
    case HuxleyDepartures => "departures"
    case HuxleyArrivals => "arrivals"
    case HuxleyAll => "all"
  }

  function HuxleyBoardOf(kind: BoardKind): HuxleyBoard
  {
    if kind == Departures then HuxleyDepartures else HuxleyArrivals
  }

  /** The Huxley URL, written as the source's f-strings. */
  function HuxleyUrl(client: HuxleyClient, board: HuxleyBoard, req: BoardRequest): string
  {
    if Truthy(req.filterCrs) then
      client.baseUrl + "/" + HuxleyBoardName(board) + "/" + req.stationCrs + "/" + req.filterType
        + "/" + req.filterCrs.value + "/" + IntToString(req.numRows)
    else
      client.baseUrl + "/" + HuxleyBoardName(board) + "/" + req.stationCrs + "/" + IntToString(req.numRows)
  }

  /** The path segments a Huxley board URL is meant to carry after the base URL. */
  function HuxleySegments(board: HuxleyBoard, req: BoardRequest): seq<string>
  {
    [HuxleyBoardName(board), req.stationCrs]
      + (if Truthy(req.filterCrs) then [req.filterType, req.filterCrs.value] else [])
      + [IntToString(req.numRows)]
  }

  lemma NoSlashInNumber(i: int)
    ensures '/' !in IntToString(i)
  {
    var s := NatToString(if i < 0 then -i else i);
    assert forall k :: 0 <= k < |s| ==> s[k] != '/';
    if i < 0 {
      assert forall k :: 0 <= k < |IntToString(i)| ==> IntToString(i)[k] != '/' by {
        forall k | 0 <= k < |IntToString(i)| ensures IntToString(i)[k] != '/' {
          if k > 0 { assert IntToString(i)[k] == s[k - 1]; }
        }
      }
    }
  }

  /** After the base URL, a Huxley board path splits into `{board}/{crs}/{type}/{filter}/{rows}`
      when a filter is given and into `{board}/{crs}/{rows}` otherwise. */
  lemma HuxleyPathShape(client: HuxleyClient, board: HuxleyBoard, req: BoardRequest)
    requires '/' !in req.stationCrs && '/' !in req.filterType
    requires Truthy(req.filterCrs) ==> '/' !in req.filterCrs.value
    ensures var url := HuxleyUrl(client, board, req);
      && IsPrefix(client.baseUrl + "/", url)
      && Split('/', url[|client.baseUrl| + 1..]) == HuxleySegments(board, req)
    ensures |HuxleySegments(board, req)| == if Truthy(req.filterCrs) then 5 else 3
  {
    var segs := HuxleySegments(board, req);
    var url := HuxleyUrl(client, board, req);
    NoSlashInNumber(req.numRows);
    assert '/' !in HuxleyBoardName(board);
    HuxleyUrlJoins(client, board, req);
    assert url[|client.baseUrl| + 1..] == Join("/", segs);
    SplitJoin('/', segs);
  }

  /** The Huxley URL is the base URL, a slash, and the segments joined by slashes. */
  lemma HuxleyUrlJoins(client: HuxleyClient, board: HuxleyBoard, req: BoardRequest)
    ensures HuxleyUrl(client, board, req) == client.baseUrl + "/" + Join("/", HuxleySegments(board, req))
  {
    var segs := HuxleySegments(board, req);
    if Truthy(req.filterCrs) {
      assert Join("/", segs[3..]) == segs[3] + "/" + segs[4];
      assert Join("/", segs[2..]) == segs[2] + "/" + Join("/", segs[3..]);
      assert Join("/", segs[1..]) == segs[1] + "/" + Join("/", segs[2..]);
    } else {
      assert Join("/", segs[1..]) == segs[1] + "/" + segs[2];
    }
  }

  /** The query parameters of a Huxley board request: offset, window and `expand` always,
      `accessToken` exactly when the client has a (truthy) key. */
  method HuxleyParams(client: HuxleyClient, req: BoardRequest, expand: bool) returns (params: map<string, string>)
    ensures params.Keys == {"timeOffset", "timeWindow", "expand"}
                           + (if Truthy(client.apiKey) then {"accessToken"} else {})
    ensures ParseInt(params["timeOffset"]) == Some(req.timeOffset)
    ensures ParseInt(params["timeWindow"]) == Some(req.timeWindow)
    ensures params["expand"] == if expand then "true" else "false"
    ensures Truthy(client.apiKey) ==> params["accessToken"] == client.apiKey.value
  {
    params := map[
      "timeOffset" := IntToString(req.timeOffset),
      "timeWindow" := IntToString(req.timeWindow),
      "expand" := if expand then "true" else "false"
    ];
    if Truthy(client.apiKey) {
      params := params["accessToken" := client.apiKey.value];
    }
    ParseIntToString(req.timeOffset);
    ParseIntToString(req.timeWindow);
  }

  /** Huxley's `get_departures` / `get_arrivals` / `get_all`: the board on status 200,
      `{}` on any failure. */
  method HuxleyGetBoard(client: HuxleyClient, board: HuxleyBoard, req: BoardRequest, expand: bool, reply: Http<Board>)
    returns (x: Exchange<Board>)
    ensures x.request.url == HuxleyUrl(client, board, req)
    ensures x.request.params.Keys == {"timeOffset", "timeWindow", "expand"}
                                     + (if Truthy(client.apiKey) then {"accessToken"} else {})
    ensures ParseInt(x.request.params["timeOffset"]) == Some(req.timeOffset)
    ensures ParseInt(x.request.params["timeWindow"]) == Some(req.timeWindow)
    ensures x.request.params["expand"] == if expand then "true" else "false"
    ensures Truthy(client.apiKey) ==> x.request.params["accessToken"] == client.apiKey.value
    ensures x.request.headers == map[]
    ensures x.result == Fold(reply, EmptyBoard)
  {
    var params := HuxleyParams(client, req, expand);
    x := Exchange(HttpGet(HuxleyUrl(client, board, req), params, map[]), Fold(reply, EmptyBoard));
  }

  /** `get_station_crs`: the search results, or `[]` on any failure. */
  function HuxleyStationSearch(client: HuxleyClient, query: string, reply: Http<seq<Json>>): Exchange<seq<Json>>
  {
    Exchange(HttpGet(client.baseUrl + "/crs/" + query, map[], map[]), Fold(reply, []))
  }

  /** The remaining list and object queries never fail outward either: each returns the parsed
      body on status 200 and `[]` or `{}` otherwise, and the TfL ones ask the URL `_build_url` gives. */
  lemma QueriesFoldFailures(tfl: TflClient, huxley: HuxleyClient, lineIds: seq<string>, naptanId: string,
                            modes: seq<string>, query: string, lines: Http<seq<Line>>,
                            station: Http<map<string, Json>>, disruptions: Http<seq<Json>>, found: Http<seq<Json>>)
    ensures var x := GetLineStatus(tfl, lineIds, lines);
      && x.request.url == BuildTflUrl(tfl, "Line/" + Join(",", lineIds) + "/Status")
      && (lines.Reply? && lines.status == 200 && lines.body.Some? ==> x.result == lines.body.value)
      && (lines.TransportError? || lines.status != 200 || lines.body.None? ==> x.result == [])
    ensures var x := GetStationInfo(tfl, naptanId, station);
      && x.request.url == BuildTflUrl(tfl, "StopPoint/" + naptanId)
      && (station.Reply? && station.status == 200 && station.body.Some? ==> x.result == station.body.value)
      && (station.TransportError? || station.status != 200 || station.body.None? ==> x.result == map[])
    ensures var x := GetDisruptions(tfl, modes, disruptions);
      && x.request.url == BuildTflUrl(tfl, "Line/Mode/" + Join(",", modes) + "/Disruption")
      && (disruptions.Reply? && disruptions.status == 200 && disruptions.body.Some? ==> x.result == disruptions.body.value)
      && (disruptions.TransportError? || disruptions.status != 200 || disruptions.body.None? ==> x.result == [])
    ensures var x := HuxleyStationSearch(huxley, query, found);
      && x.request.url == huxley.baseUrl + "/crs/" + query
      && (found.Reply? && found.status == 200 && found.body.Some? ==> x.result == found.body.value)
      && (found.TransportError? || found.status != 200 || found.body.None? ==> x.result == [])
  {
  }

  // ---------------------------------------------------------------------------
  // Unified train client
  // ---------------------------------------------------------------------------

  datatype Source = Darwin | Huxley

  /** One call into a provider client made by the unified client. */
  datatype ProviderCall = ProviderCall(source: Source, kind: BoardKind, request: BoardRequest)

  /** What one `get_departures` / `get_arrivals` of the unified client does: what it
      returns (or the exception it lets through), the remembered source afterwards,
      and the provider calls it makes, in order. */
  datatype FallbackStep = FallbackStep(result: Attempt<Board>, lastSource: Option<Source>, calls: seq<ProviderCall>)

  /** The fallback policy. `darwin` is what the Darwin call returns or raises (ignored when
      there is no Darwin client), `huxley` what the Huxley call returns or raises. */
  function Fallback(kind: BoardKind, hasDarwin: bool, req: BoardRequest,
                    darwin: Attempt<Board>, huxley: Attempt<Board>, last: Option<Source>): FallbackStep
  {
    if hasDarwin && darwin.Returned? && NonEmpty(darwin.value) then
      FallbackStep(darwin, Some(Darwin), [ProviderCall(Darwin, kind, req)])
    else
      var tried := if hasDarwin then [ProviderCall(Darwin, kind, req)] else [];
      var tag := if huxley.Returned? && NonEmpty(huxley.value) then Some(Huxley) else last;
      FallbackStep(huxley, tag, tried + [ProviderCall(Huxley, kind, req)])
  }

  /** How many of `calls` went to `source`. */
  function CallsTo(calls: seq<ProviderCall>, source: Source): nat
  {
    if calls == [] then 0
    else CallsTo(calls[..|calls| - 1], source) + (if calls[|calls| - 1].source == source then 1 else 0)
  }

  lemma {:induction false} CallsToAppend(a: seq<ProviderCall>, b: seq<ProviderCall>, source: Source)
    ensures CallsTo(a + b, source) == CallsTo(a, source) + CallsTo(b, source)
    decreases |b|
  {
    if b == [] {
      assert a + b == a;
    } else {
      var ab := a + b;
      assert ab[..|ab| - 1] == a + b[..|b| - 1];
      assert ab[|ab| - 1] == b[|b| - 1];
      CallsToAppend(a, b[..|b| - 1], source);
    }
  }

  /** A non-empty Darwin answer is returned as it is, tagged `darwin`, and Huxley is not called. */
  lemma DarwinAnswerWins(kind: BoardKind, req: BoardRequest, b: Board, huxley: Attempt<Board>, last: Option<Source>)
    requires NonEmpty(b)
    ensures var step := Fallback(kind, true, req, Returned(b), huxley, last);
      && step.result == Returned(b)
      && step.lastSource == Some(Darwin)
      && CallsTo(step.calls, Huxley) == 0
      && CallsTo(step.calls, Darwin) == 1
  {
    var step := Fallback(kind, true, req, Returned(b), huxley, last);
    assert step.calls[..0] == [];
  }

  /** When Darwin is absent, answers `{}` or raises, Huxley is called exactly once, with the
      same request, and its outcome is what the caller gets; Darwin's exception never escapes. */
  lemma HuxleyCalledOnceOnFallback(kind: BoardKind, hasDarwin: bool, req: BoardRequest,
                                   darwin: Attempt<Board>, huxley: Attempt<Board>, last: Option<Source>)
    requires !hasDarwin || darwin.Raised? || !NonEmpty(darwin.value)
    ensures var step := Fallback(kind, hasDarwin, req, darwin, huxley, last);
      && step.result == huxley
      && CallsTo(step.calls, Huxley) == 1
      && CallsTo(step.calls, Darwin) == (if hasDarwin then 1 else 0)
      && step.calls[|step.calls| - 1] == ProviderCall(Huxley, kind, req)
  {
    var step := Fallback(kind, hasDarwin, req, darwin, huxley, last);
    var tried: seq<ProviderCall> := if hasDarwin then [ProviderCall(Darwin, kind, req)] else [];
    assert step.calls == tried + [ProviderCall(Huxley, kind, req)];
    CallsToAppend(tried, [ProviderCall(Huxley, kind, req)], Huxley);
    CallsToAppend(tried, [ProviderCall(Huxley, kind, req)], Darwin);
    assert [ProviderCall(Huxley, kind, req)][..0] == [];
    if hasDarwin { assert tried[..0] == []; }
  }

  /** Every provider call carries the caller's request unchanged, and Darwin is called first. */
  lemma CallsCarryRequest(kind: BoardKind, hasDarwin: bool, req: BoardRequest,
                          darwin: Attempt<Board>, huxley: Attempt<Board>, last: Option<Source>)
    ensures var step := Fallback(kind, hasDarwin, req, darwin, huxley, last);
      && 1 <= |step.calls| <= 2
      && (forall i :: 0 <= i < |step.calls| ==> step.calls[i].request == req && step.calls[i].kind == kind)
      && (step.calls[0].source == Darwin <==> hasDarwin)
  {
  }

  /** The remembered source changes only when a non-empty board is returned, and then it
      names the provider whose board it is; otherwise it keeps its previous value. */
  lemma SourceTagRule(kind: BoardKind, hasDarwin: bool, req: BoardRequest,
                      darwin: Attempt<Board>, huxley: Attempt<Board>, last: Option<Source>)
    ensures var step := Fallback(kind, hasDarwin, req, darwin, huxley, last);
      && (step.result.Returned? && NonEmpty(step.result.value) ==>
            step.lastSource == Some(step.calls[|step.calls| - 1].source))
      && (!(step.result.Returned? && NonEmpty(step.result.value)) ==> step.lastSource == last)
  {
  }

  /** Provider clients fold every failure into `{}`, so the unified client fed their answers
      never raises. */
  lemma ProviderAnswersNeverRaise(kind: BoardKind, hasDarwin: bool, req: BoardRequest,
                                  d: Http<Board>, h: Http<Board>, last: Option<Source>)
    ensures Fallback(kind, hasDarwin, req, Returned(Fold(d, EmptyBoard)), Returned(Fold(h, EmptyBoard)), last).result.Returned?
  {
  }

  /** `TrainApiClient`: a Darwin client when a truthy key is given, always a Huxley client,
      and the source of the last successful request. */
  class TrainApiClient {
    const darwin: Option<DarwinClient>
    const huxley: HuxleyClient
    var lastSource: Option<Source>
    /** The provider calls made so far, in order. */
    ghost var calls: seq<ProviderCall>

    constructor (darwinApiKey: Option<string>, huxleyApiKey: Option<string>)
      ensures darwin == (if Truthy(darwinApiKey) then Some(DarwinClient(darwinApiKey.value)) else None)
      ensures huxley == NewHuxleyClient(huxleyApiKey, None)
      ensures lastSource == None && calls == []
    {
      darwin := if Truthy(darwinApiKey) then Some(DarwinClient(darwinApiKey.value)) else None;
      huxley := NewHuxleyClient(huxleyApiKey, None);
      lastSource := None;
      calls := [];
    }

    /** The shared body of `get_departures` and `get_arrivals`. */
    method FetchBoard(kind: BoardKind, req: BoardRequest, darwinAnswer: Attempt<Board>, huxleyAnswer: Attempt<Board>)
      returns (r: Attempt<Board>)
      modifies this
      ensures var step := Fallback(kind, darwin.Some?, req, darwinAnswer, huxleyAnswer, old(lastSource));
        && r == step.result
        && lastSource == step.lastSource
        && calls == old(calls) + step.calls
    {
      if darwin.Some? {
        calls := calls + [ProviderCall(Darwin, kind, req)];
        if darwinAnswer.Returned? {
          var result := darwinAnswer.value;
          if NonEmpty(result) {
            lastSource := Some(Darwin);
            return Returned(result);
          }
        }
      }
      calls := calls + [ProviderCall(Huxley, kind, req)];
      r := huxleyAnswer;
      if huxleyAnswer.Returned? && NonEmpty(huxleyAnswer.value) {
        lastSource := Some(Huxley);
      }
    }

    method GetDepartures(req: BoardRequest, darwinAnswer: Attempt<Board>, huxleyAnswer: Attempt<Board>)
      returns (r: Attempt<Board>)
      modifies this
      ensures var step := Fallback(Departures, darwin.Some?, req, darwinAnswer, huxleyAnswer, old(lastSource));
        && r == step.result
        && lastSource == step.lastSource
        && calls == old(calls) + step.calls
    {
      r := FetchBoard(Departures, req, darwinAnswer, huxleyAnswer);
    }

    method GetArrivals(req: BoardRequest, darwinAnswer: Attempt<Board>, huxleyAnswer: Attempt<Board>)
      returns (r: Attempt<Board>)
      modifies this
      ensures var step := Fallback(Arrivals, darwin.Some?, req, darwinAnswer, huxleyAnswer, old(lastSource));
        && r == step.result
        && lastSource == step.lastSource
        && calls == old(calls) + step.calls
    {
      r := FetchBoard(Arrivals, req, darwinAnswer, huxleyAnswer);
    }
  }

  /** A client built without a Darwin key (`None` or `""`) goes straight to Huxley, and an
      empty Huxley board leaves the source at its initial `None`. */
  method NoKeyScenario(req: BoardRequest, darwinAnswer: Attempt<Board>, huxleyBoard: Board)
    returns (r: Attempt<Board>, source: Option<Source>)
    ensures r == Returned(huxleyBoard)
    ensures source == if NonEmpty(huxleyBoard) then Some(Huxley) else None
  {
    var client := new TrainApiClient(Some(""), None);
    r := client.GetDepartures(req, darwinAnswer, Returned(huxleyBoard));
    source := client.lastSource;
  }
}
