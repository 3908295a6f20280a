/** The three coordinator-backed sensors: the state value and the attributes each one
    derives from its coordinator's latest data. */
module SensorEntities {

  import opened Wrappers
  import opened Text
  import opened Payloads
  import opened Api

  // ---------------------------------------------------------------------------
  // Train departure and arrival sensors
  // ---------------------------------------------------------------------------

  /** `data.get("trainServices") or []`. */
  function Services(data: Board): seq<Service>
  {
    if data.trainServices.Present? then data.trainServices.value else []
  }

  /** The state: nothing for an empty board, `No services` for a board without services,
      else the first service's `etd` when that key is there, its `std` when only that one is,
      and `Unknown` when neither is. A key holding JSON null gives no state. */
  function TrainNativeValue(data: Board): (v: Option<string>)
    ensures !NonEmpty(data) ==> v.None?
    ensures NonEmpty(data) && Services(data) == [] ==> v == Some("No services")
    ensures NonEmpty(data) && Services(data) != [] ==>
              var first := Services(data)[0];
              && (first.etd.Present? ==> v == Some(first.etd.value))
              && (first.etd.Absent? && first.std.Present? ==> v == Some(first.std.value))
              && (first.etd.Absent? && first.std.Absent? ==> v == Some("Unknown"))
              && (first.etd.Null? || (first.etd.Absent? && first.std.Null?) ==> v.None?)
  {
    if !NonEmpty(data) then None
    else if Services(data) == [] then Some("No services")
    else
      var first := Services(data)[0];
      GetOr(first.etd, GetOr(first.std, Some("Unknown")))
  }

  /** One entry of a train's `calling_points`. */
  datatype CallingPointInfo = CallingPointInfo(
    station: Option<string>, crs: Option<string>, scheduled: Option<string>, expected: Option<string>)

  function CallingPointInfoOf(cp: CallingPoint): CallingPointInfo
  {
    CallingPointInfo(Get(cp.locationName), Get(cp.crs), Get(cp.st), Get(cp.et))
  }

  /** `cp_list.get("callingPoint") or []`. */
  function PointsOf(l: CallingPointList): seq<CallingPoint>
  {
    if l.callingPoint.Present? then l.callingPoint.value else []
  }

  function InfosOf(cps: seq<CallingPoint>): (r: seq<CallingPointInfo>)
    ensures |r| == |cps|
    ensures forall k :: 0 <= k < |cps| ==> r[k] == CallingPointInfoOf(cps[k])
  {
    seq(|cps|, k requires 0 <= k < |cps| => CallingPointInfoOf(cps[k]))
  }

  /** What one entry of `subsequentCallingPoints` contributes: nothing for a null entry. */
  function ListInfos(l: Option<CallingPointList>): seq<CallingPointInfo>
  {
    if l.Some? then InfosOf(PointsOf(l.value)) else []
  }

  /** The calling points of all lists, list after list. */
  function CallingPointsOf(lists: seq<Option<CallingPointList>>): seq<CallingPointInfo>
  {
    if |lists| == 0 then []
    else CallingPointsOf(lists[..|lists| - 1]) + ListInfos(lists[|lists| - 1])
  }

  /** Adding one list at the end adds its calling points at the end. */
  lemma CallingPointsSnoc(lists: seq<Option<CallingPointList>>, l: Option<CallingPointList>)
    ensures CallingPointsOf(lists + [l]) == CallingPointsOf(lists) + ListInfos(l)
  {
    assert (lists + [l])[..|lists|] == lists;
  }

  /** A null entry of `subsequentCallingPoints` is skipped: removing it changes nothing. */
  lemma {:induction false} NullCallingListsSkipped(a: seq<Option<CallingPointList>>, b: seq<Option<CallingPointList>>)
    ensures CallingPointsOf(a + [None] + b) == CallingPointsOf(a + b)
    decreases |b|
  {
    if |b| == 0 {
      assert a + [None] + b == a + [None];
      assert a + b == a;
      CallingPointsSnoc(a, None);
    } else {
      var front := b[..|b| - 1];
      var l := b[|b| - 1];
      assert a + [None] + b == (a + [None] + front) + [l];
      assert a + b == (a + front) + [l];
      NullCallingListsSkipped(a, front);
      CallingPointsSnoc(a + [None] + front, l);
      CallingPointsSnoc(a + front, l);
    }
  }

  /** A calling point is collected exactly when it belongs to one of the non-null lists. */
  lemma {:induction false} CallingPointsComeFromLists(lists: seq<Option<CallingPointList>>, c: CallingPointInfo)
    ensures c in CallingPointsOf(lists) <==> exists i :: 0 <= i < |lists| && c in ListInfos(lists[i])
    decreases |lists|
  {
    if lists != [] {
      var init := lists[..|lists| - 1];
      CallingPointsComeFromLists(init, c);
      if c in CallingPointsOf(lists) {
        if c in CallingPointsOf(init) {
          var i :| 0 <= i < |init| && c in ListInfos(init[i]);
          assert lists[i] == init[i];
        } else {
          assert c in ListInfos(lists[|lists| - 1]);
        }
      } else {
        forall i | 0 <= i < |lists| ensures c !in ListInfos(lists[i]) {
          if i < |init| {
            assert lists[i] == init[i];
          }
        }
      }
    }
  }

  /** The nested loop that gathers calling points, skipping null lists. */
  method CollectCallingPoints(lists: seq<Option<CallingPointList>>) returns (points: seq<CallingPointInfo>)
    ensures points == CallingPointsOf(lists)
  {
    points := [];
    for i := 0 to |lists|
      invariant points == CallingPointsOf(lists[..i])
    {
      assert lists[..i + 1][..i] == lists[..i];
      if lists[i].None? {
        continue;
      }
      var cps := PointsOf(lists[i].value);
      ghost var before := points;
      for j := 0 to |cps|
        invariant points == before + InfosOf(cps[..j])
      {
        assert InfosOf(cps[..j + 1]) == InfosOf(cps[..j]) + [CallingPointInfoOf(cps[j])];
        points := points + [CallingPointInfoOf(cps[j])];
      }
      assert cps[..|cps|] == cps;
    }
    assert lists[..|lists|] == lists;
  }

  /** The first entry of `destination` (departure sensors) or `origin` (arrival sensors). */
  datatype EndpointInfo = EndpointInfo(name: Option<string>, crs: Option<string>)

  /** One entry of the `trains` attribute. `endpoint` is absent when the service has no
      destination (or origin) list or an empty one; `callingPoints` is absent when the
      service has no non-empty `subsequentCallingPoints`. */
  datatype TrainInfo = TrainInfo(
    scheduled: Option<string>, expected: Option<string>, platform: Option<string>,
    operator: Option<string>, operatorCode: Option<string>, isCancelled: Option<bool>,
    cancelReason: Option<string>, delayReason: Option<string>,
    endpoint: Option<EndpointInfo>, callingPoints: Option<seq<CallingPointInfo>>)

  function EndpointOf(locations: Field<seq<Location>>): Option<EndpointInfo>
  {
    if locations.Present? && locations.value != [] then
      Some(EndpointInfo(Get(locations.value[0].locationName), Get(locations.value[0].crs)))
    else None
  }

  /** The `trains` entry of one service, for a sensor of the given kind. */
  function TrainInfoOf(svc: Service, kind: BoardKind): TrainInfo
  {
    TrainInfo(
      TextOr(svc.std, svc.sta), TextOr(svc.etd, svc.eta), GetOr(svc.platform, Some("TBC")),
      Get(svc.operator), Get(svc.operatorCode), GetOr(svc.isCancelled, Some(false)),
      Get(svc.cancelReason), Get(svc.delayReason),
      EndpointOf(if kind == Departures then svc.destination else svc.origin),
      if svc.subsequentCallingPoints.Present? && svc.subsequentCallingPoints.value != [] then
        Some(Take(CallingPointsOf(svc.subsequentCallingPoints.value), 8))
      else None)
  }

  method TrainInfoFor(svc: Service, kind: BoardKind) returns (info: TrainInfo)
    ensures info == TrainInfoOf(svc, kind)
  {
    info := TrainInfo(
      TextOr(svc.std, svc.sta), TextOr(svc.etd, svc.eta), GetOr(svc.platform, Some("TBC")),
      Get(svc.operator), Get(svc.operatorCode), GetOr(svc.isCancelled, Some(false)),
      Get(svc.cancelReason), Get(svc.delayReason),
      EndpointOf(if kind == Departures then svc.destination else svc.origin), None);
    if svc.subsequentCallingPoints.Present? && svc.subsequentCallingPoints.value != [] {
      var points := CollectCallingPoints(svc.subsequentCallingPoints.value);
      info := info.(callingPoints := Some(Take(points, 8)));
    }
  }

  /** A train sensor: what it shows (departures or arrivals) and its destination filter. */
  datatype TrainSensor = TrainSensor(kind: BoardKind, filterCrs: Option<string>, destinationName: Option<string>)

  /** The attributes of a train sensor; `apiSource` is the unified client's remembered source
      at the time the attributes are read. */
  datatype TrainAttributes = TrainAttributes(
    stationName: Option<string>, crs: Option<string>, generatedAt: Option<string>,
    filterCrs: Option<string>, filterDestination: Option<string>, trains: seq<TrainInfo>,
    nrccMessages: Option<seq<Json>>, platformsAvailable: Option<bool>,
    servicesAvailable: Option<bool>, apiSource: Option<Source>)

  function TrainsOf(services: seq<Service>, kind: BoardKind): (r: seq<TrainInfo>)
    ensures |r| == |services|
  {
    seq(|services|, i requires 0 <= i < |services| => TrainInfoOf(services[i], kind))
  }

  /** The attributes, or `None` (the empty mapping) for an empty board. */
  function TrainAttributesOf(sensor: TrainSensor, data: Board, apiSource: Option<Source>): Option<TrainAttributes>
  {
    if !NonEmpty(data) then None
    else Some(TrainAttributes(
      Get(data.locationName), Get(data.crs), Get(data.generatedAt),
      sensor.filterCrs, sensor.destinationName, TrainsOf(Take(Services(data), 10), sensor.kind),
      GetOr(data.nrccMessages, Some([])), GetOr(data.platformAvailable, Some(false)),
      GetOr(data.areServicesAvailable, Some(true)), apiSource))
  }

  /** `extra_state_attributes`: the loop over the first ten services. */
  method ExtraTrainAttributes(sensor: TrainSensor, data: Board, apiSource: Option<Source>)
    returns (attrs: Option<TrainAttributes>)
    ensures attrs == TrainAttributesOf(sensor, data, apiSource)
  {
    if !NonEmpty(data) {
      return None;
    }
    var services := Take(Services(data), 10);
    var trains: seq<TrainInfo> := [];
    for i := 0 to |services|
      invariant trains == TrainsOf(services[..i], sensor.kind)
    {
      var info := TrainInfoFor(services[i], sensor.kind);
      trains := trains + [info];
    }
    assert services[..|services|] == services;
    attrs := Some(TrainAttributes(
      Get(data.locationName), Get(data.crs), Get(data.generatedAt),
      sensor.filterCrs, sensor.destinationName, trains,
      GetOr(data.nrccMessages, Some([])), GetOr(data.platformAvailable, Some(false)),
      GetOr(data.areServicesAvailable, Some(true)), apiSource));
  }

  /** At most ten trains, the first services in board order, each with at most eight calling points. */
  lemma TrainAttributesBounds(sensor: TrainSensor, data: Board, apiSource: Option<Source>)
    ensures var attrs := TrainAttributesOf(sensor, data, apiSource);
      && (attrs.Some? <==> NonEmpty(data))
      && (attrs.Some? ==>
            && |attrs.value.trains| == Min(10, |Services(data)|)
            && (forall i :: 0 <= i < |attrs.value.trains| ==>
                  attrs.value.trains[i] == TrainInfoOf(Services(data)[i], sensor.kind))
            && (forall i :: 0 <= i < |attrs.value.trains| ==>
                  var cps := attrs.value.trains[i].callingPoints; cps.Some? ==> |cps.value| <= 8))
  {
  }

  /** The state agrees with the attributes: `No services` goes with an empty train list, and
      a first service with a non-empty `etd` gives that time as both the state and the first
      train's expected time. */
  lemma TrainStateMatchesFirstTrain(sensor: TrainSensor, data: Board, apiSource: Option<Source>)
    requires NonEmpty(data)
    ensures var trains := TrainAttributesOf(sensor, data, apiSource).value.trains;
      && (trains == [] ==> TrainNativeValue(data) == Some("No services"))
      && (trains != [] && Services(data)[0].etd.Present? && Services(data)[0].etd.value != "" ==>
            TrainNativeValue(data) == trains[0].expected == Some(Services(data)[0].etd.value))
  {
  }

  // ---------------------------------------------------------------------------
  // Line status sensor
  // ---------------------------------------------------------------------------

  /** `line.get("lineStatuses", [])`. */
  function StatusesOf(line: Line): seq<LineStatus>
  {
    line.lineStatuses.GetOr([])
  }

  /** Every status of every line, line after line. */
  function AllStatuses(lines: seq<Line>): seq<LineStatus>
  {
    if lines == [] then [] else AllStatuses(lines[..|lines| - 1]) + StatusesOf(lines[|lines| - 1])
  }

  lemma {:induction false} AllStatusesAppend(a: seq<Line>, b: seq<Line>)
    ensures AllStatuses(a + b) == AllStatuses(a) + AllStatuses(b)
    decreases |b|
  {
    if b == [] {
      assert a + b == a;
    } else {
      var ab := a + b;
      assert ab[..|ab| - 1] == a + b[..|b| - 1];
      assert ab[|ab| - 1] == b[|b| - 1];
      AllStatusesAppend(a, b[..|b| - 1]);
    }
  }

  /** `status.get("statusSeverity", 10)`: below 10 means disruption. */
  function Severity(s: LineStatus): int
  {
    s.statusSeverity.GetOr(10)
  }

  /** The position of the first disrupted status, or `|st|` when there is none. */
  function FirstSevereIndex(st: seq<LineStatus>): (k: nat)
    ensures k <= |st|
    ensures forall j :: 0 <= j < k ==> Severity(st[j]) >= 10
    ensures k < |st| ==> Severity(st[k]) < 10
  {
    if st == [] then 0
    else if Severity(st[0]) < 10 then 0
    else 1 + FirstSevereIndex(st[1..])
  }

  /** The line sensor's state. */
  function LineStatusValueOf(data: seq<Line>): Option<string>
  {
    if data == [] then Some("Unknown")
    else
      var st := AllStatuses(data);
      var k := FirstSevereIndex(st);
      if k < |st| then GetOr(st[k].statusSeverityDescription, Some("Issues"))
      else if st != [] then Some("Good Service")
      else Some("Unknown")
  }

  /** The state, case by case: `Unknown` without data; the description of the first disrupted
      status (default `Issues`) when there is one; otherwise `Good Service` when some status
      was reported and `Unknown` when none was. */
  lemma LineStatusCases(data: seq<Line>)
    ensures data == [] ==> LineStatusValueOf(data) == Some("Unknown")
    ensures var st := AllStatuses(data);
      forall i :: 0 <= i < |st| && Severity(st[i]) < 10 && (forall j :: 0 <= j < i ==> Severity(st[j]) >= 10) ==>
        LineStatusValueOf(data) == GetOr(st[i].statusSeverityDescription, Some("Issues"))
    ensures var st := AllStatuses(data);
      (forall i :: 0 <= i < |st| ==> Severity(st[i]) >= 10) ==>
        LineStatusValueOf(data) == if st == [] then Some("Unknown") else Some("Good Service")
  {
    var st := AllStatuses(data);
    if data == [] {
      assert st == [];
    }
    var k := FirstSevereIndex(st);
    forall i | 0 <= i < |st| && Severity(st[i]) < 10 && (forall j :: 0 <= j < i ==> Severity(st[j]) >= 10)
      ensures k == i
    {
    }
  }

  /** `native_value`: the nested loop over lines and their statuses, returning at the first
      disrupted one. */
  method LineNativeValue(data: seq<Line>) returns (v: Option<string>)
    ensures v == LineStatusValueOf(data)
  {
    if data == [] {
      return Some("Unknown");
    }
    var statuses: seq<Option<string>> := [];
    ghost var seen: seq<LineStatus> := [];
    for i := 0 to |data|
      invariant seen == AllStatuses(data[..i])
      invariant |statuses| == |seen|
      invariant forall j :: 0 <= j < |seen| ==> Severity(seen[j]) >= 10
    {
      assert data[..i + 1][..i] == data[..i];
      var lineStatuses := StatusesOf(data[i]);
      for j := 0 to |lineStatuses|
        invariant seen == AllStatuses(data[..i]) + lineStatuses[..j]
        invariant |statuses| == |seen|
        invariant forall j :: 0 <= j < |seen| ==> Severity(seen[j]) >= 10
      {
        var status := lineStatuses[j];
        var severity := status.statusSeverity.GetOr(10);
        if severity < 10 {
          FirstSevereInContext(data, i, j);
          return GetOr(status.statusSeverityDescription, Some("Issues"));
        }
        assert lineStatuses[..j + 1] == lineStatuses[..j] + [status];
        seen := seen + [status];
        statuses := statuses + [GetOr(status.statusSeverityDescription, Some("Unknown"))];
      }
      assert lineStatuses[..|lineStatuses|] == lineStatuses;
      assert AllStatuses(data[..i + 1]) == AllStatuses(data[..i]) + lineStatuses;
    }
    assert data[..|data|] == data;
    assert FirstSevereIndex(seen) == |seen|;
    v := if statuses != [] then Some("Good Service") else Some("Unknown");
  }

  /** The `j`-th status of line `i`, when every status before it is undisrupted and it is not,
      is the first disrupted status of all lines. */
  lemma FirstSevereInContext(data: seq<Line>, i: nat, j: nat)
    requires i < |data| && j < |StatusesOf(data[i])|
    requires var before := AllStatuses(data[..i]) + StatusesOf(data[i])[..j];
      forall k :: 0 <= k < |before| ==> Severity(before[k]) >= 10
    requires Severity(StatusesOf(data[i])[j]) < 10
    ensures var st := AllStatuses(data);
      var p := |AllStatuses(data[..i])| + j;
      p < |st| && st[p] == StatusesOf(data[i])[j] && FirstSevereIndex(st) == p
  {
    var line := StatusesOf(data[i]);
    var before := AllStatuses(data[..i]) + line[..j];
    assert data == data[..i] + [data[i]] + data[i + 1..];
    AllStatusesAppend(data[..i] + [data[i]], data[i + 1..]);
    AllStatusesAppend(data[..i], [data[i]]);
    assert AllStatuses([data[i]]) == line by {
      assert [data[i]][..0] == [];
    }
    var st := AllStatuses(data);
    assert st == AllStatuses(data[..i]) + line + AllStatuses(data[i + 1..]);
    var p := |AllStatuses(data[..i])| + j;
    assert st[p] == line[j];
    forall k | 0 <= k < p ensures Severity(st[k]) >= 10 {
      assert st[k] == before[k];
    }
  }

  /** One entry of the line sensor's `lines` attribute. */
  datatype StatusDetail = StatusDetail(status: Option<string>, severity: Option<int>, reason: Option<string>)
  datatype LineDetail = LineDetail(lineId: Option<string>, lineName: Option<string>, mode: Option<string>,
                                   status: Option<StatusDetail>)

  function LineDetailOf(line: Line): LineDetail
  {
    var st := StatusesOf(line);
    LineDetail(Get(line.id), Get(line.name), Get(line.modeName),
      if st != [] then Some(StatusDetail(Get(st[0].statusSeverityDescription), st[0].statusSeverity, Get(st[0].reason)))
      else None)
  }

  function LineDetailsOf(data: seq<Line>): (r: Option<seq<LineDetail>>)
    ensures r.Some? ==> |r.value| == |data|
  {
    if data == [] then None
    else Some(seq(|data|, i requires 0 <= i < |data| => LineDetailOf(data[i])))
  }

  /** `extra_state_attributes` of the line sensor: one entry per line, in order, with the
      line's first status. `None` stands for the empty mapping. */
  method LineAttributes(data: seq<Line>) returns (details: Option<seq<LineDetail>>)
    ensures details == LineDetailsOf(data)
  {
    if data == [] {
      return None;
    }
    var lines: seq<LineDetail> := [];
    for i := 0 to |data|
      invariant |lines| == i
      invariant forall k :: 0 <= k < i ==> lines[k] == LineDetailOf(data[k])
    {
      lines := lines + [LineDetailOf(data[i])];
    }
    assert lines == LineDetailsOf(data).value;
    details := Some(lines);
  }

  /** When the first line's first status is disrupted, the state is that status's description
      and the first attribute entry reports the same status. */
  lemma LineStateMatchesDetails(data: seq<Line>)
    requires data != [] && StatusesOf(data[0]) != [] && Severity(StatusesOf(data[0])[0]) < 10
    ensures var s := StatusesOf(data[0])[0];
      && LineStatusValueOf(data) == GetOr(s.statusSeverityDescription, Some("Issues"))
      && LineDetailsOf(data).value[0].status == Some(StatusDetail(Get(s.statusSeverityDescription), s.statusSeverity, Get(s.reason)))
  {
    FirstSevereInContext(data, 0, 0);
    assert data[..0] == [];
  }

  // ---------------------------------------------------------------------------
  // Bus arrival sensor
  // ---------------------------------------------------------------------------

  /** `arrival.get("timeToStation", 0) // 60`: whole minutes, rounded down (also for a
      negative time). */
  function Minutes(a: Arrival): (m: int)
    ensures var t := a.timeToStation.GetOr(0); 60 * m <= t < 60 * m + 60
  {
    a.timeToStation.GetOr(0) / 60
  }

  /** The state: nothing without arrivals, else the first arrival's minutes followed by ` min`. */
  function BusNativeValue(data: seq<Arrival>): (v: Option<string>)
    ensures v.None? <==> data == []
    ensures v.Some? ==>
              var n := |v.value|;
              n > 4 && v.value[n - 4..] == " min" && ParseInt(v.value[..n - 4]) == Some(Minutes(data[0]))
  {
    if data == [] then None
    else
      var text := IntToString(Minutes(data[0]));
      ParseIntToString(Minutes(data[0]));
      assert (text + " min")[..|text|] == text;
      Some(text + " min")
  }

  /** The `No buses` branch of the source can never be taken: with arrivals the state ends
      in ` min`, without them it is `None`. */
  lemma NoBusesIsUnreachable(data: seq<Arrival>)
    ensures BusNativeValue(data) != Some("No buses")
  {
  }

  /** One entry of the bus sensor's `buses` attribute. */
  datatype BusInfo = BusInfo(
    line: Option<string>, destination: Option<string>, expectedArrival: Option<string>,
    minutes: int, towards: Option<string>, vehicleId: Option<string>)

  datatype BusAttributes = BusAttributes(stopId: string, buses: seq<BusInfo>)

  function BusInfoOf(a: Arrival): BusInfo
  {
    BusInfo(Get(a.lineName), a.destinationName, a.expectedArrival, Minutes(a), Get(a.towards), Get(a.vehicleId))
  }

  function BusesOf(data: seq<Arrival>): (r: seq<BusInfo>)
    ensures |r| == |data|
  {
    seq(|data|, i requires 0 <= i < |data| => BusInfoOf(data[i]))
  }

  /** The attributes, or `None` (the empty mapping) without arrivals. */
  function BusAttributesOf(stopId: string, data: seq<Arrival>): Option<BusAttributes>
  {
    if data == [] then None else Some(BusAttributes(stopId, BusesOf(Take(data, 10))))
  }

  /** `extra_state_attributes` of the bus sensor: the loop over the first ten arrivals. */
  method BusArrivalAttributes(stopId: string, data: seq<Arrival>) returns (attrs: Option<BusAttributes>)
    ensures attrs == BusAttributesOf(stopId, data)
  {
    if data == [] {
      return None;
    }
    var first := Take(data, 10);
    var buses: seq<BusInfo> := [];
    for i := 0 to |first|
      invariant buses == BusesOf(first[..i])
    {
      buses := buses + [BusInfoOf(first[i])];
    }
    assert first[..|first|] == first;
    attrs := Some(BusAttributes(stopId, buses));
  }

  /** At most ten buses, the first arrivals in order, and the first one's minutes are the
      minutes the state shows. */
  lemma BusAttributesMatchState(stopId: string, data: seq<Arrival>)
    ensures var attrs := BusAttributesOf(stopId, data);
      && (attrs.Some? <==> BusNativeValue(data).Some?)
      && (attrs.Some? ==>
            && attrs.value.stopId == stopId
            && |attrs.value.buses| == Min(10, |data|)
            && (forall i :: 0 <= i < |attrs.value.buses| ==> attrs.value.buses[i] == BusInfoOf(data[i]))
            && ParseInt(BusNativeValue(data).value[..|BusNativeValue(data).value| - 4]) == Some(attrs.value.buses[0].minutes))
  {
  }
}
