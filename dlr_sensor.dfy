/** The DLR departure sensor: its name and unique id, and the update that turns the
    stop's arrival predictions into the ten soonest departures towards the destination. */
module DlrSensor {

  import opened Wrappers
  import opened Text
  import opened Payloads
  import opened Const

  /** The sensor-type part of the unique id. The constant is not defined in the constants
      module of the integration; the value is the one its documentation shows. */
  const SensorDlrDepartures := "dlr_departures"

  // ---------------------------------------------------------------------------
  // Name and unique id
  // ---------------------------------------------------------------------------

  /** The destination as the name shows it: without ` DLR Station`. */
  function CleanDestination(filter: string): string
  {
    ReplaceAll(filter, " DLR Station", "")
  }

  /** `_generate_name`. */
  function GenerateName(stationName: string, filter: Option<string>): string
  {
    var base := "DLR " + stationName;
    if Truthy(filter) then base + " to " + CleanDestination(filter.value) else base
  }

  /** The destination as the unique id shows it: lower-cased, without ` dlr station`, spaces
      turned into underscores. */
  function FilterSlug(filter: string): string
  {
    ReplaceAll(ReplaceAll(Lower(filter), " dlr station", ""), " ", "_")
  }

  function BaseId(stationId: string): string
  {
    Domain + "_" + SensorDlrDepartures + "_" + stationId
  }

  /** `_generate_unique_id`. */
  function GenerateUniqueId(stationId: string, filter: Option<string>): string
  {
    if Truthy(filter) then BaseId(stationId) + "_to_" + FilterSlug(filter.value) else BaseId(stationId)
  }

  /** Without a (non-empty) filter the name is `DLR {station}` and the id is the base id;
      with one, both extend those, and a filter that does not mention ` DLR Station`
      appears in the name verbatim. */
  lemma NameAndIdShape(stationName: string, stationId: string, filter: Option<string>)
    ensures !Truthy(filter) ==>
              GenerateName(stationName, filter) == "DLR " + stationName
              && GenerateUniqueId(stationId, filter) == BaseId(stationId)
    ensures Truthy(filter) ==>
              IsPrefix("DLR " + stationName + " to ", GenerateName(stationName, filter))
              && IsPrefix(BaseId(stationId) + "_to_", GenerateUniqueId(stationId, filter))
    ensures Truthy(filter) && !Contains(filter.value, " DLR Station") ==>
              GenerateName(stationName, filter) == "DLR " + stationName + " to " + filter.value
  {
    if Truthy(filter) {
      if !Contains(filter.value, " DLR Station") {
        ReplaceAbsent(filter.value, " DLR Station", "");
      }
      var name := GenerateName(stationName, filter);
      assert name == ("DLR " + stationName + " to ") + CleanDestination(filter.value);
      var id := GenerateUniqueId(stationId, filter);
      assert id == (BaseId(stationId) + "_to_") + FilterSlug(filter.value);
    }
  }

  /** The slug is id-safe: it holds no space and no upper-case letter. */
  lemma SlugIsIdSafe(filter: string)
    ensures forall i :: 0 <= i < |FilterSlug(filter)| ==>
              FilterSlug(filter)[i] != ' ' && !IsUpperAscii(FilterSlug(filter)[i])
  {
    var lowered := Lower(filter);
    var trimmed := ReplaceAll(lowered, " dlr station", "");
    LowerHasNoUpper(filter);
    ReplaceChars(lowered, " dlr station", "");
    ReplaceCharPointwise(trimmed, ' ', '_');
    var slug := FilterSlug(filter);
    forall i | 0 <= i < |slug| ensures slug[i] != ' ' && !IsUpperAscii(slug[i]) {
      if trimmed[i] != ' ' {
        assert trimmed[i] in trimmed;
        assert trimmed[i] in lowered;
        var k :| 0 <= k < |lowered| && lowered[k] == trimmed[i];
      }
    }
  }

  /** The suffixes the name and the slug drop cannot overlap themselves. */
  lemma StationSuffixUnbordered()
    ensures Unbordered(" DLR Station") && Unbordered(" dlr station")
  {
    var p, q := " DLR Station", " dlr station";
    forall k | 0 < k < 12 ensures p[k..] != p[..12 - k] && q[k..] != q[..12 - k] {
      if k == 4 {
        assert p[k..][1] != p[..12 - k][1] && q[k..][1] != q[..12 - k][1];
      } else {
        assert p[k..][0] != p[..12 - k][0] && q[k..][0] != q[..12 - k][0];
      }
    }
  }

  lemma LowerStationSuffix()
    ensures Lower(" DLR Station") == " dlr station"
  {
    LowerPointwise(" DLR Station", " dlr station");
  }

  /** A filter written as the full station name loses its ` DLR Station` suffix in the name. */
  lemma NameDropsStationSuffix(stationName: string, dest: string)
    requires !Contains(dest, " DLR Station")
    ensures GenerateName(stationName, Some(dest + " DLR Station")) == "DLR " + stationName + " to " + dest
  {
    StationSuffixUnbordered();
    ReplaceAppended(dest, " DLR Station", "");
    assert dest + "" == dest;
  }

  /** A filter written as the full station name gets the same slug as the bare destination. */
  lemma SlugDropsStationSuffix(dest: string)
    requires !Contains(Lower(dest), " dlr station")
    ensures FilterSlug(dest + " DLR Station") == FilterSlug(dest)
  {
    LowerAppend(dest, " DLR Station");
    LowerStationSuffix();
    StationSuffixUnbordered();
    ReplaceAppended(Lower(dest), " dlr station", "");
    ReplaceAbsent(Lower(dest), " dlr station", "");
    assert Lower(dest) + "" == Lower(dest);
  }

  /** Without ` dlr station` in it, the slug is the filter lower-cased with every space
      turned into `_`, character by character. */
  lemma SlugPointwise(dest: string)
    requires !Contains(Lower(dest), " dlr station")
    ensures |FilterSlug(dest)| == |dest|
    ensures forall i :: 0 <= i < |dest| ==>
              FilterSlug(dest)[i] == if dest[i] == ' ' then '_' else LowerChar(dest[i])
  {
    ReplaceAbsent(Lower(dest), " dlr station", "");
    ReplaceCharPointwise(Lower(dest), ' ', '_');
  }

  lemma BankSlug()
    ensures FilterSlug("Bank") == "bank"
  {
    var lowered := Lower("Bank");
    assert lowered[0] == 'b' && lowered[1] == 'a' && lowered[2] == 'n' && lowered[3] == 'k';
    assert lowered == "bank";
    assert ReplaceAll("bank", " dlr station", "") == "bank";
    assert ReplaceAll("bank", " ", "_") == "bank";
  }

  /** The name of the sensor the setup creates: Lewisham towards Bank. */
  lemma LewishamToBankName()
    ensures GenerateName("Lewisham", Some("Bank")) == "DLR Lewisham to Bank"
  {
    assert CleanDestination("Bank") == "Bank";
  }

  /** The unique id of the sensor the setup creates: Lewisham towards Bank. */
  lemma LewishamToBankId()
    ensures GenerateUniqueId("940GZZDLLEW", Some("Bank")) == "tfl_local_transport_dlr_departures_940GZZDLLEW_to_bank"
  {
    BankSlug();
    var base := BaseId("940GZZDLLEW");
    assert GenerateUniqueId("940GZZDLLEW", Some("Bank")) == base + "_to_" + FilterSlug("Bank");
    assert base == "tfl_local_transport_dlr_departures_940GZZDLLEW";
  }

  // ---------------------------------------------------------------------------
  // Departures
  // ---------------------------------------------------------------------------

  /** One processed departure. `expectedTime` is the `%H:%M` rendering of the expected
      arrival, or `Unknown`. */
  datatype DlrDeparture = DlrDeparture(
    destination: string, platform: Option<string>, expectedArrival: Option<string>,
    timeToStation: int, currentLocation: Option<string>, direction: Option<string>,
    lineName: Option<string>, towards: Option<string>, minutesUntil: int, expectedTime: string)

  /** The destination filter: with a non-empty filter, the destination must contain it,
      ignoring case. */
  predicate PassesFilter(filter: Option<string>, a: Arrival)
  {
    !Truthy(filter) || Contains(Lower(a.destinationName.GetOr("")), Lower(filter.value))
  }

  /** The filter ignores the case it is written in. */
  lemma FilterIgnoresCase(filter: string, a: Arrival)
    ensures PassesFilter(Some(Upper(filter)), a) == PassesFilter(Some(filter), a)
    ensures PassesFilter(Some(Lower(filter)), a) == PassesFilter(Some(filter), a)
  {
    LowerIgnoresCase(filter);
  }

  /** A destination that starts with the filter passes it, whatever the case of either:
      `Bank` picks out trains to `Bank DLR Station`. */
  lemma DestinationStartingWithFilterPasses(filter: string, rest: string, a: Arrival)
    requires filter != ""
    requires a.destinationName == Some(filter + rest)
    ensures PassesFilter(Some(filter), a)
  {
    var dest := Lower(filter + rest);
    var f := Lower(filter);
    assert forall i :: 0 <= i < |f| ==> dest[i] == f[i];
    assert dest[..|f|] == f;
    assert IsPrefix(f, dest);
  }

  /** `expected_time`: `render` stands for the ISO parse and `%H:%M` formatting of a time
      (`None` when parsing fails); without an expected arrival the time is `Unknown`. */
  function ExpectedTimeOf(expected: Option<string>, render: string -> Option<string>): string
  {
    if Truthy(expected) then render(ReplaceAll(expected.value, "Z", "+00:00")).GetOr("Unknown") else "Unknown"
  }

  /** The departure made from one arrival. Its minutes are the whole minutes to the station,
      rounded down, and never negative. */
  function ToDeparture(a: Arrival, render: string -> Option<string>): (d: DlrDeparture)
    ensures d.timeToStation == a.timeToStation.GetOr(0)
    ensures d.minutesUntil >= 0
    ensures d.timeToStation >= 0 ==> 60 * d.minutesUntil <= d.timeToStation < 60 * d.minutesUntil + 60
    ensures d.timeToStation < 60 ==> d.minutesUntil == 0
  {
    var t := a.timeToStation.GetOr(0);
    DlrDeparture(
      a.destinationName.GetOr("Unknown"), GetOr(a.platformName, Some("")), a.expectedArrival, t,
      GetOr(a.currentLocation, Some("")), GetOr(a.direction, Some("")), GetOr(a.lineName, Some("DLR")),
      GetOr(a.towards, Some("")), if t / 60 > 0 then t / 60 else 0, ExpectedTimeOf(a.expectedArrival, render))
  }

  /** The departures made from the arrivals that pass the filter, in arrival order. */
  function Processed(arrivals: seq<Arrival>, filter: Option<string>, render: string -> Option<string>): seq<DlrDeparture>
  {
    if arrivals == [] then []
    else
      var last := arrivals[|arrivals| - 1];
      Processed(arrivals[..|arrivals| - 1], filter, render)
        + (if PassesFilter(filter, last) then [ToDeparture(last, render)] else [])
  }

  /** A departure is processed exactly when it is made from an arrival that passes the filter. */
  lemma {:induction false} ProcessedMembers(arrivals: seq<Arrival>, filter: Option<string>,
                                            render: string -> Option<string>, d: DlrDeparture)
    ensures d in Processed(arrivals, filter, render) <==>
              exists i :: 0 <= i < |arrivals| && PassesFilter(filter, arrivals[i]) && d == ToDeparture(arrivals[i], render)
    decreases |arrivals|
  {
    if arrivals != [] {
      var init := arrivals[..|arrivals| - 1];
      ProcessedMembers(init, filter, render, d);
      if d in Processed(init, filter, render) {
        var i :| 0 <= i < |init| && PassesFilter(filter, init[i]) && d == ToDeparture(init[i], render);
        assert arrivals[i] == init[i];
      } else if d in Processed(arrivals, filter, render) {
        assert PassesFilter(filter, arrivals[|arrivals| - 1]) && d == ToDeparture(arrivals[|arrivals| - 1], render);
      } else {
        forall i | 0 <= i < |arrivals| && PassesFilter(filter, arrivals[i])
          ensures d != ToDeparture(arrivals[i], render)
        {
          if i < |init| {
            assert arrivals[i] == init[i];
          }
        }
      }
    }
  }

  /** Ordered by time to the station, soonest first. */
  predicate SortedByTime(s: seq<DlrDeparture>)
  {
    forall k, l :: 0 <= k < l < |s| ==> s[k].timeToStation <= s[l].timeToStation
  }

  /** `kept` is a soonest-ten selection of `all`: the first ten (or all, if fewer) of `all`
      by time to the station, soonest first. */
  predicate SoonestTen(kept: seq<DlrDeparture>, all: seq<DlrDeparture>)
  {
    && |kept| == Min(10, |all|)
    && SortedByTime(kept)
    && multiset(kept) <= multiset(all)
    && forall d :: d in multiset(all) - multiset(kept) ==>
         forall k :: 0 <= k < |kept| ==> kept[k].timeToStation <= d.timeToStation
  }

  /** In a sorted sequence, nothing after position `m` is sooner than anything before it. */
  lemma SortedSplit(sorted: seq<DlrDeparture>, m: nat)
    requires SortedByTime(sorted) && m <= |sorted|
    ensures forall d :: d in multiset(sorted[m..]) ==>
              forall k :: 0 <= k < m ==> sorted[k].timeToStation <= d.timeToStation
  {
    forall d | d in multiset(sorted[m..])
      ensures forall k :: 0 <= k < m ==> sorted[k].timeToStation <= d.timeToStation
    {
      var j :| m <= j < |sorted| && sorted[j] == d;
    }
  }

  /** The first ten of a sorted permutation are a soonest-ten selection. */
  lemma SortedPrefixIsSoonest(sorted: seq<DlrDeparture>, all: seq<DlrDeparture>)
    requires SortedByTime(sorted) && multiset(sorted) == multiset(all)
    ensures SoonestTen(Take(sorted, 10), all)
  {
    var kept := Take(sorted, 10);
    var m := |kept|;
    assert |multiset(sorted)| == |sorted| && |multiset(all)| == |all|;
    assert sorted == kept + sorted[m..];
    assert multiset(sorted) == multiset(kept) + multiset(sorted[m..]);
    SortedSplit(sorted, m);
  }

  /** During insertion step `i`: every pair up to position `i` is in order, except the
      pairs whose later element sits at the position `j` of the element being moved. */
  predicate OrderedExcept(s: seq<DlrDeparture>, i: nat, j: nat)
  {
    forall k, l :: 0 <= k < l <= i && l < |s| && l != j ==> s[k].timeToStation <= s[l].timeToStation
  }

  /** `s` with positions `x - 1` and `x` exchanged. */
  function SwapDown(s: seq<DlrDeparture>, x: nat): (r: seq<DlrDeparture>)
    requires 0 < x < |s|
    ensures |r| == |s| && r[x - 1] == s[x] && r[x] == s[x - 1]
    ensures forall k :: 0 <= k < |s| && k != x - 1 && k != x ==> r[k] == s[k]
  {
    s[x - 1 := s[x]][x := s[x - 1]]
  }

  /** Moving the element at `j` one place left past a later one keeps the other pairs in order
      and keeps the multiset. */
  lemma SwapDownStep(s: seq<DlrDeparture>, i: nat, j: nat)
    requires 0 < j <= i < |s| && OrderedExcept(s, i, j)
    requires s[j - 1].timeToStation > s[j].timeToStation
    ensures OrderedExcept(SwapDown(s, j), i, j - 1)
    ensures multiset(SwapDown(s, j)) == multiset(s)
  {
  }

  /** One insertion step: `a[i]` moves left past the strictly later departures before it. */
  method InsertLeft(a: array<DlrDeparture>, i: nat)
    requires i < a.Length && OrderedExcept(a[..], i, i)
    modifies a
    ensures OrderedExcept(a[..], i, i + 1)
    ensures multiset(a[..]) == multiset(old(a[..]))
  {
    var j := i;
    while j > 0 && a[j - 1].timeToStation > a[j].timeToStation
      invariant 0 <= j <= i && OrderedExcept(a[..], i, j)
      invariant multiset(a[..]) == multiset(old(a[..]))
    {
      ghost var before := a[..];
      a[j - 1], a[j] := a[j], a[j - 1];
      assert a[..] == SwapDown(before, j);
      SwapDownStep(before, i, j);
      j := j - 1;
    }
  }

  /** `processed_departures.sort(key=time_to_station)`: an insertion sort in place. It
      moves an element left only past strictly later ones, so equal times keep their order. */
  method SortByTime(a: array<DlrDeparture>)
    modifies a
    ensures SortedByTime(a[..])
    ensures multiset(a[..]) == multiset(old(a[..]))
  {
    for i := 0 to a.Length
      invariant OrderedExcept(a[..], i, i)
      invariant multiset(a[..]) == multiset(old(a[..]))
    {
      InsertLeft(a, i);
    }
  }

  /** The processing of one update: filter and convert in a loop, sort, keep ten. */
  method ProcessArrivals(arrivals: seq<Arrival>, filter: Option<string>, render: string -> Option<string>)
    returns (departures: seq<DlrDeparture>)
    ensures SoonestTen(departures, Processed(arrivals, filter, render))
  {
    var processed: seq<DlrDeparture> := [];
    for i := 0 to |arrivals|
      invariant processed == Processed(arrivals[..i], filter, render)
    {
      assert arrivals[..i + 1][..i] == arrivals[..i];
      var arrival := arrivals[i];
      if Truthy(filter) {
        var destName := arrival.destinationName.GetOr("");
        if !Contains(Lower(destName), Lower(filter.value)) {
          continue;
        }
      }
      processed := processed + [ToDeparture(arrival, render)];
    }
    assert arrivals[..|arrivals|] == arrivals;
    var a := new DlrDeparture[|processed|](i requires 0 <= i < |processed| => processed[i]);
    assert a[..] == processed;
    SortByTime(a);
    SortedPrefixIsSoonest(a[..], processed);
    departures := Take(a[..], 10);
  }

  /** Every kept departure is made from an arrival that passes the filter, and no more than
      ten are kept. */
  lemma KeptDeparturesPassFilter(arrivals: seq<Arrival>, filter: Option<string>,
                                 render: string -> Option<string>, kept: seq<DlrDeparture>)
    requires SoonestTen(kept, Processed(arrivals, filter, render))
    ensures |kept| <= 10
    ensures forall k :: 0 <= k < |kept| ==>
              kept[k].minutesUntil >= 0
              && exists i :: 0 <= i < |arrivals| && PassesFilter(filter, arrivals[i])
                             && kept[k] == ToDeparture(arrivals[i], render)
  {
    forall k | 0 <= k < |kept|
      ensures exists i :: 0 <= i < |arrivals| && PassesFilter(filter, arrivals[i])
                          && kept[k] == ToDeparture(arrivals[i], render)
    {
      assert kept[k] in multiset(kept);
      ProcessedMembers(arrivals, filter, render, kept[k]);
    }
  }

  /** Without a filter every arrival is kept until the ten soonest are chosen. */
  lemma NoFilterKeepsAll(arrivals: seq<Arrival>, render: string -> Option<string>)
    ensures |Processed(arrivals, None, render)| == |arrivals|
    ensures |Processed(arrivals, Some(""), render)| == |arrivals|
  {
    if arrivals != [] {
      NoFilterKeepsAll(arrivals[..|arrivals| - 1], render);
    }
  }

  // ---------------------------------------------------------------------------
  // The sensor
  // ---------------------------------------------------------------------------

  /** `DLRDepartureSensor`: it polls by itself and keeps the departures and the time of
      the last successful update. */
  class DlrDepartureSensor {
    const stationId: string
    const stationName: string
    const destinationFilter: Option<string>
    const name: string
    const uniqueId: string
    var departures: seq<DlrDeparture>
    var lastUpdate: Option<string>

    /** At most ten departures, soonest first. */
    predicate Valid()
      reads this
    {
      |departures| <= 10 && SortedByTime(departures)
    }

    constructor (stationId: string, stationName: string, destinationFilter: Option<string>)
      ensures this.stationId == stationId && this.stationName == stationName
      ensures this.destinationFilter == destinationFilter
      ensures name == GenerateName(stationName, destinationFilter)
      ensures uniqueId == GenerateUniqueId(stationId, destinationFilter)
      ensures departures == [] && lastUpdate == None
      ensures Valid()
    {
      this.stationId := stationId;
      this.stationName := stationName;
      this.destinationFilter := destinationFilter;
      name := GenerateName(stationName, destinationFilter);
      uniqueId := GenerateUniqueId(stationId, destinationFilter);
      departures := [];
      lastUpdate := None;
    }

    /** The state: the number of departures held. */
    function State(): (n: nat)
      reads this
      requires Valid()
      ensures n <= 10
    {
      |departures|
    }

    /** `async_update`. `fetched` is what the arrivals request gives; `now` is the current
      time, rendered. An exception or an empty answer clears the departures and keeps the
      time of the last update; otherwise the soonest ten matching departures are stored. */
    method Update(fetched: Attempt<seq<Arrival>>, render: string -> Option<string>, now: string)
      modifies this
      ensures Valid()
      ensures fetched.Raised? || fetched.value == [] ==> departures == [] && lastUpdate == old(lastUpdate)
      ensures fetched.Returned? && fetched.value != [] ==>
                SoonestTen(departures, Processed(fetched.value, destinationFilter, render))
                && lastUpdate == Some(now)
    {
      if fetched.Raised? {
        departures := [];
        return;
      }
      var arrivals := fetched.value;
      if arrivals == [] {
        departures := [];
        return;
      }
      departures := ProcessArrivals(arrivals, destinationFilter, render);
      lastUpdate := Some(now);
    }
  }
}
