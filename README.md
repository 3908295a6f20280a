# TfL Local Transport — a Dafny model

This project models the core of the `tfl_local_transport` Home Assistant integration. The integration shows:

- live rail departures and arrivals for one station, from National Rail's Darwin API or from the Huxley2 proxy;
- TfL line status;
- bus-stop predictions;
- a DLR departure board (Docklands Light Railway).

The model covers four parts of the integration.

1. **Provider clients and the unified rail client** (`api.py`, module `Api`).
   - Request shapes:
     - the TfL URL with its optional `app_key`;
     - Darwin's query parameters and key header;
     - Huxley's path and its optional `accessToken`;
     - comma-joined line and mode lists.
   - Stop arrivals are sorted by `expectedArrival`.
   - Every provider method folds a failure into `{}` or `[]`.
   - `TrainApiClient` is a class. Its field `lastSource` is updated along the fallback's early-return branches. A ghost log `calls` records the provider calls made, in order.
   - The fallback policy is also a function, `Fallback`, and each method is proved against it.
2. **Sensor wiring** (`sensor.py`, module `SensorSetup`).
   - `SetupEntry`: the coordinators setup creates, in order.
   - The poll interval of each kind of coordinator.
   - The update step, which returns `Ok(data)` or `UpdateFailed(message)`.
   - One poll of each coordinator, run against the clients.
3. **Sensor reducers** (`sensor.py`, modules `SensorEntities` and `DlrSensor`).
   - The state and attributes of the train, line-status and bus sensors. Each of these loops is a method proved against a specification function.
   - The DLR sensor is a class. Its `Update`:
     - filters arrivals by destination, case-insensitively;
     - computes clamped minutes;
     - sorts the departures with an in-place insertion sort on an array;
     - keeps the ten soonest.
   - The DLR sensor's name and id slug.
4. **Configuration flow** (`config_flow.py`, module `ConfigFlow`).
   - The station code is upper-cased and checked for length 3.
   - Missing fields get defaults.
   - The numeric ranges are predicates.
   - The options step passes its input through.

Shared modules:

- `Text` models the Python string operations the code uses: ASCII `lower`/`upper`, `in`, `replace`, `join`, `split`, `str(int)` with its inverse, and code-point string order.
- `Payloads` holds the JSON records. A `Field<T>` distinguishes a missing key, an explicit `null` and a value, so `dict.get(key, default)` is modelled exactly.
- `Const` holds the integration's constants.

I/O is passed in as parameters:

- an HTTP exchange is given as its outcome, `Http<T>`: a status with a parsed body, an unparseable body, or a transport error;
- a Python exception is `Attempt.Raised`.

No HTTP request is made: every reply, the clock and the date formatting are parameters of the model.

Where the code and its documentation disagree, the model follows the code:

- **An empty board counts as success.** When both rail providers fail, the unified client returns `{}`, and the coordinator reports it as a successful update. Nothing in this code keeps the previous data in its place. `SensorSetup.BothProvidersEmptyIsSuccess` states this. Retention after `UpdateFailed` belongs to the Home Assistant framework, which is not part of this model.
- **Rail updates never fail.** Every provider method catches its own errors. So in practice a rail coordinator never raises `UpdateFailed` (`SensorSetup.RefreshTrainFeed`). The `UpdateFailed` path is still modelled in `SensorSetup.UpdateData`.
- **"No buses" is dead code.** The bus sensor's `"No buses"` branch can never be taken (`SensorEntities.NoBusesIsUnreachable`).

## Model

| member | source | states |
|---|---|---|
| Api.Fold | custom_components/tfl_local_transport/api.py:128-136 | the parsed body on status 200; the empty value on any other status, an unparseable body or a transport error |
| Api.BuildTflUrl | custom_components/tfl_local_transport/api.py:24-30 | `base/endpoint` unchanged without a truthy key; otherwise `app_key=<key>` is appended after `&` if the URL already has `?`, else after `?` |
| Api.TflKeyStartsQuery | custom_components/tfl_local_transport/api.py:24-30 | the base URL has no `?`, so an endpoint without one gets exactly `?app_key=<key>` |
| Api.LineIdsRoundTrip | custom_components/tfl_local_transport/api.py:32-35 | the comma-joined ids segment of `Line/{ids}/Status` splits back into the requested ids |
| Api.ModesRoundTrip | custom_components/tfl_local_transport/api.py:77-80 | the comma-joined modes segment of `Line/Mode/{modes}/Disruption` splits back into the requested modes |
| Api.QueriesFoldFailures | custom_components/tfl_local_transport/api.py:32-90 | line status, station info and disruptions ask the `_build_url` URL; they and the Huxley station search return the body on 200 and `[]`/`{}` otherwise |
| Api.GetStopArrivals | custom_components/tfl_local_transport/api.py:47-61 | asks `StopPoint/{id}/Arrivals`; on 200 returns a permutation of the body ordered by `expectedArrival` (missing as `""`); otherwise `[]` |
| Api.SortByExpected | custom_components/tfl_local_transport/api.py:56 | the result is a permutation of the input and is ordered by `expectedArrival` |
| Api.DarwinParams | custom_components/tfl_local_transport/api.py:114-121 | the keys are `numRows`, `timeOffset` and `timeWindow`, plus `filterCrs`/`filterType` exactly when the filter is truthy; the numbers read back unchanged |
| Api.DarwinGetBoard | custom_components/tfl_local_transport/api.py:102-136 | the URL is `.../GetDepBoardWithDetails/{crs}` (or `GetArr...`); the headers are exactly `x-apikey` (the key) and the `User-Agent`; the parameters are exactly those of `DarwinParams`, with the same values (numbers read back, `filterCrs`/`filterType` iff the filter is truthy); the result is the board or `{}` |
| Api.NewHuxleyClient | custom_components/tfl_local_transport/api.py:178-182 | the public proxy URL unless a truthy base URL is given |
| Api.HuxleyPathShape | custom_components/tfl_local_transport/api.py:195-198 | the path after the base splits into `{board}/{crs}/{type}/{filter}/{rows}` with a filter and `{board}/{crs}/{rows}` without one |
| Api.HuxleyParams | custom_components/tfl_local_transport/api.py:200-206 | the keys are `timeOffset`, `timeWindow` and `expand` (`"true"`/`"false"`), plus `accessToken` exactly when the key is truthy |
| Api.HuxleyGetBoard | custom_components/tfl_local_transport/api.py:184-216 | the URL is the Huxley URL; the parameters are exactly those of `HuxleyParams`, with the same values (`accessToken` iff the key is truthy); there are no headers; the result is the board or `{}` |
| Api.DarwinAnswerWins | custom_components/tfl_local_transport/api.py:331-345 | a non-empty Darwin board is returned as it is and tagged `darwin`, with one Darwin call and no Huxley call |
| Api.HuxleyCalledOnceOnFallback | custom_components/tfl_local_transport/api.py:346-362 | without Darwin, or when Darwin gives `{}` or raises, Huxley is called exactly once, last, and its outcome is returned |
| Api.CallsCarryRequest | custom_components/tfl_local_transport/api.py:333-359 | every provider call carries the caller's station, rows, filter, type, offset and window; Darwin is called first iff a Darwin client exists |
| Api.SourceTagRule | custom_components/tfl_local_transport/api.py:342-362 | the remembered source changes only when a non-empty board is returned, and then names the provider whose board it is |
| Api.ProviderAnswersNeverRaise | custom_components/tfl_local_transport/api.py:352-362 | fed the folded provider answers, the unified client never raises |
| Api.TrainApiClient.constructor | custom_components/tfl_local_transport/api.py:303-313 | a Darwin client only for a truthy key, a Huxley client always, no remembered source |
| Api.TrainApiClient.FetchBoard | custom_components/tfl_local_transport/api.py:320-362 | the result, the new `lastSource` and the calls appended are those of `Fallback` from the previous source |
| Api.TrainApiClient.GetDepartures | custom_components/tfl_local_transport/api.py:320-362 | `get_departures` follows `Fallback` for departure boards |
| Api.TrainApiClient.GetArrivals | custom_components/tfl_local_transport/api.py:364-406 | `get_arrivals` follows `Fallback` for arrival boards |
| Api.NoKeyScenario | custom_components/tfl_local_transport/api.py:303-362 | a client built with key `""` returns Huxley's board; the source stays `None` if that board is empty and becomes `huxley` otherwise |
| ConfigFlow.StepUser | custom_components/tfl_local_transport/config_flow.py:36-101 | no input shows the empty form; with input an entry is created iff the code has length 3, titled `Transport - {CODE}`; otherwise the form returns with `invalid_crs` |
| ConfigFlow.StoredCodeIsCanonical | custom_components/tfl_local_transport/config_flow.py:44-53 | the stored station code is upper-case and three characters long |
| ConfigFlow.EntryDefaults | custom_components/tfl_local_transport/config_flow.py:52-61 | a created entry has every key; each missing key gets `""`, `["CHX","LBG","VIC"]`, `[]`, `["southeastern"]`, 10 or 120 |
| ConfigFlow.EntryInRanges | custom_components/tfl_local_transport/config_flow.py:84-89 | input within the schema's ranges yields rows in [1,20] and a window in [30,300] |
| ConfigFlow.StepInit | custom_components/tfl_local_transport/config_flow.py:119-147 | input is stored unchanged with an empty title; without input the form offers the entry's destinations, rows and window |
| ConfigFlow.OptionsDefaultsInRanges | custom_components/tfl_local_transport/config_flow.py:137-144 | the options form's defaults are in range whenever the entry is |
| SensorSetup.SetupEntry | custom_components/tfl_local_transport/sensor.py:44-164 | creates exactly the planned coordinators in order, builds the clients from the entry's keys, and sets up the Lewisham-to-Bank DLR sensor |
| SensorSetup.FeedLayout | custom_components/tfl_local_transport/sensor.py:76-151 | the order is main departures, then one coordinator per destination among the first five, then arrivals, line status and one per bus stop |
| SensorSetup.LaterDestinationsNeverPolled | custom_components/tfl_local_transport/sensor.py:99 | a destination outside the first five gets no coordinator |
| SensorSetup.BusStopsFallBack | custom_components/tfl_local_transport/sensor.py:70 | a missing or empty bus-stop list falls back to the two default stops, which get the last coordinators |
| SensorSetup.DefaultDestinations | custom_components/tfl_local_transport/sensor.py:68 | an entry without destinations polls CHX, CST, VIC, LBG and WAT, and never WAE or STP |
| SensorSetup.FlowDefaultsFeedSetup | custom_components/tfl_local_transport/sensor.py:67-151 | an entry the user step creates from a bare code polls CHX, LBG and VIC plus the two default bus stops, 8 coordinators in all |
| SensorSetup.SetupDlrSensorIdentity | custom_components/tfl_local_transport/sensor.py:156-161 | the DLR sensor set up is named `DLR Lewisham to Bank` with id `tfl_local_transport_dlr_departures_940GZZDLLEW_to_bank` |
| SensorSetup.PollIntervalsByKind | custom_components/tfl_local_transport/sensor.py:196-302 | rail coordinators poll every 120 s, line status every 300 s, bus stops every 60 s |
| SensorSetup.UpdateData | custom_components/tfl_local_transport/sensor.py:199-211 | `Ok` holds exactly the client's result, empty or not; an exception becomes `UpdateFailed`, whose message is the kind's prefix followed by the error text |
| SensorSetup.BothProvidersEmptyIsSuccess | custom_components/tfl_local_transport/sensor.py:199-209 | two empty provider boards give a successful update carrying `{}`, and the remembered source does not change |
| SensorSetup.RefreshTrainFeed | custom_components/tfl_local_transport/sensor.py:199-254 | one rail poll is `Ok` of the fallback result over the folded provider replies, and updates the client's source and call log as `Fallback` says |
| SensorSetup.RefreshLineStatus | custom_components/tfl_local_transport/sensor.py:277-282 | a line-status poll is always `Ok`: the lines, or `[]` on failure |
| SensorSetup.RefreshBusStop | custom_components/tfl_local_transport/sensor.py:305-310 | a bus poll is always `Ok` and holds the client's result unchanged: the arrivals sorted by expected arrival, as a permutation of the reply on success, and `[]` on any failure |
| SensorEntities.TrainNativeValue | custom_components/tfl_local_transport/sensor.py:340-351 | the state is `None` for an empty board and `No services` without services; otherwise it is the first service's `etd` if that key is present, else its `std`, else `Unknown` |
| SensorEntities.CollectCallingPoints | custom_components/tfl_local_transport/sensor.py:388-398 | the nested loop gathers the calling points of every non-null list, in order |
| SensorEntities.CallingPointsComeFromLists | custom_components/tfl_local_transport/sensor.py:388-398 | a calling point is collected iff it belongs to one of the non-null lists |
| SensorEntities.NullCallingListsSkipped | custom_components/tfl_local_transport/sensor.py:391-392 | removing a null calling-point list changes nothing |
| SensorEntities.TrainInfoFor | custom_components/tfl_local_transport/sensor.py:363-401 | one train's entry, with the same defaults and `or` fallbacks as the source; calling points only for a non-empty list, truncated to 8 |
| SensorEntities.ExtraTrainAttributes | custom_components/tfl_local_transport/sensor.py:353-420 | the loop over the first ten services builds the specified attributes, or the empty mapping for an empty board |
| SensorEntities.TrainAttributesBounds | custom_components/tfl_local_transport/sensor.py:363-400 | at most 10 trains, the first services in board order, each with at most 8 calling points |
| SensorEntities.TrainStateMatchesFirstTrain | custom_components/tfl_local_transport/sensor.py:340-366 | `No services` goes with an empty train list; a non-empty first `etd` is both the state and the first train's expected time |
| SensorEntities.FirstSevereIndex | custom_components/tfl_local_transport/sensor.py:442-447 | locates the first status with severity below 10 (default 10); every status before it is undisrupted |
| SensorEntities.LineStatusCases | custom_components/tfl_local_transport/sensor.py:435-450 | `Unknown` without data; otherwise the first disrupted status's description (default `Issues`); otherwise `Good Service` iff some status was seen, else `Unknown` |
| SensorEntities.LineNativeValue | custom_components/tfl_local_transport/sensor.py:435-450 | the nested loop with its early return computes the state `LineStatusCases` describes |
| SensorEntities.LineAttributes | custom_components/tfl_local_transport/sensor.py:453-475 | one entry per line, in order, with the line's first status; the empty mapping without data |
| SensorEntities.LineStateMatchesDetails | custom_components/tfl_local_transport/sensor.py:442-470 | when the first line's first status is disrupted, the state and the first attribute entry report that status |
| SensorEntities.Minutes | custom_components/tfl_local_transport/sensor.py:498 | `timeToStation // 60`, with a missing time counted as 0, is floor division: `60m <= t < 60m + 60` |
| SensorEntities.BusNativeValue | custom_components/tfl_local_transport/sensor.py:491-500 | the state is `None` iff there are no arrivals; otherwise it is the first arrival's minutes followed by ` min`, and the number parses back |
| SensorEntities.NoBusesIsUnreachable | custom_components/tfl_local_transport/sensor.py:500 | the state is never `No buses` |
| SensorEntities.BusArrivalAttributes | custom_components/tfl_local_transport/sensor.py:503-522 | the loop over the first ten arrivals builds the specified attributes, or the empty mapping without arrivals |
| SensorEntities.BusAttributesMatchState | custom_components/tfl_local_transport/sensor.py:491-522 | attributes exist iff a state does; at most 10 buses, in order; the first bus's minutes are the state's |
| DlrSensor.NameAndIdShape | custom_components/tfl_local_transport/sensor.py:570-599 | without a filter the name is `DLR {station}` and the id is `{DOMAIN}_dlr_departures_{id}`; with a filter both are extended, and a filter without ` DLR Station` appears in the name verbatim |
| DlrSensor.SlugIsIdSafe | custom_components/tfl_local_transport/sensor.py:590-596 | the id slug has no space and no upper-case letter |
| DlrSensor.NameDropsStationSuffix | custom_components/tfl_local_transport/sensor.py:577-580 | for a filter `{dest} DLR Station` (where `dest` does not itself hold ` DLR Station`) the name is `DLR {station} to {dest}` |
| DlrSensor.SlugDropsStationSuffix | custom_components/tfl_local_transport/sensor.py:590-596 | a filter `{dest} DLR Station` gets the same slug as `dest` alone, when `dest` lower-cased does not itself hold ` dlr station` |
| DlrSensor.SlugPointwise | custom_components/tfl_local_transport/sensor.py:590-596 | without ` dlr station`, the slug has the filter's length and is the filter lower-cased with every space (and only a space) turned into `_` |
| Text.ContainsIffOccurs | custom_components/tfl_local_transport/sensor.py:653-657 | the model of Python's `in` on strings holds exactly when the substring occurs at some index |
| DlrSensor.LewishamToBankName | custom_components/tfl_local_transport/sensor.py:570-581 | Lewisham with filter `Bank` is named `DLR Lewisham to Bank` |
| DlrSensor.LewishamToBankId | custom_components/tfl_local_transport/sensor.py:583-599 | Lewisham with filter `Bank` gets the id `tfl_local_transport_dlr_departures_940GZZDLLEW_to_bank` |
| DlrSensor.FilterIgnoresCase | custom_components/tfl_local_transport/sensor.py:653-657 | the destination filter gives the same answer in upper, lower or mixed case |
| DlrSensor.DestinationStartingWithFilterPasses | custom_components/tfl_local_transport/sensor.py:653-657 | a destination that starts with the filter passes it, so `Bank` matches `Bank DLR Station` |
| DlrSensor.ToDeparture | custom_components/tfl_local_transport/sensor.py:660-685 | the departure keeps the arrival's time; its minutes are never negative, are floor minutes for a non-negative time, and are 0 under a minute |
| DlrSensor.ProcessedMembers | custom_components/tfl_local_transport/sensor.py:651-687 | a departure is processed iff it is made from an arrival that passes the filter |
| DlrSensor.NoFilterKeepsAll | custom_components/tfl_local_transport/sensor.py:653 | with no filter, or the empty one, every arrival becomes a departure |
| DlrSensor.SortByTime | custom_components/tfl_local_transport/sensor.py:690 | sorts the array in place by time to the station, and the result is a permutation |
| DlrSensor.SortedPrefixIsSoonest | custom_components/tfl_local_transport/sensor.py:690-693 | the first ten of a sorted permutation are the ten soonest |
| DlrSensor.ProcessArrivals | custom_components/tfl_local_transport/sensor.py:649-693 | keeps `min(10, n)` of the `n` processed departures, sorted, drawn from them (a sub-multiset); none left out is sooner than one kept |
| DlrSensor.KeptDeparturesPassFilter | custom_components/tfl_local_transport/sensor.py:651-693 | at most ten are kept, each made from an arrival that passes the filter, each with non-negative minutes |
| DlrSensor.DlrDepartureSensor.constructor | custom_components/tfl_local_transport/sensor.py:541-568 | the name and id come from the generators; the sensor starts with no departures and no last update |
| DlrSensor.DlrDepartureSensor.State | custom_components/tfl_local_transport/sensor.py:601-608 | the state is the number of departures, at most 10 |
| DlrSensor.DlrDepartureSensor.Update | custom_components/tfl_local_transport/sensor.py:626-710 | an exception or an empty answer clears the departures and keeps the last-update time; otherwise the ten soonest matching departures are stored with the new time |

## Left out

- HTTP, `aiohttp` sessions, `async`/`await` and logging. Each provider call receives its outcome as a parameter; there is no concurrency.
- The Home Assistant framework: `DataUpdateCoordinator` timers, `async_config_entry_first_refresh`, `CoordinatorEntity` and `async_add_entities`. What the framework does after `UpdateFailed`, including whether the previous data is kept, is not shown and is not claimed.
- `__init__.py`: it only stores the session and the entry data, then forwards setup.
- The voluptuous schemas and `cv.multi_select`. Only their defaults and numeric ranges are kept.
- Date and time handling. Parsing and `%H:%M` formatting of the DLR expected arrival is the parameter `render`; the update time is the parameter `now`.
- Non-ASCII case mapping. `lower` and `upper` change ASCII letters only.
- JSON `null` where the source computes with a field: `timeToStation`, `destinationName` in the DLR filter, `expectedArrival` in the sort key, `lineStatuses`, `statusSeverity`. Python would raise there, and those fields are typed `Option` (absent or present).
- Train sensor names, unique ids and icons. The DLR sensor's `extra_state_attributes` is plain data and is not modelled.
- Broken references in `sensor.py`, on which the model follows the evident design:
  - `sensor.py` imports `DLR_STATIONS` and `SENSOR_DLR_DEPARTURES` from `const.py` (sensor.py:36-37), which defines neither. As written, the sensor platform module cannot even be imported, so no sensor of this integration is set up at all. The model uses the stop id `940GZZDLLEW` and the type `dlr_departures` from the sensor's documentation.
  - `ATTRIBUTION` is never defined or imported (sensor.py:564, 623). Even with the imports repaired, the DLR sensor's constructor would raise `NameError` before `async_add_entities` runs, so setup would fail after the coordinators' first refreshes. The model drops the attribution.
  - `datetime` is never imported (only `timedelta` is), and the TfL client has no `get_dlr_arrivals` (sensor.py:638, 678, 694). Even with the two faults above repaired, every DLR update would raise and clear the departures. The model takes the arrivals as the given outcome.
- The `station_naptan` entry key: it is declared but never read.
- A failing first refresh aborts setup. The model assumes every first refresh succeeds.
- `DlrSensor.SortByTime`: only ordering and permutation are stated. Stability (equal times keep their order) holds for the insertion sort but is not proved.
- `DlrSensor.ProcessArrivals` and `DlrSensor.DlrDepartureSensor.Update`: among departures with equal times, which ones are kept at the tenth place is not stated.
- `Api.SortByExpected`: stability of Python's `sorted` is not stated either.
