/** The configuration flow: the user step that validates the station code and
    fills defaults, and the options step that stores its input. The form schemas
    are kept only as their defaults and their numeric ranges. */
module ConfigFlow {

  import opened Wrappers
  import opened Text
  import opened Const

  /** What a flow step returns: the form again (with its errors and field defaults),
      or a new configuration entry. */
  datatype FlowResult =
    | ShowForm(stepId: string, errors: map<string, string>, defaults: EntryData)
    | CreateEntry(title: string, data: EntryData)

  const DefaultDestinations := ["CHX", "LBG", "VIC"]
  const DefaultLines := ["southeastern"]

  /** The schema's range for the number of departures. */
  predicate ValidNumDepartures(n: int) { 1 <= n <= 20 }

  /** The schema's range for the time window, in minutes. */
  predicate ValidTimeWindow(w: int) { 30 <= w <= 300 }

  /** The input passed the schema's numeric ranges (keys left out are not checked). */
  predicate InRanges(input: EntryData)
  {
    && (input.numDepartures.Some? ==> ValidNumDepartures(input.numDepartures.value))
    && (input.timeWindow.Some? ==> ValidTimeWindow(input.timeWindow.value))
  }

  /** The defaults the user form offers. */
  const UserFormDefaults := EntryData(
    Some(GroveParkCrs), Some(""), Some(""), Some(DefaultDestinations), None,
    Some(DefaultLines), Some(DefaultNumDepartures), Some(DefaultTimeWindow))

  /** The station code the user step validates: the given one (default `GRP`), upper-cased. */
  function StationCode(input: EntryData): string
  {
    Upper(input.stationCrs.GetOr(GroveParkCrs))
  }

  /** The entry data the user step stores: the upper-cased code and every other key,
      with its default where the input leaves it out. */
  function EntryFromInput(input: EntryData): EntryData
  {
    EntryData(
      Some(StationCode(input)),
      Some(input.darwinApiKey.GetOr("")),
      Some(input.tflAppKey.GetOr("")),
      Some(input.destinations.GetOr(DefaultDestinations)),
      Some(input.busStops.GetOr([])),
      Some(input.lines.GetOr(DefaultLines)),
      Some(input.numDepartures.GetOr(DefaultNumDepartures)),
      Some(input.timeWindow.GetOr(DefaultTimeWindow)))
  }

  /** `async_step_user`. Without input it shows the empty form. With input it creates an
      entry exactly when the upper-cased station code has three characters, titled with
      that code; otherwise it shows the form again with the error `invalid_crs`. */
  function StepUser(userInput: Option<EntryData>): (r: FlowResult)
    ensures userInput.None? ==> r == ShowForm("user", map[], UserFormDefaults)
    ensures userInput.Some? ==>
              (r.CreateEntry? <==> |userInput.value.stationCrs.GetOr(GroveParkCrs)| == 3)
    ensures userInput.Some? && r.ShowForm? ==>
              r == ShowForm("user", map["base" := "invalid_crs"], UserFormDefaults)
    ensures r.CreateEntry? ==>
              && r.title == "Transport - " + StationCode(userInput.value)
              && r.data == EntryFromInput(userInput.value)
  {
    if userInput.None? then ShowForm("user", map[], UserFormDefaults)
    else if |StationCode(userInput.value)| != 3 then
      ShowForm("user", map["base" := "invalid_crs"], UserFormDefaults)
    else
      CreateEntry("Transport - " + StationCode(userInput.value), EntryFromInput(userInput.value))
  }

  /** The stored station code is already upper-case and has three characters. */
  lemma StoredCodeIsCanonical(input: EntryData)
    requires StepUser(Some(input)).CreateEntry?
    ensures var code := StepUser(Some(input)).data.stationCrs;
      code.Some? && |code.value| == 3 && Upper(code.value) == code.value
  {
    UpperIdempotent(input.stationCrs.GetOr(GroveParkCrs));
  }

  /** A created entry has every key, and a key the user left out gets its default. */
  lemma EntryDefaults(input: EntryData)
    requires StepUser(Some(input)).CreateEntry?
    ensures var d := StepUser(Some(input)).data;
      && d.stationCrs.Some? && d.darwinApiKey.Some? && d.tflAppKey.Some? && d.destinations.Some?
      && d.busStops.Some? && d.lines.Some? && d.numDepartures.Some? && d.timeWindow.Some?
      && (input.darwinApiKey.None? ==> d.darwinApiKey == Some(""))
      && (input.tflAppKey.None? ==> d.tflAppKey == Some(""))
      && (input.destinations.None? ==> d.destinations == Some(["CHX", "LBG", "VIC"]))
      && (input.busStops.None? ==> d.busStops == Some([]))
      && (input.lines.None? ==> d.lines == Some(["southeastern"]))
      && (input.numDepartures.None? ==> d.numDepartures == Some(10))
      && (input.timeWindow.None? ==> d.timeWindow == Some(120))
  {
  }

  /** Input that passed the schema's ranges yields an entry whose row count and window are
      in range, since the defaults are. */
  lemma EntryInRanges(input: EntryData)
    requires InRanges(input)
    requires StepUser(Some(input)).CreateEntry?
    ensures var d := StepUser(Some(input)).data;
      ValidNumDepartures(d.numDepartures.value) && ValidTimeWindow(d.timeWindow.value)
  {
  }

  /** The options form's defaults: the entry's destinations (or none), row count and window. */
  function OptionsFormDefaults(current: EntryData): EntryData
  {
    EntryData(None, None, None, Some(current.destinations.GetOr([])), None, None,
              Some(current.numDepartures.GetOr(DefaultNumDepartures)),
              Some(current.timeWindow.GetOr(DefaultTimeWindow)))
  }

  /** `async_step_init`: input is stored unchanged as a new entry with an empty title;
      without input the form is shown with the current entry's values as defaults. */
  function StepInit(userInput: Option<EntryData>, current: EntryData): (r: FlowResult)
    ensures userInput.Some? ==> r == CreateEntry("", userInput.value)
    ensures userInput.None? ==> r == ShowForm("init", map[], OptionsFormDefaults(current))
  {
    if userInput.Some? then CreateEntry("", userInput.value)
    else ShowForm("init", map[], OptionsFormDefaults(current))
  }

  /** The options form offers in-range defaults whenever the current entry is in range. */
  lemma OptionsDefaultsInRanges(current: EntryData)
    requires InRanges(current)
    ensures InRanges(OptionsFormDefaults(current))
  {
  }
}
