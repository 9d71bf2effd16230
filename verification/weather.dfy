/** The weather panel: the last fetched snapshot and the last fetch error,
    the rule deciding when a fetch is sent, and the choice between the
    error message, the loading message and the weather information. */
module WeatherPanel {
  import opened Values

  /** The parts of the current-weather response the panel shows. */
  datatype Snapshot = Snapshot(
    temp: real,
    description: string,
    humidity: real,
    windSpeed: real,
    clouds: real,
    icon: string)

  /** The panel's inputs: the selected point and the unit system. */
  datatype Props = Props(lat: real, lon: real, unit: Unit)

  /** An error thrown by a weather request; its content is never shown. */
  datatype FetchError = FetchError(reason: string)

  datatype Panel = Panel(props: Props, weather: Option<Snapshot>, error: Option<FetchError>)

  /** How a weather request ended. */
  datatype Outcome = Fetched(data: Snapshot) | FetchFailed(err: FetchError)

  /** The next panel state and the weather requests sent, each for the
      props it was issued with. */
  datatype PanelStep = PanelStep(panel: Panel, fetches: seq<Props>)

  datatype PanelEvent = NewProps(props: Props) | Completed(outcome: Outcome)

  /** What the panel displays. */
  datatype View =
    | ErrorMessage
    | Loading
    | Info(temp: real, tempUnit: string, condition: string, humidity: real,
           windSpeed: real, windUnit: string, rainChance: real, icon: string)

  /** A fetch is sent only when both coordinates are truthy numbers. */
  predicate ShouldFetch(p: Props)
  {
    Truthy(p.lat) && Truthy(p.lon)
  }

  /** The weather requests the effect sends for `p`: one, or none. */
  function FetchesFor(p: Props): (fs: seq<Props>)
    ensures |fs| <= 1
    ensures fs != [] <==> p.lat != 0.0 && p.lon != 0.0
    ensures forall i :: 0 <= i < |fs| ==> fs[i] == p
  {
    if ShouldFetch(p) then [p] else []
  }

  /** The panel's first render: nothing fetched, no error, and the effect
      runs once for the initial props. */
  function Mount(p: Props): (r: PanelStep)
    ensures r.panel.props == p
    ensures r.panel.weather == None && r.panel.error == None
    ensures r.fetches != [] <==> p.lat != 0.0 && p.lon != 0.0
    ensures forall i :: 0 <= i < |r.fetches| ==> r.fetches[i] == p
  {
    PanelStep(Panel(p, None, None), FetchesFor(p))
  }

  /** A re-render with new props: the effect runs again only when one of
      its dependencies changed, and neither the old snapshot nor the old
      error is cleared. */
  function Rerender(panel: Panel, p: Props): (r: PanelStep)
    ensures r.panel.props == p
    ensures r.panel.weather == panel.weather && r.panel.error == panel.error
    ensures r.fetches != [] <==> p != panel.props && p.lat != 0.0 && p.lon != 0.0
    ensures forall i :: 0 <= i < |r.fetches| ==> r.fetches[i] == p
  {
    PanelStep(panel.(props := p), if p == panel.props then [] else FetchesFor(p))
  }

  /** A weather request completes: success replaces the snapshot
      wholesale, failure records the error. Neither checks whether the
      request was issued for the current props, and neither clears the
      other field. */
  function Complete(panel: Panel, o: Outcome): (r: Panel)
    ensures r.props == panel.props
    ensures o.Fetched? ==> r.weather == Some(o.data) && r.error == panel.error
    ensures o.FetchFailed? ==> r.error == Some(o.err) && r.weather == panel.weather
  {
    match o
    case Fetched(data) => panel.(weather := Some(data))
    case FetchFailed(err) => panel.(error := Some(err))
  }

  /** The temperature unit shown next to the temperature. */
  function TempLabel(u: Unit): (l: string)
    ensures l == "C" <==> u == Metric
    ensures l == "F" <==> u != Metric
  {
    if u == Metric then "C" else "F"
  }

  /** The speed unit shown next to the wind speed. */
  function WindLabel(u: Unit): (l: string)
    ensures l == "m/s" <==> u == Metric
    ensures l == "mph" <==> u != Metric
  {
    if u == Metric then "m/s" else "mph"
  }

  /** What the panel shows. An error wins over everything; without one,
      a missing snapshot shows the loading message and a present one shows
      its fields, labelled for the current unit rather than the unit the
      snapshot was fetched in. */
  function Render(panel: Panel): (v: View)
    ensures v == ErrorMessage <==> panel.error.Some?
    ensures v == Loading <==> panel.error.None? && panel.weather.None?
    ensures v.Info? <==> panel.error.None? && panel.weather.Some?
    ensures v.Info? ==>
      var w := panel.weather.value;
      && v.temp == w.temp && v.condition == w.description
      && v.humidity == w.humidity && v.windSpeed == w.windSpeed
      && v.rainChance == w.clouds && v.icon == w.icon
      && v.tempUnit == TempLabel(panel.props.unit)
      && v.windUnit == WindLabel(panel.props.unit)
  {
    if panel.error.Some? then
      ErrorMessage
    else if panel.weather.None? then
      Loading
    else
      var w := panel.weather.value;
      var u := panel.props.unit;
      Info(w.temp, TempLabel(u), w.description, w.humidity, w.windSpeed, WindLabel(u), w.clouds, w.icon)
  }

  /** Applies one event to the panel. */
  function Apply(panel: Panel, e: PanelEvent): Panel
  {
    match e
    case NewProps(p) => Rerender(panel, p).panel
    case Completed(o) => Complete(panel, o)
  }

  /** The panel after the events `es`, in order. */
  function RunPanel(panel: Panel, es: seq<PanelEvent>): Panel
    decreases |es|
  {
    if es == [] then panel else RunPanel(Apply(panel, es[0]), es[1..])
  }

  /** Reference definition: the snapshot of the last successful fetch in
      `es`, or `prior` when none succeeded. */
  function LastFetched(prior: Option<Snapshot>, es: seq<PanelEvent>): Option<Snapshot>
    decreases |es|
  {
    if es == [] then prior
    else if es[|es| - 1].Completed? && es[|es| - 1].outcome.Fetched? then
      Some(es[|es| - 1].outcome.data)
    else LastFetched(prior, es[..|es| - 1])
  }

  /** Running the panel on `a` then on `b` is running it on `a + b`. */
  lemma {:induction false} RunPanelAppend(panel: Panel, a: seq<PanelEvent>, b: seq<PanelEvent>)
    ensures RunPanel(panel, a + b) == RunPanel(RunPanel(panel, a), b)
    decreases |a|
  {
    if a == [] {
      assert a + b == b;
    } else {
      assert (a + b)[0] == a[0];
      assert (a + b)[1..] == a[1..] + b;
      RunPanelAppend(Apply(panel, a[0]), a[1..], b);
    }
  }

  /** The displayed snapshot is always the one from the last successful
      fetch: new props never clear it, and a failure never replaces it. */
  lemma {:induction false} WeatherIsLastFetched(panel: Panel, es: seq<PanelEvent>)
    ensures RunPanel(panel, es).weather == LastFetched(panel.weather, es)
    decreases |es|
  {
    if es != [] {
      var init := es[..|es| - 1];
      assert es == init + [es[|es| - 1]];
      RunPanelAppend(panel, init, [es[|es| - 1]]);
      WeatherIsLastFetched(panel, init);
    }
  }

  /** Once a fetch has failed, the error stays and the error message is
      shown whatever happens later, including successful fetches. */
  lemma {:induction false} ErrorIsSticky(panel: Panel, es: seq<PanelEvent>)
    requires panel.error.Some?
    ensures RunPanel(panel, es).error.Some?
    ensures Render(RunPanel(panel, es)) == ErrorMessage
    decreases |es|
  {
    if es != [] {
      ErrorIsSticky(Apply(panel, es[0]), es[1..]);
    }
  }

  /** The error field only ever changes to the error of a failed fetch:
      after a run without failures it is what it was before. */
  lemma {:induction false} NoFailureKeepsError(panel: Panel, es: seq<PanelEvent>)
    requires forall i :: 0 <= i < |es| ==> !(es[i].Completed? && es[i].outcome.FetchFailed?)
    ensures RunPanel(panel, es).error == panel.error
    decreases |es|
  {
    if es != [] {
      NoFailureKeepsError(Apply(panel, es[0]), es[1..]);
    }
  }

  /** Selecting a point on the equator or the prime meridian sends no
      request, so a panel that was showing weather keeps showing the
      previous location's snapshot. */
  lemma ZeroCoordinateShowsPreviousWeather(panel: Panel, p: Props)
    requires p.lat == 0.0 || p.lon == 0.0
    requires panel.error.None? && panel.weather.Some?
    ensures Rerender(panel, p).fetches == []
    ensures
      var w := panel.weather.value;
      Render(Rerender(panel, p).panel)
        == Info(w.temp, TempLabel(p.unit), w.description, w.humidity,
                w.windSpeed, WindLabel(p.unit), w.clouds, w.icon)
  {
  }
}
