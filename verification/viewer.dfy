/** The whole viewer: the application shell hands its selected location
    and unit to the weather panel as props, so every shell event is
    followed by a panel re-render. */
module Viewer {
  import opened Values
  import App
  import opened WeatherPanel

  datatype System = System(app: App.State, panel: Panel)

  /** The next system state and the requests sent on the way: geocoding
      lookups from the shell, weather fetches from the panel. */
  datatype Outgoing = Outgoing(sys: System, lookups: seq<App.Request>, fetches: seq<Props>)

  /** The props the shell passes to the panel. */
  function PropsOf(s: App.State): Props
  {
    Props(s.location.lat, s.location.lon, s.unit)
  }

  /** The panel shows the shell's current selection. */
  predicate Synced(sys: System)
  {
    sys.panel.props == PropsOf(sys.app)
  }

  /** Start-up: the shell loads the history, and the panel mounts with the
      default location, which is not added to the history and whose name
      is not looked up. */
  function Boot(stored: App.Stored): (o: Outgoing)
    ensures o.sys.app == App.Start(stored)
    ensures Synced(o.sys)
    ensures o.lookups == []
    ensures o.fetches == [Props(App.DefaultLocation.lat, App.DefaultLocation.lon, Metric)]
    ensures Render(o.sys.panel) == Loading
  {
    var app := App.Start(stored);
    var mounted := Mount(PropsOf(app));
    Outgoing(System(app, mounted.panel), [], mounted.fetches)
  }

  /** A shell event followed by the panel's re-render with the new props:
      a weather fetch is sent exactly when the selected point or the unit
      changed and both coordinates are non-zero, and the panel's snapshot
      and error survive the event. */
  function Deliver(sys: System, e: App.Event): (o: Outgoing)
    ensures o.sys.app == App.Dispatch(sys.app, e).state
    ensures o.lookups == App.Dispatch(sys.app, e).requests
    ensures Synced(o.sys)
    ensures o.sys.panel.weather == sys.panel.weather && o.sys.panel.error == sys.panel.error
    ensures Synced(sys) ==>
      (o.fetches != [] <==>
        && (o.sys.app.location != sys.app.location || o.sys.app.unit != sys.app.unit)
        && Truthy(o.sys.app.location.lat) && Truthy(o.sys.app.location.lon))
    ensures forall i :: 0 <= i < |o.fetches| ==> o.fetches[i] == PropsOf(o.sys.app)
  {
    var step := App.Dispatch(sys.app, e);
    var rendered := Rerender(sys.panel, PropsOf(step.state));
    Outgoing(System(step.state, rendered.panel), step.requests, rendered.fetches)
  }

  /** A weather request completes; the shell is not involved. */
  function WeatherArrived(sys: System, outcome: Outcome): (r: System)
    ensures r.app == sys.app
    ensures Synced(sys) ==> Synced(r)
    ensures outcome.Fetched? ==> r.panel.weather == Some(outcome.data)
    ensures outcome.FetchFailed? ==> Render(r.panel) == ErrorMessage
  {
    System(sys.app, Complete(sys.panel, outcome))
  }

  /** Selecting Paris by a map click after start-up with an empty storage:
      Paris is selected, it is the only history entry (the default location
      was never recorded), its name is looked up and its weather fetched. */
  lemma ParisScenario()
    ensures
      var paris := Coord(48.8566, 2.3522);
      var o := Deliver(Boot(App.Missing).sys, App.MapClicked(paris));
      && o.sys.app.location == paris
      && o.sys.app.history == [paris]
      && o.sys.app.storage == App.Entries([paris])
      && o.lookups == [App.ReverseGeocode(paris)]
      && o.fetches == [Props(48.8566, 2.3522, Metric)]
  {
  }

  /** Six map clicks from an empty history leave the last five, oldest
      first: the first click has been evicted. */
  lemma SixClicksScenario(s: App.State, c1: Coord, c2: Coord, c3: Coord, c4: Coord, c5: Coord, c6: Coord)
    requires s.history == []
    ensures App.Run(s, App.Clicks([c1, c2, c3, c4, c5, c6])).history == [c2, c3, c4, c5, c6]
  {
    App.ClicksFromEmpty(s, [c1, c2, c3, c4, c5, c6]);
  }

  /** Switching to imperial while metric weather is shown for a point off
      both axes: one fetch is sent for the same point in imperial units; the
      old metric snapshot stays on screen but is labelled F and mph at once;
      the new snapshot then replaces it field for field. */
  lemma UnitSwitchScenario(sys: System, next: Snapshot)
    requires Synced(sys)
    requires sys.app.unit == Metric
    requires sys.panel.error.None? && sys.panel.weather.Some?
    requires Truthy(sys.app.location.lat) && Truthy(sys.app.location.lon)
    ensures
      var o := Deliver(sys, App.UnitChanged(Imperial));
      var shown := Render(o.sys.panel);
      var after := Render(WeatherArrived(o.sys, Fetched(next)).panel);
      var w := sys.panel.weather.value;
      && o.fetches == [Props(sys.app.location.lat, sys.app.location.lon, Imperial)]
      && shown == Info(w.temp, "F", w.description, w.humidity, w.windSpeed, "mph", w.clouds, w.icon)
      && after == Info(next.temp, "F", next.description, next.humidity, next.windSpeed, "mph", next.clouds, next.icon)
  {
  }
}
