/** The application shell: the selected location, the unit system, the
    place-name query, the resolved city name and the recent-searches list
    with its storage slot. Every handler is a pure transition that returns
    the next state and the geocoding requests it sends; a request's answer
    comes back later as an event of its own. */
module App {
  import opened Values
  import SearchHistory

  /** The location selected before the user picks one. */
  const DefaultLocation := Coord(51.505, -0.09)

  /** The storage slot `searchHistory` as `JSON.parse` reads it: nothing
      stored, a stored `null`, or a stored list of coordinates. */
  datatype Stored = Missing | Null | Entries(entries: seq<Coord>)

  datatype State = State(
    location: Coord,
    unit: Unit,
    history: seq<Coord>,
    query: string,
    cityName: string,
    storage: Stored)

  /** One match returned by a geocoding endpoint. */
  datatype Place = Place(at: Coord, name: string)

  /** How a geocoding request ended: with the response's list of matches,
      or with a thrown error. */
  datatype Lookup = Answered(places: seq<Place>) | Failed

  /** What `parseFloat` made of a coordinate field. */
  datatype Parsed = Number(value: real) | NaN

  /** A geocoding request sent by a handler. */
  datatype Request = ReverseGeocode(at: Coord) | ForwardGeocode(query: string)

  datatype Step = Step(state: State, requests: seq<Request>)

  datatype Event =
    | MapClicked(at: Coord)
    | FormSubmitted(lat: Parsed, lon: Parsed)
    | UnitChanged(unit: Unit)
    | QueryChanged(text: string)
    | SearchClicked
    | SearchAnswered(result: Lookup)
    | CityNameAnswered(result: Lookup)
    | HistoryClicked(entry: Coord)

  /** The storage slot holds exactly the history. */
  predicate Persisted(s: State)
  {
    s.storage == Entries(s.history)
  }

  /** The history is within its capacity. */
  predicate Bounded(s: State)
  {
    |s.history| <= SearchHistory.Capacity
  }

  /** The state once the start-up effects have settled: a stored list
      replaces the empty history, a missing or `null` value leaves it empty,
      and the persisting effect then writes the history back. */
  function Start(stored: Stored): (s: State)
    ensures s.location == DefaultLocation && s.unit == Metric
    ensures s.query == [] && s.cityName == []
    ensures stored.Entries? ==> s.history == stored.entries
    ensures !stored.Entries? ==> s.history == []
    ensures Persisted(s)
  {
    var history := if stored.Entries? then stored.entries else [];
    State(DefaultLocation, Metric, history, [], [], Entries(history))
  }

  /** Replaces the history; the persisting effect writes it to storage. */
  function Record(s: State, h: seq<Coord>): State
  {
    s.(history := h, storage := Entries(h))
  }

  /** Inserts a selected location into the recent searches. */
  function AddToHistory(s: State, c: Coord): State
  {
    Record(s, SearchHistory.Append(s.history, c))
  }

  /** A click on the map selects the clicked point, asks for its name and
      records it in the history. */
  function MapClick(s: State, at: Coord): (r: Step)
    ensures r.state.location == at
    ensures r.state.history == SearchHistory.Append(s.history, at)
    ensures Persisted(r.state)
    ensures r.state.unit == s.unit && r.state.query == s.query
    ensures r.state.cityName == s.cityName
    ensures r.requests == [ReverseGeocode(at)]
  {
    Step(AddToHistory(s.(location := at), at), [ReverseGeocode(at)])
  }

  /** Submitting the coordinate form selects the typed point when both
      fields parse; otherwise nothing happens. */
  function FormSubmit(s: State, lat: Parsed, lon: Parsed): (r: Step)
    ensures (lat.NaN? || lon.NaN?) <==> r == Step(s, [])
    ensures lat.Number? && lon.Number? ==>
      var at := Coord(lat.value, lon.value);
      && r.state.location == at
      && r.state.history == SearchHistory.Append(s.history, at)
      && Persisted(r.state)
      && r.state.unit == s.unit && r.state.query == s.query
      && r.state.cityName == s.cityName
      && r.requests == [ReverseGeocode(at)]
  {
    match (lat, lon)
    case (Number(a), Number(b)) =>
      var at := Coord(a, b);
      Step(AddToHistory(s.(location := at), at), [ReverseGeocode(at)])
    case _ => Step(s, [])
  }

  /** Changing the unit touches nothing but the unit. */
  function UnitChange(s: State, u: Unit): (r: Step)
    ensures r.state.unit == u
    ensures r.state.location == s.location && r.state.history == s.history
    ensures r.state.cityName == s.cityName && r.state.query == s.query
    ensures r.state.storage == s.storage
    ensures r.requests == []
  {
    Step(s.(unit := u), [])
  }

  /** Typing in the name field updates the query only. */
  function QueryChange(s: State, text: string): (r: Step)
    ensures r.state.query == text
    ensures r.state.location == s.location && r.state.history == s.history
    ensures r.state.cityName == s.cityName && r.state.unit == s.unit
    ensures r.state.storage == s.storage
    ensures r.requests == []
  {
    Step(s.(query := text), [])
  }

  /** Clicking the search button sends the current query to the forward
      geocoding endpoint (asking for one match) and changes no state. */
  function SearchByName(s: State): (r: Step)
    ensures r.state == s
    ensures r.requests == [ForwardGeocode(s.query)]
  {
    Step(s, [ForwardGeocode(s.query)])
  }

  /** The forward geocoding answer: its first match becomes the selected
      location and the city name and is recorded in the history; an empty
      answer or a failed request leaves everything as it was. */
  function SearchResult(s: State, result: Lookup): (r: Step)
    ensures r.requests == []
    ensures result.Failed? || result.places == [] ==> r.state == s
    ensures result.Answered? && result.places != [] ==>
      var first := result.places[0];
      && r.state.location == first.at
      && r.state.cityName == first.name
      && r.state.history == SearchHistory.Append(s.history, first.at)
      && Persisted(r.state)
      && r.state.unit == s.unit && r.state.query == s.query
  {
    match result
    case Answered(places) =>
      if |places| > 0 then
        var first := places[0];
        Step(AddToHistory(s.(location := first.at, cityName := first.name), first.at), [])
      else
        Step(s, [])
    case Failed => Step(s, [])
  }

  /** The reverse geocoding answer: the first match's name, or the empty
      name when there is no match; a failed request changes nothing. */
  function CityNameResult(s: State, result: Lookup): (r: Step)
    ensures r.requests == []
    ensures result.Answered? && result.places != [] ==>
      r.state.cityName == result.places[0].name
    ensures result.Answered? && result.places == [] ==> r.state.cityName == []
    ensures result.Failed? ==> r.state.cityName == s.cityName
    ensures r.state.location == s.location && r.state.history == s.history
    ensures r.state.unit == s.unit && r.state.query == s.query
    ensures r.state.storage == s.storage
  {
    match result
    case Answered(places) =>
      Step(s.(cityName := if |places| > 0 then places[0].name else []), [])
    case Failed => Step(s, [])
  }

  /** Clicking an entry of the recent searches selects it again and asks
      for its name, without adding it to the history a second time. */
  function HistoryClick(s: State, entry: Coord): (r: Step)
    ensures r.state.location == entry
    ensures r.state.history == s.history && r.state.storage == s.storage
    ensures r.state.unit == s.unit && r.state.query == s.query
    ensures r.state.cityName == s.cityName
    ensures r.requests == [ReverseGeocode(entry)]
  {
    Step(s.(location := entry), [ReverseGeocode(entry)])
  }

  /** Routes an event to its handler. Every handler keeps the storage slot
      equal to the history and moves the history by at most one insertion. */
  function Dispatch(s: State, e: Event): (r: Step)
    ensures Persisted(s) ==> Persisted(r.state)
    ensures r.state.history == s.history
         || r.state.history == SearchHistory.Append(s.history, r.state.location)
  {
    match e
    case MapClicked(at) => MapClick(s, at)
    case FormSubmitted(lat, lon) => FormSubmit(s, lat, lon)
    case UnitChanged(u) => UnitChange(s, u)
    case QueryChanged(text) => QueryChange(s, text)
    case SearchClicked => SearchByName(s)
    case SearchAnswered(result) => SearchResult(s, result)
    case CityNameAnswered(result) => CityNameResult(s, result)
    case HistoryClicked(entry) => HistoryClick(s, entry)
  }

  /** The state after handling `es` in order. */
  function Run(s: State, es: seq<Event>): State
    decreases |es|
  {
    if es == [] then s else Run(Dispatch(s, es[0]).state, es[1..])
  }

  /** Once start-up has written the history, storage mirrors it after any
      sequence of events. */
  lemma {:induction false} RunKeepsPersisted(s: State, es: seq<Event>)
    requires Persisted(s)
    ensures Persisted(Run(s, es))
    decreases |es|
  {
    if es != [] {
      RunKeepsPersisted(Dispatch(s, es[0]).state, es[1..]);
    }
  }

  /** A history within capacity stays within capacity. */
  lemma {:induction false} RunKeepsBounded(s: State, es: seq<Event>)
    requires Bounded(s)
    ensures Bounded(Run(s, es))
    decreases |es|
  {
    if es != [] {
      RunKeepsBounded(Dispatch(s, es[0]).state, es[1..]);
    }
  }

  /** A history above capacity, such as a long list loaded from storage,
      keeps its length forever: each insertion evicts one entry only. */
  lemma {:induction false} RunKeepsOverfull(s: State, es: seq<Event>)
    requires |s.history| > SearchHistory.Capacity
    ensures |Run(s, es).history| == |s.history|
    decreases |es|
  {
    if es != [] {
      RunKeepsOverfull(Dispatch(s, es[0]).state, es[1..]);
    }
  }

  /** The state reached from start-up never holds a history longer than
      the one in storage allowed, and storage always mirrors it. */
  lemma StartThenRun(stored: Stored, es: seq<Event>)
    ensures Persisted(Run(Start(stored), es))
    ensures !stored.Entries? || |stored.entries| <= SearchHistory.Capacity ==>
      Bounded(Run(Start(stored), es))
    ensures stored.Entries? && |stored.entries| > SearchHistory.Capacity ==>
      |Run(Start(stored), es).history| == |stored.entries|
  {
    RunKeepsPersisted(Start(stored), es);
    if !stored.Entries? || |stored.entries| <= SearchHistory.Capacity {
      RunKeepsBounded(Start(stored), es);
    } else {
      RunKeepsOverfull(Start(stored), es);
    }
  }

  /** One map click per coordinate, in order. */
  function Clicks(cs: seq<Coord>): (es: seq<Event>)
    ensures |es| == |cs|
    ensures forall i :: 0 <= i < |cs| ==> es[i] == MapClicked(cs[i])
  {
    seq(|cs|, i requires 0 <= i < |cs| => MapClicked(cs[i]))
  }

  /** Map clicks insert the clicked points into the history in order. */
  lemma {:induction false} ClicksAppendAll(s: State, cs: seq<Coord>)
    ensures Run(s, Clicks(cs)).history == SearchHistory.AppendAll(s.history, cs)
    ensures Run(s, Clicks(cs)).location == if cs == [] then s.location else cs[|cs| - 1]
    decreases |cs|
  {
    if cs != [] {
      var s' := MapClick(s, cs[0]).state;
      assert Clicks(cs)[1..] == Clicks(cs[1..]);
      ClicksAppendAll(s', cs[1..]);
    }
  }

  /** From an empty history, `n` map clicks leave the last min(n, 5)
      clicked points, oldest first. */
  lemma ClicksFromEmpty(s: State, cs: seq<Coord>)
    requires s.history == []
    ensures |Run(s, Clicks(cs)).history| == if |cs| < SearchHistory.Capacity then |cs| else SearchHistory.Capacity
    ensures Run(s, Clicks(cs)).history == cs[|cs| - |Run(s, Clicks(cs)).history|..]
  {
    ClicksAppendAll(s, cs);
    SearchHistory.AppendAllFromEmpty(cs);
  }
}
