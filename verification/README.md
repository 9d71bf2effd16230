# Weather map viewer — state model

A Dafny model of the sequential logic of a small React weather viewer. The
user picks a location by clicking the map, typing coordinates or searching
a place name. The application shows the current weather for that location
and keeps a list of the five most recent selections in browser storage.

The model has two parts:

- **The application shell** (`src/App.js`), in module `App`. Its state is the
  selected location, the unit system, the place-name query, the resolved
  city name, the recent-searches list and the storage slot that mirrors the
  list. Each handler is a pure transition. It returns the next state and the
  geocoding requests it sends. A request's answer (a list of matches, or a
  failure) arrives later as a separate event.
- **The weather panel** (`src/components/WeatherDisplay.js`), in module
  `WeatherPanel`. Its state is the last snapshot and the last error. The
  module covers when a weather fetch is sent and whether the panel shows the
  error message, the loading message or the weather information.

Module `SearchHistory` holds the bounded list. Each insertion appends at the
back and shifts at most one entry off the front. Module `Viewer` connects
the two parts: the shell's location and unit are the panel's props. It also
holds three end-to-end scenarios. Module `Values` holds the shared
coordinate and unit types.

Modelling choices:

- Coordinates are reals. The code only compares them for equality and
  tests them for truthiness, which for a number that is not NaN means "not
  zero".
- `parseFloat` is an input that is either a number or NaN.
- The unit is one of two values, because the selector offers only
  `metric` and `imperial`.
- The storage slot is either missing, a stored `null`, or a stored list.
  After start-up both effects have run, so the slot equals the history.

Behaviour of the code worth knowing:

- An insertion into a list that is already longer than five evicts exactly
  one entry. It does not trim the list back to five. A long list loaded from
  storage therefore stays long (`App.RunKeepsOverfull`).
- A weather response is applied whatever the current selection is. There is
  no check that drops stale responses.
- A fetch error is never cleared. After one failure the panel shows the
  error message for good (`WeatherPanel.ErrorIsSticky`).
- The default location is never added to the history.
- No weather is fetched for a point with latitude 0 or longitude 0.
  If such a point is selected, the panel keeps showing the previous
  location's snapshot (`WeatherPanel.ZeroCoordinateShowsPreviousWeather`).

## Model

| member | source | states |
|---|---|---|
| SearchHistory.Append | src/App.js:98-104 | the new location is last; the rest is the old list, minus its first entry exactly when the old list held at least five; a list of at most five stays at most five; a longer list keeps its length |
| SearchHistory.AppendAllKeepsNewest | src/App.js:98-104 | from a list of at most five entries, a series of insertions leaves exactly the newest five of the old entries followed by the inserted ones |
| SearchHistory.AppendAllFromEmpty | src/App.js:98-104 | from an empty list, N insertions leave the last min(N, 5) inserted entries, in insertion order |
| SearchHistory.AppendAllFromFull | src/App.js:100-102 | from a list of five or more, every insertion evicts exactly the oldest entry, so the length never changes |
| App.Start | src/App.js:10-26 | start-up selects the default location in metric with empty query and city name; a stored list becomes the history and a missing or null value leaves it empty; the storage slot then equals the history |
| App.MapClick | src/App.js:28-33 | a map click selects the clicked point, inserts it into the history, persists the history, asks for the point's name and changes nothing else |
| App.FormSubmit | src/App.js:35-45 | if either field is NaN, nothing changes and nothing is sent (and conversely); with two numbers, the point is selected, inserted and persisted, and its name is requested |
| App.UnitChange | src/App.js:47-49 | a unit change modifies only the unit and sends nothing |
| App.QueryChange | src/App.js:51-53 | typing in the name field modifies only the query |
| App.SearchByName | src/App.js:55-63 | the search button sends the current query to forward geocoding and changes no state |
| App.SearchResult | src/App.js:65-74 | an empty or failed search leaves the state unchanged; otherwise the first match becomes the location and the city name and is inserted and persisted, with unit and query unchanged |
| App.CityNameResult | src/App.js:88-95 | reverse geocoding sets the city name to the first match's name, or to the empty name when there is no match; a failure keeps the old name; nothing else changes |
| App.HistoryClick | src/App.js:106-109 | selecting a recent search sets the location to it and asks for its name; the history and storage are unchanged, so the entry is not added again |
| App.Dispatch | src/App.js:24-26 | every handler keeps the storage slot equal to the history; the history is either unchanged or has the new location inserted |
| App.RunKeepsPersisted | src/App.js:24-26 | after any sequence of events, storage still equals the history |
| App.RunKeepsBounded | src/App.js:98-104 | a history of at most five entries stays at most five under any sequence of events |
| App.RunKeepsOverfull | src/App.js:98-104 | a history longer than five keeps exactly its length under any sequence of events |
| App.StartThenRun | src/App.js:17-26 | from start-up: storage always mirrors the history; the history stays within five unless storage held more, in which case it keeps the stored length |
| App.ClicksAppendAll | src/App.js:28-33 | a series of map clicks inserts the clicked points in order and leaves the last one selected |
| App.ClicksFromEmpty | src/App.js:98-104 | from an empty history, N map clicks leave the last min(N, 5) clicked points, oldest first |
| WeatherPanel.FetchesFor | src/components/WeatherDisplay.js:27-29 | at most one fetch is sent, for the given props, and one is sent exactly when latitude and longitude are both non-zero |
| WeatherPanel.Mount | src/components/WeatherDisplay.js:6-30 | the first render has no snapshot and no error, and fetches for the initial props exactly when both coordinates are non-zero |
| WeatherPanel.Rerender | src/components/WeatherDisplay.js:10-30 | new props keep the old snapshot and error; a fetch is sent exactly when the props changed and both coordinates are non-zero |
| WeatherPanel.Complete | src/components/WeatherDisplay.js:21-24 | a success replaces the snapshot and keeps the error; a failure records the error and keeps the snapshot |
| WeatherPanel.TempLabel | src/components/WeatherDisplay.js:46 | the temperature label is C exactly for metric and F otherwise |
| WeatherPanel.WindLabel | src/components/WeatherDisplay.js:49 | the wind label is m/s exactly for metric and mph otherwise |
| WeatherPanel.Render | src/components/WeatherDisplay.js:32-50 | the error message is shown exactly when there is an error; loading exactly when there is no error and no snapshot; information otherwise, carrying the snapshot's fields and the labels of the current unit |
| WeatherPanel.WeatherIsLastFetched | src/components/WeatherDisplay.js:10-30 | after any events, the snapshot is the one from the last successful fetch, or the earlier one if none succeeded; props changes and failures never clear it |
| WeatherPanel.ErrorIsSticky | src/components/WeatherDisplay.js:21-34 | once an error is recorded, it stays and the error message is shown after any later events, successes included |
| WeatherPanel.NoFailureKeepsError | src/components/WeatherDisplay.js:8-24 | a run without failed fetches leaves the error as it was |
| WeatherPanel.ZeroCoordinateShowsPreviousWeather | src/components/WeatherDisplay.js:27-38 | selecting a point with a zero coordinate sends no fetch, and a panel showing weather keeps showing every field of the previous snapshot, labelled for the new unit |
| Viewer.Boot | src/App.js:143 | start-up sends one fetch, for the default location in metric, sends no name lookup, and shows the loading message |
| Viewer.Deliver | src/App.js:143 | after a shell event the panel's props follow the shell; a fetch is sent exactly when the location or unit changed and both coordinates are non-zero; snapshot and error survive |
| Viewer.WeatherArrived | src/components/WeatherDisplay.js:21-24 | a weather completion leaves the shell alone; a success installs the snapshot and a failure puts up the error message |
| Viewer.ParisScenario | src/App.js:28-33 | after start-up with empty storage, a click on Paris selects it, makes it the only history entry, persists it, requests its name and fetches its weather in metric |
| Viewer.SixClicksScenario | src/App.js:98-104 | six clicks C1..C6 from an empty history leave [C2, C3, C4, C5, C6] |
| Viewer.UnitSwitchScenario | src/components/WeatherDisplay.js:27-49 | switching to imperial sends one fetch for the same point in imperial; every field of the old metric snapshot shows at once under the labels F and mph, and the new snapshot then replaces it field for field |

## Left out

- `src/components/MapDisplay.js`: the map widget, its tiles and marker are left out. Its only logic is forwarding a click, which is the `MapClicked` event.
- The HTTP requests and the weather and geocoding endpoints: requests are outputs and their outcomes are input events.
- The credential read from the environment: it is passed through unchanged and plays no part in any decision.
- `JSON.parse`, `JSON.stringify` and `localStorage` are left out. Storage is an abstract slot holding a list. Malformed stored text makes `JSON.parse` throw, and that crash is not modelled. Stored JSON that is neither `null` nor a list is not modelled either.
- At start-up the persisting effect first writes the empty initial history, then writes the loaded one. Only the settled state is modelled.
- Async interleavings are left out. Each completion is one atomic event. A name search's answer is applied to the current history, while the code applies it to the history captured when the search was sent. Races between completions are not modelled.
- Floating point is left out. Coordinates are reals, so negative zero and NaN coordinates do not exist. `toFixed(2)` and the other display formatting are not modelled.
- React and MUI rendering markup, the wall-clock `isDayTime` value (computed but unused), the icon URL string and the constant map zoom are left out.
- Failed geocoding requests are logged with `console.error` before being swallowed; the logging is not modelled.
- The `cityName` prop passed to the panel is not modelled, because the panel never reads it.
- App.SearchResult: an empty or failed answer is shown to leave the state unchanged, but the converse is not claimed. A successful answer can leave the state equal to the old one when the same place is already selected and fills a full history.
