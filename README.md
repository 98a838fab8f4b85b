# Greenhouse dashboard: a verified model of its fetch state

The greenhouse front end has two pages with state of their own.

- **The live dashboard** (`src/GreenhouseDashboard.jsx`) polls a ThingSpeak channel for its newest feed record. It maps that record to a reading: field1 becomes temperature, field3 humidity, field4 soil, field5 light, field6 CO₂, and `created_at` becomes a locale time. The reading is appended to a `history` window that keeps at most 20 readings. The reading is then forwarded to the greenhouse backend by a POST, and any error is caught and logged. The pie chart shows the newest reading as five slices.
- **The sensor-history page** (`src/SensorHistory.jsx`) holds `startDate`, `endDate`, `data` and `loading`. Pressing the button checks that both dates are non-empty, sets `loading`, and asks the backend for the records in the range. On success the list replaces `data`. On failure `data` stays and an alert is shown. `loading` is cleared in `finally`.

Module `Dashboard` (Dashboard.dfy) models the first page. Its pure parts are functions with lemmas: `SliceFrom` (JavaScript's `slice`), `Append` (the `setHistory` updater), `ToReading`, `ToPostBody`, `Latest`, `PieData` and `ColorIndex`. The component is the class `GreenhouseDashboard`, with the `history` field and a `FetchStep` method for one completed `fetchData`. A ghost log of every reading ever appended lets `Valid()` state the window invariant: `history` is the last 20 readings that arrived, in arrival order.

Module `History` (History.dfy) models the second page as the class `SensorHistory`, with its four state variables. `fetchData` is split at its `await` into `Begin` (the guard and `setLoading(true)`) and `Settle` (`setData`, the catch and the `finally`). `FetchData` runs the two in sequence. The render conditions are functions and predicates.

Network responses are parameters: a GET either failed or returned its payload, and a POST either succeeded or failed. `Number(...)` and `toLocaleTimeString` are opaque functions passed in a `Host` value. Their results are a `Number` datatype: NaN, a signed infinity, or a finite real.

The dashboard keeps no browser-storage copy of the window, never replaces it wholesale, and has no start/stop API. The window is only ever appended to and trimmed.

## Model

| member | source | states |
|---|---|---|
| `Dashboard.SliceFrom` | src/GreenhouseDashboard.jsx:45 | `slice(start)` with a negative start yields the last `min(s.length, -start)` elements; with a non-negative start it drops the first `min(start, s.length)`; the result is always a suffix of `s` |
| `Dashboard.Append` | src/GreenhouseDashboard.jsx:45 | the `setHistory` updater `[...prev.slice(-19), newEntry]`: its result is non-empty, holds at most 20 entries and ends with the new entry; `AppendLength`, `AppendOrder`, `AppendBelowCapacity` and `AppendIsLastN` characterise it fully |
| `Dashboard.AppendLength` | src/GreenhouseDashboard.jsx:45 | after an append the window's length is `min(prev.length, 19) + 1`, so never more than 20 |
| `Dashboard.AppendOrder` | src/GreenhouseDashboard.jsx:45 | the new entry is last; before it stand exactly the newest `min(19, prev.length)` old entries in their original order |
| `Dashboard.AppendBelowCapacity` | src/GreenhouseDashboard.jsx:45 | with at most 19 entries nothing is dropped: the result is `prev + [entry]` |
| `Dashboard.AppendIsLastN` | src/GreenhouseDashboard.jsx:45 | an append equals the last 20 of (the old window followed by the new entry) |
| `Dashboard.LastNOfConcat` | src/GreenhouseDashboard.jsx:45 | trimming to the last n, appending more, and trimming again is the same as appending and trimming once |
| `Dashboard.Replay` | src/GreenhouseDashboard.jsx:63-65 | the window after a run of completed fetches: no fetch leaves it as it was; otherwise it holds at most 20 entries and ends with the last one to arrive; `ReplayIsLastN` gives it exactly |
| `Dashboard.ReplayIsLastN` | src/GreenhouseDashboard.jsx:45 | any run of appends on a window of at most 20 leaves the last 20 of the old window followed by all new entries, in arrival order |
| `Dashboard.FromEmpty` | src/GreenhouseDashboard.jsx:25-45 | starting from `useState([])`, after k appends the window is the last `min(k, 20)` entries in arrival order |
| `Dashboard.ToReading` | src/GreenhouseDashboard.jsx:36-43 | maps a feed record to a reading through the opaque `Number` and locale-time functions; `ToReadingFieldwise` states which raw field each value comes from |
| `Dashboard.ToReadingFieldwise` | src/GreenhouseDashboard.jsx:36-43 | each reading value depends only on its own raw field (field1→temperature, field3→humidity, field4→soil, field5→light, field6→co2, created_at→time); field2 is never read |
| `Dashboard.ToPostBody` | src/GreenhouseDashboard.jsx:49-56 | builds the POST body from a reading and the raw `created_at`; `PostBodyMatchesReading` states its fields |
| `Dashboard.PostBodyMatchesReading` | src/GreenhouseDashboard.jsx:47-57 | the POST body carries the appended reading's five values, soil under `soilMoisture`, and the raw `created_at` as `timestamp` |
| `Dashboard.Latest` | src/GreenhouseDashboard.jsx:69 | `latest` is absent exactly when the window is empty, and is otherwise its last element |
| `Dashboard.LatestAfterAppend` | src/GreenhouseDashboard.jsx:45-69 | after an append, `latest` is the reading just appended |
| `Dashboard.PieData` | src/GreenhouseDashboard.jsx:71-79 | `pieData` has no slices for an empty window and five otherwise; `PieDataShape` gives the names and values |
| `Dashboard.PieDataShape` | src/GreenhouseDashboard.jsx:71-79 | `pieData` is empty exactly when the window is empty; otherwise it has five slices named Temp, Humidity, Soil, Light, CO₂ in that order, valued from the newest reading |
| `Dashboard.ColorIndex` | src/GreenhouseDashboard.jsx:98 | `index % COLORS.length` is a valid palette index, and is the index itself below five |
| `Dashboard.PieColorsDistinct` | src/GreenhouseDashboard.jsx:22-98 | two different slices of the pie chart never get the same colour |
| `Dashboard.GreenhouseDashboard.constructor` | src/GreenhouseDashboard.jsx:25 | the window starts empty and satisfies the window invariant |
| `Dashboard.GreenhouseDashboard.FetchStep` | src/GreenhouseDashboard.jsx:28-61 | a failed GET or an empty `feeds` list is caught: nothing changes, nothing is posted, the error is logged; otherwise the mapped reading is appended before the POST, so a failed POST is logged but the append stands; the window stays the last 20 arrivals |
| `History.Truthy` | src/SensorHistory.jsx:80 | JavaScript truthiness of an optional string: present and non-empty; what JavaScript's logical or tests when `TimeSource` picks between `timestamp` and `recordedAt` |
| `History.DatesGiven` | src/SensorHistory.jsx:11 | the negation of the guard at line 11: both dates non-empty, with no check of their order; `Begin` and `FetchData` issue a request exactly when it holds |
| `History.ShowsNoData` | src/SensorHistory.jsx:72-74 | the "No data found" message shows when `data` is empty and not loading; `Begin` proves it hidden while a request is in flight and `FetchData` that after an attempt it shows exactly when the list in force is empty |
| `History.TimeSource` | src/SensorHistory.jsx:80 | a card's time comes from `timestamp` when it is truthy and from `recordedAt` otherwise; the result is truthy exactly when one of the two is |
| `History.ButtonLabel` | src/SensorHistory.jsx:66 | the label is "Loading..." exactly when `loading` is true |
| `History.NoDataNeverWhileLoading` | src/SensorHistory.jsx:66-74 | the "No data found" message (shown when `data` is empty and not loading) never appears together with the "Loading..." label |
| `History.SensorHistory.constructor` | src/SensorHistory.jsx:5-8 | both dates start empty, `data` empty, `loading` false |
| `History.SensorHistory.SetStartDate` | src/SensorHistory.jsx:50 | the start input's change handler sets `startDate` and nothing else |
| `History.SensorHistory.SetEndDate` | src/SensorHistory.jsx:60 | the end input's change handler sets `endDate` and nothing else |
| `History.SensorHistory.Begin` | src/SensorHistory.jsx:11-17 | a request is issued exactly when both dates are non-empty, whatever their order; `loading` is then true and the "No data found" message hidden; otherwise `loading` is unchanged |
| `History.SensorHistory.Settle` | src/SensorHistory.jsx:19-35 | success replaces `data` with the response list; failure leaves `data` and reports the "Failed to fetch data" alert; either way `loading` ends false |
| `History.SensorHistory.FetchData` | src/SensorHistory.jsx:10-36 | with a date missing, an alert is shown and `data` and `loading` are unchanged; otherwise `loading` ends false and `data` is replaced exactly on success and kept on failure; no error escapes; afterwards the "No data found" message shows exactly when the response list (on success) or the old `data` (on failure) is empty |

## Left out

- HTTP: the `axios.get` and `axios.post` calls are foreign I/O. They appear only as their outcomes: `GetResponse`, the `postSucceeds` flag and `RangeResponse`. A malformed payload whose `feeds` is missing throws like a failed GET and is folded into `GetFailed`.
- Timer and overlapping fetches: `setInterval`/`clearInterval` and two fetches in flight at once are timer-driven concurrency. Completed fetches are modelled as sequential `FetchStep` calls, and a run of them as `Replay`.
- Numeric coercion: `Number(...)` and its NaN results are floating point. The function is opaque (`Host.toNumber`), and its results are the `Number` datatype: NaN, a signed infinity, or a finite real, with negative zero folded into zero.
- Locale formatting: `toLocaleTimeString` is the opaque `Host.localeTime`. The card's `toLocaleString` on the history page is not modelled beyond choosing its input (`TimeSource`).
- Missing or null raw fields: feed fields are modelled as text. What `Number` does with `undefined` or `null` lies inside the opaque coercion.
- Environment configuration: `process.env` and `dotenv` only build the request URL, which the model does not carry.
- Rendering: the Recharts components, `ChartCard`, `CustomTooltip`, the `styles` tables and routing in `src/App.jsx` have no behavioural contract.
- Logging and alerts: `console.error` is the `logged` flag, and `alert` is the message carried by `FetchOutcome`. `console.log` is not modelled.
- History page record values: they are displayed as they arrive, so they are kept as text.
