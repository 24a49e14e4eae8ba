# Weather dashboard: forecast aggregation, saved cities, screen state

A Dafny model of the logic inside the React weather dashboard's components:

- **Forecast aggregation** (`ForecastCard.jsx`). The provider's flat list of
  3-hour samples becomes two views. The first is up to five daily summaries:
  samples are grouped by the date part of `dt_txt`, dates are kept in
  first-seen order, and each summary gets the rounded mean temperature and
  the condition and icon of the group's middle sample. The second is one
  chart point per sample, in list order, with the precipitation chance as a
  rounded percentage. Modules `Grouping` and `ForecastCard`.
- **Saved cities** (`WeatherCard.jsx`, plus the load and remove handlers of
  `Home.jsx`). This is an ordered list of names in one storage key. The star
  button appends a name that is not there yet, or filters out every exact
  match. Missing storage reads as the empty list. Unparsable storage makes
  the button do nothing, because the exception is caught. Modules `CityList`
  and `SavedStore`.
- **Screen state** (`Home.jsx`). The page keeps `current`, `forecast`,
  `loading`, `error` and the saved list. A fetch by city or by coordinates
  has a synchronous start and a completion. The completion applies whichever
  outcome arrives, in arrival order. When geolocation fails or is
  unsupported, the page searches the first city of the saved list that the
  mount effect's pass closed over, if there is one. Module `Home`.

All collections are sequences. Temperatures and precipitation chances are
exact rationals (`real`). `Math.round` is `Floor(x + 1/2)`, the nearest
integer with halves rounded up. `localStorage` together with `JSON.parse` is
abstracted as `Absent | Corrupt | Valid(cities)`. `Absent` also covers a
stored value that parses to a falsy JSON value, which `|| []` turns into the
empty list. The locale labels (`formatDay`, `toLocaleDateString`,
`toLocaleTimeString`) are function parameters, and nothing is claimed about
them.

Behaviour of the code worth knowing, each exhibited by a member:

- The last response to arrive wins. There are no request ids, so a later
  "Karachi" search answered before an earlier "Lahore" one ends with Lahore
  on screen (`Home.StaleResponseIsShown`).
- A two-sample date takes its condition from index `floor(2/2) = 1`, the
  second sample (`ForecastCard.SummaryExamples`).
- `error` is cleared only when a fetch starts, not when one succeeds. A
  failure that completes between another fetch's start and its success
  stays visible next to the new data (`Home.ErrorSurvivesLaterSuccess`).
- Removal always writes the filtered list back, even when the city is
  absent. On a missing storage key it writes `[]` (`SavedStore.RemoveCity`).
- The geolocation fallback reads the saved list captured by the effect
  pass that asked for the position. The first pass on mount captures the
  initial `[]`, so only the pass re-run by the load searches a stored city
  (`Home.MountFallback`).

## Model

| member | source | states |
|---|---|---|
| Common.RoundHalfUp | src/components/ForecastCard.jsx:46 | the result is the integer within half a unit of the input, with halves going up: r - 1/2 <= x < r + 1/2 |
| CityList.Without | src/components/WeatherCard.jsx:43 | exactly the names other than `name` survive |
| CityList.WithoutCounts | src/components/WeatherCard.jsx:43 | every occurrence of `name` goes and each other name keeps its multiplicity, so the list shrinks by exactly the occurrences of `name` |
| CityList.WithoutAppend | src/pages/Home.jsx:121 | filtering commutes with concatenation, so survivors keep their relative order |
| CityList.WithoutAbsent | src/pages/Home.jsx:121 | filtering out a name the list does not hold returns an equal list |
| CityList.WithoutKeepsDistinct | src/components/WeatherCard.jsx:42-44 | removal keeps a duplicate-free list duplicate-free |
| CityList.AppendKeepsDistinct | src/components/WeatherCard.jsx:29-31 | appending an absent name keeps the list duplicate-free |
| SavedStore.Read | src/components/WeatherCard.jsx:8 | the parse throws exactly on corrupt storage; missing storage reads as the empty list, and a stored array as that array |
| SavedStore.IsSaved | src/components/WeatherCard.jsx:6-13 | a name is saved exactly when storage parses to an array holding it; missing and unparsable storage both answer false |
| SavedStore.LoadSaved | src/pages/Home.jsx:24-30 | the page's list is the stored array when it parses, and empty when storage is missing or unparsable |
| SavedStore.SaveCity | src/components/WeatherCard.jsx:26-38 | a new name is appended at the end with earlier names unchanged, persisted, flagged saved and reported with the written list; a present name or corrupt storage changes nothing and reports nothing |
| SavedStore.RemoveCity | src/components/WeatherCard.jsx:40-50 | the written list holds exactly the read names other than `name`, the flag is cleared and the written list reported; corrupt storage changes nothing |
| SavedStore.Toggle | src/components/WeatherCard.jsx:64 | with the flag set the name ends up unsaved and unflagged; with it clear the name ends up saved, and flagged only if it was not saved before; corrupt storage changes nothing |
| SavedStore.RefreshSaved | src/components/WeatherCard.jsx:20-24 | a non-empty city name sets the flag to storage membership; an empty one leaves the flag alone |
| SavedStore.SaveTwiceIsSaveOnce | src/components/WeatherCard.jsx:29 | a second save of the same name writes nothing, keeps the flag and notifies nobody |
| SavedStore.SaveKeepsDistinct | src/components/WeatherCard.jsx:29-31 | saving preserves "the stored list has no duplicates" |
| SavedStore.RemoveKeepsDistinct | src/components/WeatherCard.jsx:42-44 | removing preserves "the stored list has no duplicates" |
| SavedStore.RemoveKeepsOrder | src/components/WeatherCard.jsx:42-44 | the written list is the filtered read list, piece by piece in order; an unsaved name writes back the very list read |
| SavedStore.RemoveUndoesSave | src/components/WeatherCard.jsx:26-50 | removing a just-saved new name restores the list that was read and clears the flag |
| SavedStore.ToggleKeepsFlagInSync | src/components/WeatherCard.jsx:64 | a flag that agrees with storage still agrees after the button; with parsable storage the button flips it |
| Grouping.DateKey | src/components/ForecastCard.jsx:31 | the key is the prefix of `dt_txt` that has no space and ends at the first space or at the end of the string |
| Grouping.DateKeyOfStamp | src/components/ForecastCard.jsx:31 | a "date time" stamp whose date has no space yields its date |
| Grouping.DayKeys | src/components/ForecastCard.jsx:29-34 | the date keys are distinct, are exactly the dates occurring in the list, and number at most the list's length |
| Grouping.SamplesOn | src/components/ForecastCard.jsx:32-33 | a date's group holds only samples of that date, and is non-empty exactly when the date occurs |
| Grouping.SamplesOnCounts | src/components/ForecastCard.jsx:29-34 | each sample lands in its own date's group as often as it occurs in the list, and in no other group |
| Grouping.SamplesOnAppend | src/components/ForecastCard.jsx:30-33 | grouping commutes with concatenation, so within-group order follows list order |
| Grouping.DayKeysFirstSeenOrder | src/components/ForecastCard.jsx:29-37 | every occurrence of a later key is preceded by an occurrence of each earlier key (first-appearance order) |
| Grouping.DayKeysCount | src/components/ForecastCard.jsx:37 | there is one key per distinct date of the list |
| Grouping.GroupNonEmpty | src/components/ForecastCard.jsx:40 | a date is a key exactly when its group is non-empty, so index floor(n/2) is in range |
| Grouping.GroupsPartition | src/components/ForecastCard.jsx:29-34 | the group sizes of all keys add up to the list's length |
| Grouping.GroupByDay | src/components/ForecastCard.jsx:28-34 | the `forEach` loop's key order and groups are the first-seen dates and each date's samples in list order |
| ForecastCard.MeanBounds | src/components/ForecastCard.jsx:38-39 | the mean of a date's temperatures lies between their minimum and maximum |
| ForecastCard.Summarize | src/components/ForecastCard.jsx:38-49 | a group's summary keeps the date, rounds the exact mean temperature to within half a unit (halves up), and takes condition and icon from the sample at index floor(n/2) |
| ForecastCard.DailySummaries | src/components/ForecastCard.jsx:37-50 | there are min(#dates, 5) summaries, the i-th for the i-th first-seen date, with distinct dates and non-empty groups |
| ForecastCard.SummaryOfDate | src/components/ForecastCard.jsx:38-48 | a summary's avg is within half a unit of its date's mean temperature (halves up), its condition and icon come from in-range index floor(n/2), and its labels are the date's |
| ForecastCard.SummariesFirstSeen | src/components/ForecastCard.jsx:37 | summaries appear in first-appearance order of their dates: every occurrence of a later summary's date is preceded by one of each earlier summary's date |
| ForecastCard.SummaryCount | src/components/ForecastCard.jsx:37 | the summary count is min(#distinct dates, 5) |
| ForecastCard.SummaryAverageInRange | src/components/ForecastCard.jsx:38-46 | a summary's avg lies between the rounded lowest and the rounded highest temperature of its date |
| ForecastCard.SummaryExamples | src/components/ForecastCard.jsx:38-48 | [10.2, 11.8] averages to 11, [10.4, 10.6] rounds 10.5 up to 11, and both three- and two-sample dates take the second sample's condition |
| ForecastCard.Offset | src/components/ForecastCard.jsx:54 | the offset is the city's timezone, or 0 when the city or its timezone is missing |
| ForecastCard.PopPercent | src/components/ForecastCard.jsx:68 | a missing pop gives 0; otherwise the result is within half a unit of 100·pop, and a pop in [0,1] gives an integer in [0,100] |
| ForecastCard.ChartData | src/components/ForecastCard.jsx:53-70 | one point per sample at the same index, copying temp, feels_like, humidity and wind speed, with the percentage pop and the label of (dt + offset)·1000 ms |
| ForecastCard.ChartDataAppend | src/components/ForecastCard.jsx:53 | the chart series commutes with concatenation: no re-sorting or dropping |
| ForecastCard.Render | src/components/ForecastCard.jsx:24 | nothing renders exactly when the forecast or its list is missing; otherwise the summaries and chart of that list |
| ForecastCard.EmptyListRendersEmptyCard | src/components/ForecastCard.jsx:24-53 | an empty list still renders the card, with zero summaries and zero chart points |
| Home.Mount | src/pages/Home.jsx:17-31 | the page starts with nothing shown, not loading, no error, and the stored list or the empty list |
| Home.Settle | src/pages/Home.jsx:63-66 | the pair succeeds exactly when both requests do, with their payloads; a failure carries a rejected request's error, and the only one when just one rejects |
| Home.ErrorMessage | src/pages/Home.jsx:71 | the message is the response's message if non-empty, else the error's own message if non-empty, else "Failed to fetch"; it is never empty |
| Home.Begin | src/pages/Home.jsx:60-61 | starting a fetch sets loading, clears the error and keeps the weather already shown |
| Home.Complete | src/pages/Home.jsx:67-76 | success shows both payloads; failure clears both and shows the message; loading ends either way and the saved list is untouched |
| Home.HandleSearch | src/pages/Home.jsx:59-61 | a search sends the city query, sets loading, clears the error and keeps the shown weather |
| Home.FetchByCoords | src/pages/Home.jsx:80-82 | a coordinate fetch sends the position query with the same screen change as a search |
| Home.TryGeolocation | src/pages/Home.jsx:35-52 | a position fetches by coordinates; otherwise the first city of the list the effect pass captured is searched from the current screen, or nothing happens when that list is empty |
| Home.MountCaptures | src/pages/Home.jsx:21-56 | the first effect pass captures the initial `[]`; a second pass, capturing the loaded list, happens exactly when that list is non-empty |
| Home.MountFallback | src/pages/Home.jsx:21-56 | without a position, the first pass on mount searches nothing even when storage holds cities; the re-run pass searches the first stored city |
| Home.HandleSelectSaved | src/pages/Home.jsx:127-129 | selecting a saved city sends that city's query, sets loading, clears the error and keeps the shown weather and list |
| Home.HandleSavedChange | src/pages/Home.jsx:115-117 | the card's reported list replaces the page's list and nothing else changes |
| Home.HandleRemoveCity | src/pages/Home.jsx:120-124 | the shown list is the old list filtered of the city, so exactly the other cities remain; exactly that list is persisted, and nothing else changes |
| Home.HandleRemoveKeepsOrder | src/pages/Home.jsx:121-123 | the page's removal filters piece by piece in order, and writes the same list as the card's remove button on the same stored list |
| Home.FetchResult | src/pages/Home.jsx:59-77 | an undisturbed fetch shows both payloads with no error on success, and nothing but the message on failure; loading ends |
| Home.SearchAndCoordsAgree | src/pages/Home.jsx:59-129 | search and coordinate fetch change the screen identically at start and at completion, and selecting a saved city is a search |
| Home.GeolocationFallback | src/pages/Home.jsx:35-49 | unsupported geolocation and a failed request fall back alike: the first captured city, or no query and an untouched screen |
| Home.LastCompletionWins | src/pages/Home.jsx:67-73 | the payloads a completion shows do not depend on the screen before it, and neither does anything a failure shows; a success keeps the earlier error |
| Home.StaleResponseIsShown | src/pages/Home.jsx:59-77 | a later search answered first is overwritten by an earlier search answered last |
| Home.ErrorSurvivesLaterSuccess | src/pages/Home.jsx:60-73 | a failure between another fetch's start and success leaves its message beside the fetched weather |
| Home.RemoveAbsentCity | src/pages/Home.jsx:121-123 | removing an unlisted city leaves the page unchanged and writes back the same list |
| Home.SavedListStaysInSync | src/pages/Home.jsx:114-124 | the page's list keeps mirroring storage, without duplicates, across the card's button and the page's remove handler |

## Left out

- `src/api/weather.js`: the HTTP calls are replaced by their outcomes, a
  success payload or a rejection with optional messages. Which of two
  rejections `Promise.all` reports first is a timing parameter.
- The current-weather payload is reduced to the city name. The page only
  passes it on to the card.
- `SavedLocations.jsx` and `SearchBar.jsx` are rendering and form plumbing.
  The search bar's trim-and-non-empty guard is not modelled.
- Locale formatting (`formatDay`, `toLocaleDateString`,
  `toLocaleTimeString`) depends on the browser's locale and time zone. It is
  passed in as functions, and nothing is claimed about the labels. In
  particular, chart labels format the instant `(dt + timezone) * 1000` in the
  browser's own time zone, since no `timeZone` option is passed, rather
  than as a UTC instant; the model keeps only that instant.
- The chart widget, the metric buttons and the axis/tooltip label maps are
  presentation.
- Effect scheduling is async/timer behaviour and is left out beyond the
  mount: the geolocation pass re-run by a later change of the saved list's
  length, the 8000 ms timeout, and the interleaving of the two mount passes'
  callbacks. `Home.MountCaptures` gives the lists the mount passes capture,
  and `Home.TryGeolocation` the decision taken when geolocation answers.
- `handleUseLocation` only raises alerts besides a coordinate fetch, which
  `Home.FetchByCoords` covers.
- `console.error` logging has no effect on state.
- Floating point is not modelled. Means and `pop * 100` are exact
  rationals, so IEEE-754 rounding and `NaN` are out of scope.
- Real JSON parsing and `localStorage` are abstracted as
  `Absent | Corrupt | Valid`. A stored value that parses to a truthy
  non-array is not modelled.
- Date keys that look like array indices are ordered numerically by
  `Object.keys`. Keys that name `Object.prototype` members
  (`"constructor"`, ...) make `daily[date].push` misbehave. Neither can
  come from a "YYYY-MM-DD hh:mm:ss" stamp, and the model keeps every key in
  first-seen order.
- Only one sample per shown date reads `weather[0]`: the one at index
  floor(n/2) of each of the first five dates' groups. If that sample's
  `weather` array is empty the card throws. The chart and every other
  sample never read `weather`. The model gives every sample a condition and
  icon, so this throw is not modelled.
- The card's `onSaveChange` may be absent. The model records the list it
  would receive either way.
