# Weather dashboard data rules, modelled in Dafny

The dashboard (`script.js`) resolves a location, fetches current weather and
a short forecast from one of two providers, and renders them. The two
providers are a structured current/forecast API ("owm") and a free-form
aggregator ("wttr"). This project models the data rules inside that
script, with the browser effects stripped. Those rules are:

- the recent-cities list kept in local storage (`saveRecent`);
- the structured provider's forecast reduction to one sample per day, the
  one closest to noon (`pickDailyAtNoon`);
- the aggregator's forecast truncation and its choice of a representative
  hourly entry per day;
- the defaults for place names, descriptions and icons of both providers,
  and the unit-keyed reading of the aggregator's fields;
- the city guard of `handleSearch`, the provider choice from the API key,
  and the unit setting;
- the settle-once latch of the start-up sequence `firstLoad`.

Modules, one per component, each in its own file:
`Wrappers` (Option), `JsBuiltins` (the JavaScript built-ins the rules
rely on: `slice`, `trim`, `toLowerCase`, `join`, `filter(Boolean)`,
`Number`), `Settings`, `Search`, `RecentCities`, `NoonPick`, `Normalize`,
`OwmForecast`, `WttrForecast` and `FirstLoad`.

Parts of the script that update state are modelled as classes:
- `RecentCities.RecentStore` holds the stored list as a `seq<string>`;
- `FirstLoad.Startup` holds the `settled` flag, the timer and the effects started.

`pickDailyAtNoon` is a method: `NoonPick.KeepNoonPicks` holds the source's
loop over a per-day map, and `NoonPick.PickDailyAtNoon` sorts and cuts its
result.
The remaining rules are functions, with lemmas stating their properties.

The locale-dependent conversions (the calendar day and local hour of a
timestamp, the weekday of a date) are inputs. A forecast sample carries its
day key and hour, and the cell builders take a `weekdayOf` function. JSON
numbers are exact reals, and a missing value is `None`.

Where the code and the intended behaviour seem to part ways, the model
follows the code and logs the difference under "## Findings". In a few
other places one might expect something the code does not do, and the
model follows the code:
- One might expect saving "paris" after "Paris" to put "paris" in front.
  The stored entry "Paris" stays as it is, because nothing is written
  (`RecentCities.WriteOnlyWhenNew`).
- One might expect the aggregator's fallback "area name alone" to apply
  sometimes. It never does: a non-empty area name is already part of the
  joined name (`Normalize.WttrPlaceName`).
- After a successful start-up geolocation, the `catch` that would fall back
  to the default city (script.js:353-356) does not run while the page has
  its status element. `loadByCoords` catches every error of its requests
  and rendering; only its first `setStatus` (script.js:233) runs outside
  its `try`, and it throws only when the status element looked up at
  script.js:7 is missing. The page is not modelled, so a success always
  acts as "load the weather at the position".
- The composites `Normalize.WttrCurrent` and
  `OwmForecast.OwmForecastCells` follow the code, including the two
  display faults logged under "## Findings". The corrected rules stand
  beside them (`Normalize.Humidity`, `OwmForecast.OwmCell`).

## Model

| member | source | states |
|---|---|---|
| `Settings.UnitsFromStore` | script.js:25-27 | the units are imperial exactly when the stored text is "imperial"; missing or any other text gives metric |
| `Settings.StoredUnitsRoundTrip` | script.js:25-26 | storing a unit system's code and reading it back gives the same unit system |
| `Settings.UnitsFromToggle` | script.js:304 | the units selected by the toggle agree with the toggle's checked state |
| `Settings.ToggleStoreReload` | script.js:303-306 | toggling, storing and reloading restores the toggled units and the toggle's checked state |
| `Settings.ChooseProvider` | script.js:29-31 | the structured provider is chosen exactly when a non-empty API key is configured |
| `Settings.ByUnits` | script.js:188-191 | a unit-keyed field is read from the imperial field under imperial units and from the metric field under metric units |
| `JsBuiltins.Trim` | script.js:253 | `trim` yields a contiguous piece of the text with no whitespace at either end; everything before and after that piece is whitespace; the result is empty exactly when the text is all whitespace |
| `JsBuiltins.TrimStart` | script.js:253 | dropping leading whitespace leaves a suffix that begins with a non-whitespace character, and everything dropped is whitespace |
| `JsBuiltins.TrimEnd` | script.js:253 | dropping trailing whitespace leaves a prefix that ends with a non-whitespace character, and everything dropped is whitespace |
| `JsBuiltins.SliceTo` | script.js:42 | `slice(0, end)` keeps a prefix of `SliceLength` elements: `end` clamped to the length, or counted from the end when negative |
| `JsBuiltins.ToLower` | script.js:41-42 | `toLowerCase` keeps the length and folds each character |
| `JsBuiltins.SameIgnoringCase` | script.js:41-42 | two texts are equal ignoring case exactly when they have the same length and fold to the same character at every position |
| `JsBuiltins.FilterTruthy` | script.js:102 | `filter(Boolean)` keeps no more parts than it was given, and none of them empty |
| `JsBuiltins.Join` | script.js:102 | `join` of no parts is empty, of one part is that part, and otherwise begins with the first part |
| `Search.ValidateCity` | script.js:253-256 | a search is rejected, with the fixed message, exactly when the text is whitespace only (the empty text included); otherwise it proceeds with the trimmed text `Trim(city)`, which is non-empty |
| `Search.ValidateCityIff` | script.js:253 | a search proceeds exactly when the text contains a non-whitespace character |
| `Search.DefaultCityProceeds` | script.js:330-333 | the fallback search for "Hyderabad" passes the guard with the city unchanged |
| `RecentCities.WithoutCity` | script.js:42 | the filtered list is no longer than the original, and every remaining entry comes from it and differs from the city ignoring case |
| `RecentCities.HasCity` | script.js:41 | the `find` succeeds exactly when the filter of line 42 drops an entry |
| `RecentCities.WithoutCityShorterIff` | script.js:41-42 | the filter drops an entry exactly when some entry equals the city ignoring case |
| `RecentCities.WithoutCityIsFilter` | script.js:42 | the filter keeps the other entries in their original relative order (a subsequence), and every other value is still present |
| `RecentCities.WithoutCityCounts` | script.js:42 | the filter keeps every copy of each entry that differs from the city ignoring case, and no copy of one that matches it |
| `RecentCities.WithoutAbsentCity` | script.js:42 | filtering out a city that is not in the list leaves the list unchanged |
| `RecentCities.WithoutCityCaseDistinct` | script.js:42 | filtering keeps a case-distinct list case-distinct |
| `RecentCities.WithoutPresentCity` | script.js:41-42 | in a case-distinct list that holds the city, exactly one entry is removed |
| `RecentCities.Updated` | script.js:42 | the rebuilt list has 1 to 6 entries and starts with the city |
| `RecentCities.ShouldWrite` | script.js:43 | a city that is not in the list ignoring case is always written, and so is any list longer than 6 |
| `RecentCities.UpdatedShape` | script.js:42 | the rebuilt list starts with the city; the other entries the filter keeps follow in their original order, none equal to the city ignoring case; there are 1 to 6 entries |
| `RecentCities.UpdatedWellFormed` | script.js:41-42 | rebuilding a case-distinct list gives a case-distinct list of at most 6 entries |
| `RecentCities.WriteOnlyWhenNew` | script.js:41-45 | on a well-formed list, the list is written exactly when the city is not already in it ignoring case, so an existing entry is neither promoted nor re-cased |
| `RecentCities.ExistingCityNotPromoted` | script.js:43 | with ["Paris", "London"] stored, saving "London" writes nothing, although the rebuilt list is ["London", "Paris"] |
| `RecentCities.RecentStore.constructor` | script.js:40 | the store starts out holding the decoded stored list |
| `RecentCities.RecentStore.SaveRecent` | script.js:38-47 | an empty name changes nothing; otherwise the rebuilt list is written exactly under the condition of line 43, and nothing else is; a well-formed list stays well-formed; a written list starts with the city and has at most 6 entries |
| `RecentCities.RecentStore.SaveRecentPromoting` | script.js:43 | corrected rule: a non-empty city always ends up first; the store is written exactly when the list changes; well-formedness is kept |
| `NoonPick.NoonPickUnique` | script.js:124-133 | each day has at most one noon pick |
| `NoonPick.NoonPickExistsUpTo` | script.js:124-133 | among the first `n` samples, every day seen has a noon pick so far |
| `NoonPick.NoonPickExists` | script.js:124-133 | every day of the input has a noon pick |
| `NoonPick.NoonDistance` | script.js:129 | the score is the distance of the hour from 12, at most 12 and 0 exactly at noon |
| `NoonPick.InsertByDt` | script.js:136 | inserting adds exactly the new sample: the result holds the old samples and it, one more than before |
| `NoonPick.InsertByDtSorted` | script.js:136 | inserting into a list sorted by `dt` keeps it sorted |
| `NoonPick.SortByDt` | script.js:136 | sorting yields the same multiset of samples, ordered by `dt` |
| `NoonPick.SortByDtDistinctDays` | script.js:136 | sorting keeps the samples' days distinct |
| `NoonPick.KeepReplace` | script.js:128-132 | a sample of a new day, or strictly closer to noon than its day's kept one, becomes that day's noon pick so far |
| `NoonPick.KeepSkip` | script.js:130 | a sample no closer to noon than its day's kept one changes nothing, because ties keep the first sample |
| `NoonPick.KeptSamples` | script.js:134-135 | the map's values are one sample per day, each its day's noon pick, and every day's noon pick is among them |
| `NoonPick.KeepNoonPicks` | script.js:123-135 | the pass over the samples returns one sample per day, each an input sample and its day's noon pick, and every day's noon pick is among them |
| `NoonPick.ShownOrLater` | script.js:136-137 | a kept sample either survives the cut to five, or five samples no later than it are shown |
| `NoonPick.StrictlyAscending` | script.js:125-136 | sorted samples of distinct days, taken from input in which equal timestamps fall on the same day, are strictly ascending |
| `NoonPick.DistinctDtsDayFollowsDt` | script.js:125-126 | input with distinct timestamps meets that hypothesis |
| `NoonPick.Days` | script.js:126 | every sample's day key is among the days of the input |
| `NoonPick.EveryDayShown` | script.js:134-137 | when every noon pick is shown unless five samples are, every day of the input is shown unless five are, and a non-empty input shows at least one sample |
| `NoonPick.ShownSamples` | script.js:134-137 | sorting the kept samples and taking five gives what `PickDailyAtNoon` promises |
| `NoonPick.PickDailyAtNoon` | script.js:121-138 | at most 5 samples, sorted by `dt`, one per day; each is an input sample and the noon pick of its day (closest to hour 12, ties to the first seen); a day's noon pick is left out only when 5 samples are shown, all no later than it; every day of the input is shown unless 5 are, so a non-empty input gives a non-empty result; strictly ascending whenever equal timestamps fall on the same day, as they do when the day is computed from `dt` |
| `JsBuiltins.JoinTruthyEmptyIff` | script.js:102 | `filter(Boolean).join(sep)` is empty exactly when no part is truthy |
| `JsBuiltins.JoinTwoTruthy` | script.js:102 | joining two optional parts gives both with the separator, the one truthy part alone, or the empty text |
| `JsBuiltins.JsNumber` | script.js:188-196 | `Number` then `isFinite`: a missing or non-numeric text reads as the placeholder, a numeric text as its value, and the empty text as 0 |
| `Normalize.First` | script.js:103 | `xs && xs[0]` is present exactly when the list is present and non-empty, and is then its first element |
| `Normalize.FirstValueOr` | script.js:181-182 | `xs && xs[0] ? xs[0].value : d` is the first text when the list is present and non-empty, and `d` otherwise |
| `Normalize.OwmIconUrl` | script.js:113 | the icon address is the base address, then the code, then `@2x.png` for the current conditions or `.png` for a forecast cell |
| `Normalize.OwmPlaceName` | script.js:102 | the structured place name is empty exactly when neither the name nor the country is truthy |
| `Normalize.OwmPlaceNameCases` | script.js:102 | the structured place name is name and country joined by ", ", whichever is present alone, or the empty text (no em-dash); a missing `sys` gives the name alone |
| `Normalize.WttrPlaceName` | script.js:179-183 | for any nearest-area payload, with `a` and `c` the first area name and country of the first area (empty when missing): the em-dash when both are empty, otherwise their non-empty join, the same as the structured provider's; never empty |
| `Normalize.WttrPlaceNameMissingField` | script.js:180-183 | an area with its area name or country missing (or an empty area-name list) shows the other field, or the em-dash when that one is empty too |
| `Normalize.WttrPlaceNameMissingArea` | script.js:180-183 | a missing or empty nearest-area list gives the em-dash |
| `Normalize.OwmDescription` | script.js:103 | the description is the first condition's text, or the em-dash when the list is missing or empty |
| `Normalize.WttrDescription` | script.js:185 | the aggregator's description is the first `weatherDesc` text, or the em-dash when the list is missing or empty |
| `Normalize.DescriptionsAgree` | script.js:185 | given the same condition texts, both providers show the same description |
| `Normalize.OwmCurrentIcon` | script.js:111-118 | the icon is shown exactly when the first condition has a non-empty code, as the large image of that code |
| `Normalize.WttrIcon` | script.js:198-205 | the icon is shown exactly when the first address is non-empty, as that address |
| `Normalize.Humidity` | script.js:190 | corrected rule: humidity is shown exactly when the field is numeric, and then as its value |
| `Normalize.HumidityAsWritten` | script.js:190-195 | as written: a missing or empty humidity reads as 0, a numeric one as its value, and only a non-numeric one as the placeholder |
| `Normalize.MissingHumidityShownAsZero` | script.js:179-195 | as written, a missing humidity reads as 0, also when the whole current-condition block is missing; corrected, it reads as the placeholder; present values read alike |
| `Normalize.WttrReadings` | script.js:188-191 | temperatures come from the `_F` fields under imperial units and the `_C` fields under metric; wind is in mph under imperial, and km/h divided by 3.6 under metric; a missing or empty humidity reads as 0 as the code computes it; a non-numeric field reads as the placeholder |
| `Normalize.ReadingsIgnoreOtherUnit` | script.js:188-191 | the readings under one unit system depend only on that system's fields (and the humidity) |
| `Normalize.WttrCurrent` | script.js:178-206 | the place name follows the nearest-area rule; the first current-condition block gives the description, the readings and the icon; a missing or empty block gives the em-dash, no icon, a humidity of 0 and placeholders for every other reading |
| `Normalize.MissingConditionReadsAsEmpty` | script.js:179 | a missing block, an empty list and a list holding one empty object all show the same |
| `Normalize.OnlyFirstConditionCounts` | script.js:179 | blocks after the first do not change what is shown |
| `OwmForecast.OnlyZeroDiffers` | script.js:147 | the line-147 test differs from showing the temperature exactly when the temperature is 0 |
| `OwmForecast.ForecastTempAsWritten` | script.js:147 | as written, a temperature is shown exactly when it is present and not 0, and then unchanged |
| `OwmForecast.ZeroTemperatureHidden` | script.js:147 | as written, a forecast of 0 degrees shows the placeholder; the corrected cell shows 0 |
| `OwmForecast.OwmCell` | script.js:147 | corrected rule: the cell shows every present temperature, 0 included |
| `OwmForecast.OwmCellAsWritten` | script.js:143-148 | a cell shows the weekday of the sample's time; the small icon image exactly when the current conditions would show an icon for the same list; the first condition's text as its description, or the empty text; and the temperature, except that 0 is the placeholder |
| `OwmForecast.CellsAgreeExceptZero` | script.js:147 | the corrected and the as-written cell have the same weekday, icon and description, and are equal exactly when the temperature is not 0 |
| `OwmForecast.OwmForecastCells` | script.js:140-159 | a missing list gives no cells; the cells come one per kept sample, in order, built as the code builds them; the kept samples are what `PickDailyAtNoon` promises: at most 5, sorted, one per day, each its day's noon pick, no noon pick and no day left out unless 5 no later ones are shown, at least one cell for a non-empty list, strictly ascending whenever equal timestamps fall on the same day |
| `WttrForecast.FindNoon` | script.js:217 | `find` gives the first entry whose time is "1200", or nothing exactly when no entry has that time |
| `WttrForecast.FallbackIndex` | script.js:217 | the fallback index is `min(4, max(0, len - 1))`: 0 for an empty list, the last index for up to five entries, 4 otherwise |
| `WttrForecast.MidEntry` | script.js:216-217 | the representative entry is the first noon entry; without one, the fifth entry (or the last, when there are fewer than five); with no entries, the empty object |
| `WttrForecast.WttrCell` | script.js:211-219 | a cell shows the weekday when there is a date; `maxtempF` under imperial units and `maxtempC` under metric; the icon and description of the first entry whose time is "1200", else of entry 4 (or the last, when there are fewer than five), else none and the empty text |
| `WttrForecast.UnitsChangeOnlyTemperature` | script.js:215 | switching the unit system changes a cell's temperature and nothing else |
| `WttrForecast.WttrForecastCells` | script.js:208-211 | a missing list reads as empty; the cells are those of the first `days` entries (JavaScript `slice` semantics), in payload order, never more than `days` |
| `FirstLoad.SettledIgnoresEvents` | script.js:338-363 | once the latch has settled, no sequence of events changes anything |
| `FirstLoad.FirstEventWins` | script.js:338-363 | with geolocation available, exactly the first event acts (timer or geolocation error as the fallback search, success as loading at the position); the latch then stays settled with the timer gone |
| `FirstLoad.NoGeolocationSearchesDefault` | script.js:334-337 | without geolocation support, the default city is searched once and nothing else happens |
| `FirstLoad.AtMostOneEffect` | script.js:329-364 | every start-up sets off at most one effect |
| `FirstLoad.Startup.constructor` | script.js:334-345 | start-up runs the fallback at once without geolocation; otherwise it arms the timer and waits, unsettled |
| `FirstLoad.Startup.OnTimer` | script.js:339-344 | the timer callback acts only while unsettled: it settles the latch and starts the fallback search |
| `FirstLoad.Startup.OnGeoSuccess` | script.js:346-356 | the success callback is ignored once settled; otherwise it settles the latch, clears the timer and loads the weather at the position |
| `FirstLoad.Startup.OnGeoError` | script.js:357-363 | the error callback is ignored once settled; otherwise it settles the latch, clears the timer and starts the fallback search |
| `FirstLoad.Start` | script.js:334-345 | without geolocation support start-up is settled with one default search and no timer; with it, it is unsettled, the timer pending and nothing started |
| `FirstLoad.EffectOf` | script.js:330-363 | a geolocation success loads the weather at its position; the timer and a geolocation error both start the default search |
| `FirstLoad.Step` | script.js:338-363 | after any event the latch is settled; a settled latch is unchanged; an unsettled one stops the timer and starts exactly the event's effect |
| `FirstLoad.Run` | script.js:338-363 | after a sequence of events the latch is settled exactly when it was or some event arrived; effects are only appended, at most one and none once settled |

## Left out

- Everything that writes to the page is not modelled. This covers element
  lookups, `textContent` and `innerHTML` writes, the recent-city buttons
  (`renderRecent`), `setStatus` and the event wiring (script.js:7-23,
  33-36, 49-62, 316-327). With the page left out, only the data behind it
  is modelled.
- Network calls are left out: `fetchJSON`, the URL builders with
  `encodeURIComponent`, and provider errors (script.js:75-98, 161-176).
  The model keeps only the trimmed query they send (`Search.ValidateCity`).
- The async orchestration of `loadByCoords`, `handleSearch`, `handleGeo`
  and `handleUnitToggle` is left out, beyond the city guard
  (script.js:232-314). This includes which name is passed to `saveRecent`
  and the accepted race between overlapping searches; both are
  orchestration and concurrency.
- The unit setting is modelled as the dashboard's own comparisons read
  it: only the text "imperial" selects imperial units
  (`Settings.UnitsFromStore`). The structured provider's requests
  (script.js:86, 91, 96) send the raw stored text as `units=`, so any
  other stored text reaches that provider unchanged. What the provider
  does with it is a network behaviour and is not modelled.
- The JSON parsing and serialisation of the stored list are left out
  (script.js:40, 44). The store holds the decoded list.
- Locale and time-zone conversions (`toLocaleDateString`, `getHours`, date
  parsing) are left out, because they depend on the viewer's environment.
  They are inputs: the day key and hour carried by a sample, and the
  `weekdayOf` function. Because the day key is an input, the fact that
  samples with the same `dt` share a day is a hypothesis of the strict
  time-order clause (`NoonPick.DayFollowsDt`), not something the model
  derives.
- `Math.round`, `formatTemp` and `formatWind` are left out (script.js:64-73).
  They are floating-point display formatting. Readings are exact reals, so
  the km/h-to-m/s division is exact and IEEE rounding is not modelled.
- The structured provider's current readings (`main.temp`,
  `main.feels_like`, `main.humidity`, `wind.speed`, script.js:106-109) are
  left out. They are read directly, with no selection logic. A payload
  without `main` or `wind` throws there, and `handleSearch` catches it; that
  error path is orchestration.
- Only ASCII letters are folded by `toLowerCase` in the model. Full
  Unicode case mapping is a locale-independent table that is not
  reproduced. The recent-list properties depend only on case-insensitive
  equality being an equivalence.
- Real timers and geolocation are left out. `FirstLoad` takes the arrival
  order of events as its input. The 4-second fallback delay and the
  8-second geolocation timeout are not modelled, so the model does not
  derive that the geolocation timeout always arrives after the fallback;
  every arrival order is allowed.
- Payload fields the dashboard never reads (wind direction, pressure and
  the like) are not modelled.

## Findings

| source | as written | input that shows it | evidently intended | confidence | as-written member | corrected member |
|---|---|---|---|---|---|---|
| script.js:43 | the list is written only when the city is new or the rebuilt list changes length | stored ["Paris", "London"], save "London": nothing is written and "London" stays second | the searched city moves to the front (and takes the new casing) | medium, not executed | `RecentCities.ExistingCityNotPromoted` | `RecentCities.RecentStore.SaveRecentPromoting` |
| script.js:147 | `f.main && f.main.temp` is used as the condition, so 0 is falsy | a forecast sample whose temperature is exactly 0 shows "--" | every present temperature is shown, 0 included | high, not executed | `OwmForecast.ZeroTemperatureHidden` | `OwmForecast.OwmCell` |
| script.js:190 | a missing humidity becomes `null`, which `isFinite` accepts and `Math.round` makes 0 (line 195) | a current condition without `humidity` shows "Humidity: 0%" | a missing humidity shows the placeholder "--" | high, not executed | `Normalize.MissingHumidityShownAsZero` | `Normalize.Humidity` |
