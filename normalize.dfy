/** Mapping each provider's current-conditions payload to what the
    dashboard shows: the place name, the description, the icon and, for the
    aggregator, the unit-keyed readings. Missing nested structures degrade
    to defaults and never fail. */
module Normalize {
  import opened Wrappers
  import opened JsBuiltins
  import opened Settings

  /** The placeholder shown for a missing place name or description. */
  const EmDash: string := "—"

  const OwmIconBase: string := "https://openweathermap.org/img/wn/"

  /** `xs && xs[0]`: the first element of a list that may be missing. */
  function First<T>(xs: Option<seq<T>>): (r: Option<T>)
    ensures r.Some? <==> xs.Some? && |xs.value| > 0
    ensures r.Some? ==> r.value == xs.value[0]
  {
    if xs.Some? && |xs.value| > 0 then Some(xs.value[0]) else None
  }

  /** `xs && xs[0] ? xs[0].value : default`, for the aggregator's lists of
      `{value}` objects (each element stands for its `value` text). */
  function FirstValueOr(xs: Option<seq<string>>, default: string): (r: string)
    ensures xs.Some? && xs.value != [] ==> r == xs.value[0]
    ensures xs.None? || xs.value == [] ==> r == default
  {
    First(xs).GetOr(default)
  }

  /** An element of the structured provider's `weather` list. */
  datatype Condition = Condition(description: string, icon: Option<string>)

  /** The structured provider's `sys` block. */
  datatype OwmSys = OwmSys(country: Option<string>)

  /** The icon image address: the large form for the current conditions,
      the small one for forecast cells. */
  function OwmIconUrl(code: string, large: bool): (url: string)
    ensures |url| == |OwmIconBase| + |code| + (if large then 7 else 4)
    ensures url[..|OwmIconBase|] == OwmIconBase
    ensures url[|OwmIconBase|..|OwmIconBase| + |code|] == code
    ensures url[|OwmIconBase| + |code|..] == if large then "@2x.png" else ".png"
  {
    OwmIconBase + code + (if large then "@2x.png" else ".png")
  }

  /** `[name, sys && sys.country].filter(Boolean).join(', ')`: no em-dash
      fallback here, so both parts missing give the empty text. */
  function OwmPlaceName(name: Option<string>, sys: Option<OwmSys>): (p: string)
    ensures p == "" <==> !IsTruthy(name) && (sys.None? || !IsTruthy(sys.value.country))
  {
    var country := if sys.Some? then sys.value.country else None;
    JoinTruthyEmptyIff([name, country], ", ");
    Join(FilterTruthy([name, country]), ", ")
  }

  /** The structured provider's place name, case by case. */
  lemma OwmPlaceNameCases(name: Option<string>, country: Option<string>)
    ensures OwmPlaceName(name, Some(OwmSys(country))) ==
      if IsTruthy(name) && IsTruthy(country) then name.value + ", " + country.value
      else if IsTruthy(name) then name.value
      else if IsTruthy(country) then country.value
      else ""
    ensures OwmPlaceName(name, None) == if IsTruthy(name) then name.value else ""
  {
    JoinTwoTruthy(name, country, ", ");
    JoinTwoTruthy(name, None, ", ");
  }

  /** The nearest area of the aggregator's payload. */
  datatype Area = Area(areaName: Option<seq<string>>, country: Option<seq<string>>)

  /** The aggregator's place name: area name and country joined, else the
      area name alone, else the em-dash. With `a` the first area name and
      `c` the first country of the first nearest area (each the empty text
      when missing), the em-dash is used exactly when both are empty, and
      otherwise the name is the structured provider's join of the two. The
      fallback to the area name alone never applies: a non-empty area name
      is already in the join. */
  function WttrPlaceName(nearestArea: Option<seq<Area>>): (p: string)
    ensures var area := First(nearestArea).GetOr(Area(None, None));
      var a := FirstValueOr(area.areaName, "");
      var c := FirstValueOr(area.country, "");
      && (a == "" && c == "" ==> p == EmDash)
      && (a != "" || c != "" ==> p == OwmPlaceName(Some(a), Some(OwmSys(Some(c)))))
    ensures p != ""
  {
    var area := First(nearestArea).GetOr(Area(None, None));
    var areaName := FirstValueOr(area.areaName, "");
    var country := FirstValueOr(area.country, "");
    JoinTruthyEmptyIff([Some(areaName), Some(country)], ", ");
    assert !IsTruthy(Some(areaName)) <==> areaName == "";
    assert !IsTruthy(Some(country)) <==> country == "";
    var joined := Join(FilterTruthy([Some(areaName), Some(country)]), ", ");
    if joined != "" then joined else if areaName != "" then areaName else EmDash
  }

  /** An area with one of its two fields missing shows the other one, or
      the em-dash when that one is empty as well. */
  lemma WttrPlaceNameMissingField(text: string)
    ensures WttrPlaceName(Some([Area(None, Some([text]))])) == if text == "" then EmDash else text
    ensures WttrPlaceName(Some([Area(Some([text]), None)])) == if text == "" then EmDash else text
    ensures WttrPlaceName(Some([Area(Some([]), Some([text]))])) == if text == "" then EmDash else text
  {
    JoinTwoTruthy(Some(""), Some(text), ", ");
    JoinTwoTruthy(Some(text), Some(""), ", ");
  }

  /** A payload without a nearest area shows the em-dash. */
  lemma WttrPlaceNameMissingArea()
    ensures WttrPlaceName(None) == EmDash && WttrPlaceName(Some([])) == EmDash
  {
  }

  /** `weather && weather[0] ? weather[0].description : '—'`. */
  function OwmDescription(weather: Option<seq<Condition>>): (d: string)
    ensures weather.None? || weather.value == [] ==> d == EmDash
    ensures weather.Some? && weather.value != [] ==> d == weather.value[0].description
  {
    match First(weather)
    case Some(c) => c.description
    case None => EmDash
  }

  /** `cur.weatherDesc && cur.weatherDesc[0] ? cur.weatherDesc[0].value : '—'`. */
  function WttrDescription(weatherDesc: Option<seq<string>>): (d: string)
    ensures weatherDesc.None? || weatherDesc.value == [] ==> d == EmDash
    ensures weatherDesc.Some? && weatherDesc.value != [] ==> d == weatherDesc.value[0]
  {
    FirstValueOr(weatherDesc, EmDash)
  }

  /** Both providers default the description the same way: given the same
      condition texts, they show the same description. */
  lemma DescriptionsAgree(texts: Option<seq<string>>)
    ensures var conditions := if texts.Some?
              then Some(seq(|texts.value|, i requires 0 <= i < |texts.value| => Condition(texts.value[i], None)))
              else None;
      OwmDescription(conditions) == WttrDescription(texts)
  {
  }

  /** The current-conditions icon of the structured provider: shown, as the
      large image of the first condition's code, exactly when that code is
      non-empty; hidden otherwise. */
  function OwmCurrentIcon(weather: Option<seq<Condition>>): (icon: Option<string>)
    ensures icon.Some? <==> weather.Some? && weather.value != [] && IsTruthy(weather.value[0].icon)
    ensures icon.Some? ==> icon.value == OwmIconUrl(weather.value[0].icon.value, true)
  {
    match First(weather)
    case Some(c) => if IsTruthy(c.icon) then Some(OwmIconUrl(c.icon.value, true)) else None
    case None => None
  }

  /** The aggregator gives the icon as a full address; an empty or missing
      one hides the icon. */
  function WttrIcon(weatherIconUrl: Option<seq<string>>): (icon: Option<string>)
    ensures icon.Some? <==> weatherIconUrl.Some? && weatherIconUrl.value != [] && weatherIconUrl.value[0] != ""
    ensures icon.Some? ==> icon.value == weatherIconUrl.value[0]
  {
    var url := FirstValueOr(weatherIconUrl, "");
    if url != "" then Some(url) else None
  }

  /** The aggregator's current-condition block; every reading is text. */
  datatype WttrCondition = WttrCondition(
    tempC: RawField, tempF: RawField,
    feelsLikeC: RawField, feelsLikeF: RawField,
    humidity: RawField,
    windspeedKmph: RawField, windspeedMiles: RawField,
    weatherDesc: Option<seq<string>>,
    weatherIconUrl: Option<seq<string>>)

  /** The readings shown for the current conditions; `None` is shown as a
      placeholder ("--"). Temperatures are in the active unit system, wind
      in miles per hour (imperial) or metres per second (metric). */
  datatype Readings = Readings(
    temperature: Option<real>, feelsLike: Option<real>,
    humidity: Option<real>, windSpeed: Option<real>)

  /** Humidity as script.js:190 and 195 compute it: a missing or empty
      field becomes `null`, which `isFinite` accepts and `Math.round`
      turns into 0, so it is shown as "0%". */
  function HumidityAsWritten(f: RawField): (h: Option<real>)
    ensures h.None? <==> f.NonNumeric?
    ensures f.Numeric? ==> h == Some(f.v)
    ensures !IsTruthyField(f) ==> h == Some(0.0)
  {
    if IsTruthyField(f) then JsNumber(f) else Some(0.0)
  }

  /** Humidity as intended: a missing field is shown as the placeholder. */
  function Humidity(f: RawField): (h: Option<real>)
    ensures h.Some? <==> f.Numeric?
    ensures f.Numeric? ==> h == Some(f.v)
  {
    if IsTruthyField(f) then JsNumber(f) else None
  }

  /** A missing humidity reads as zero per cent as written, also when the
      whole current-condition block is missing, and as the placeholder once
      corrected; present values are read alike. */
  lemma MissingHumidityShownAsZero(nearestArea: Option<seq<Area>>, u: Units)
    ensures HumidityAsWritten(Undefined) == Some(0.0)
    ensures WttrCurrent(None, nearestArea, u).readings.humidity == Some(0.0)
    ensures Humidity(Undefined) == None
    ensures forall f :: IsTruthyField(f) ==> HumidityAsWritten(f) == Humidity(f)
  {
  }

  /** Metres per second from kilometres per hour. */
  function KmphToMps(kmph: real): real {
    kmph / 3.6
  }

  /** Reads the current conditions as script.js:188-191 do, in the active
      unit system: the `_F` fields and miles per hour under imperial units,
      the `_C` fields and kilometres per hour (converted) under metric
      units. A missing or empty humidity reads as 0. */
  function WttrReadings(cur: WttrCondition, u: Units): (r: Readings)
    ensures u == Imperial ==> r.temperature == JsNumber(cur.tempF) && r.feelsLike == JsNumber(cur.feelsLikeF)
    ensures u == Metric ==> r.temperature == JsNumber(cur.tempC) && r.feelsLike == JsNumber(cur.feelsLikeC)
    ensures !IsTruthyField(cur.humidity) ==> r.humidity == Some(0.0)
    ensures cur.humidity.Numeric? ==> r.humidity == Some(cur.humidity.v)
    ensures cur.humidity.NonNumeric? ==> r.humidity == None
    ensures u == Imperial ==> r.windSpeed == JsNumber(cur.windspeedMiles)
    ensures u == Metric ==> (r.windSpeed.Some? <==> JsNumber(cur.windspeedKmph).Some?)
    ensures u == Metric && r.windSpeed.Some? ==> r.windSpeed.value * 3.6 == JsNumber(cur.windspeedKmph).value
  {
    var wind := if u == Imperial then JsNumber(cur.windspeedMiles)
                else match JsNumber(cur.windspeedKmph)
                     case Some(k) => Some(KmphToMps(k))
                     case None => None;
    Readings(
      JsNumber(ByUnits(u, cur.tempF, cur.tempC)),
      JsNumber(ByUnits(u, cur.feelsLikeF, cur.feelsLikeC)),
      HumidityAsWritten(cur.humidity),
      wind)
  }

  /** The readings under one unit system do not depend on the fields of the
      other: two payloads that agree on the active system's fields (and the
      humidity) give the same readings. */
  lemma ReadingsIgnoreOtherUnit(a: WttrCondition, b: WttrCondition, u: Units)
    requires a.humidity == b.humidity
    requires u == Imperial ==> a.tempF == b.tempF && a.feelsLikeF == b.feelsLikeF && a.windspeedMiles == b.windspeedMiles
    requires u == Metric ==> a.tempC == b.tempC && a.feelsLikeC == b.feelsLikeC && a.windspeedKmph == b.windspeedKmph
    ensures WttrReadings(a, u) == WttrReadings(b, u)
  {
  }

  /** What the dashboard shows for the aggregator's current conditions. */
  datatype CurrentView = CurrentView(placeName: string, description: string, readings: Readings, icon: Option<string>)

  /** The empty object `{}` a missing current-condition block reads as. */
  const EmptyCondition: WttrCondition :=
    WttrCondition(Undefined, Undefined, Undefined, Undefined, Undefined, Undefined, Undefined, None, None)

  /** `wttrUpdateCurrent`: the first current-condition block gives the
      description, the readings and the icon; a missing block reads as an
      empty one, so the description is the em-dash, the icon is hidden,
      the humidity reads as 0 and every other reading is the placeholder. */
  function WttrCurrent(current: Option<seq<WttrCondition>>, nearestArea: Option<seq<Area>>, u: Units): (v: CurrentView)
    ensures v.placeName == WttrPlaceName(nearestArea)
    ensures current.None? || current.value == [] ==>
              v.description == EmDash && v.icon == None && v.readings == Readings(None, None, Some(0.0), None)
    ensures current.Some? && current.value != [] ==>
              && v.description == WttrDescription(current.value[0].weatherDesc)
              && v.readings == WttrReadings(current.value[0], u)
              && v.icon == WttrIcon(current.value[0].weatherIconUrl)
  {
    var cur := First(current).GetOr(EmptyCondition);
    CurrentView(WttrPlaceName(nearestArea), WttrDescription(cur.weatherDesc), WttrReadings(cur, u), WttrIcon(cur.weatherIconUrl))
  }

  /** A missing block, an empty list and a list holding one empty object
      all show the same. */
  lemma MissingConditionReadsAsEmpty(nearestArea: Option<seq<Area>>, u: Units)
    ensures WttrCurrent(None, nearestArea, u) == WttrCurrent(Some([]), nearestArea, u)
    ensures WttrCurrent(None, nearestArea, u) == WttrCurrent(Some([EmptyCondition]), nearestArea, u)
  {
  }

  /** Only the first current-condition block is read. */
  lemma OnlyFirstConditionCounts(c: WttrCondition, rest: seq<WttrCondition>, nearestArea: Option<seq<Area>>, u: Units)
    ensures WttrCurrent(Some([c] + rest), nearestArea, u) == WttrCurrent(Some([c]), nearestArea, u)
  {
  }

  /** One forecast cell: the weekday, the icon (hidden when `None`), the
      temperature (the placeholder when `None`) and the icon's alternative
      text. */
  datatype ForecastCell = ForecastCell(weekday: string, icon: Option<string>, temperature: Option<real>, description: string)
}
