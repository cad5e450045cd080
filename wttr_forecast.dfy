/** `wttrUpdateForecast`: the aggregator's forecast is already one entry per
    day; the dashboard shows the first `days` of them in payload order and
    takes each day's icon and description from one representative hourly
    entry. */
module WttrForecast {
  import opened Wrappers
  import opened JsBuiltins
  import opened Settings
  import opened Normalize

  /** One entry of a day's `hourly` list. */
  datatype Hourly = Hourly(time: Option<string>, weatherIconUrl: Option<seq<string>>, weatherDesc: Option<seq<string>>)

  /** The empty object `{}` the pick falls back to. */
  const EmptyHourly: Hourly := Hourly(None, None, None)

  /** One entry of the payload's `weather` list. */
  datatype WttrDay = WttrDay(date: Option<string>, maxtempC: RawField, maxtempF: RawField, hourly: Option<seq<Hourly>>)

  /** The entry recorded at noon. */
  predicate IsNoonEntry(h: Hourly) {
    h.time == Some("1200")
  }

  /** `hourly.find(h => h.time === '1200')`, as an index: the first noon
      entry, or `None` when there is none. */
  function FindNoon(hourly: seq<Hourly>): (r: Option<nat>)
    ensures r.Some? ==> r.value < |hourly| && IsNoonEntry(hourly[r.value])
    ensures r.Some? ==> forall j :: 0 <= j < r.value ==> !IsNoonEntry(hourly[j])
    ensures r.None? <==> forall j :: 0 <= j < |hourly| ==> !IsNoonEntry(hourly[j])
  {
    if hourly == [] then None
    else if IsNoonEntry(hourly[0]) then Some(0)
    else match FindNoon(hourly[1..])
      case Some(i) => Some(i + 1)
      case None => None
  }

  /** `Math.min(4, Math.max(0, len - 1))`: the fifth entry, or the last one
      when there are fewer than five. */
  function FallbackIndex(len: nat): (i: nat)
    ensures i == if len == 0 then 0 else if len <= 5 then len - 1 else 4
    ensures len > 0 ==> i < len
    ensures i <= 4
  {
    var last := if len - 1 > 0 then len - 1 else 0;
    if 4 < last then 4 else last
  }

  /** The representative hourly entry of a day: the first one recorded at
      noon; without one, the fifth entry (or the last, when there are fewer
      than five); without any entry, the empty object. */
  function MidEntry(hourly: seq<Hourly>): (r: Hourly)
    ensures (exists i :: 0 <= i < |hourly| && IsNoonEntry(hourly[i])) ==>
              exists i :: 0 <= i < |hourly| && r == hourly[i] && IsNoonEntry(hourly[i])
                && forall j :: 0 <= j < i ==> !IsNoonEntry(hourly[j])
    ensures (forall i :: 0 <= i < |hourly| ==> !IsNoonEntry(hourly[i])) && |hourly| > 0 ==>
              r == hourly[if |hourly| < 5 then |hourly| - 1 else 4]
    ensures hourly == [] ==> r == EmptyHourly
  {
    match FindNoon(hourly)
    case Some(i) => hourly[i]
    case None => if hourly != [] then hourly[FallbackIndex(|hourly|)] else EmptyHourly
  }

  /** One forecast cell of the aggregator: the weekday of the date when there
      is one, the unit-keyed maximum temperature, and the icon and
      description of the day's representative hourly entry. */
  function WttrCell(day: WttrDay, u: Units, weekdayOf: string -> string): (c: ForecastCell)
    ensures c.weekday == if IsTruthy(day.date) then weekdayOf(day.date.value) else ""
    ensures u == Imperial ==> c.temperature == JsNumber(day.maxtempF)
    ensures u == Metric ==> c.temperature == JsNumber(day.maxtempC)
    ensures var hs := day.hourly.GetOr([]);
      forall i :: 0 <= i < |hs| && IsNoonEntry(hs[i]) && (forall j :: 0 <= j < i ==> !IsNoonEntry(hs[j])) ==>
        c.icon == WttrIcon(hs[i].weatherIconUrl) && c.description == FirstValueOr(hs[i].weatherDesc, "")
    ensures var hs := day.hourly.GetOr([]);
      (forall i :: 0 <= i < |hs| ==> !IsNoonEntry(hs[i])) && hs != [] ==>
        var k := if |hs| < 5 then |hs| - 1 else 4;
        c.icon == WttrIcon(hs[k].weatherIconUrl) && c.description == FirstValueOr(hs[k].weatherDesc, "")
    ensures day.hourly.None? || day.hourly.value == [] ==> c.icon == None && c.description == ""
  {
    var weekday := if IsTruthy(day.date) then weekdayOf(day.date.value) else "";
    var mid := MidEntry(day.hourly.GetOr([]));
    ForecastCell(weekday, WttrIcon(mid.weatherIconUrl), JsNumber(ByUnits(u, day.maxtempF, day.maxtempC)),
                 FirstValueOr(mid.weatherDesc, ""))
  }

  /** `wttrUpdateForecast(json, days)`: a missing list reads as empty; the
      cells are those of the first `days` entries (JavaScript `slice`
      semantics), in payload order, so never more than `days`. */
  function WttrForecastCells(weather: Option<seq<WttrDay>>, days: int, u: Units, weekdayOf: string -> string)
    : (cells: seq<ForecastCell>)
    ensures |cells| == SliceLength(|weather.GetOr([])|, days)
    ensures 0 <= days ==> |cells| <= days
    ensures forall i :: 0 <= i < |cells| ==> cells[i] == WttrCell(weather.GetOr([])[i], u, weekdayOf)
  {
    var shown := SliceTo(weather.GetOr([]), days);
    seq(|shown|, i requires 0 <= i < |shown| => WttrCell(shown[i], u, weekdayOf))
  }

  /** Switching the unit system changes a cell's temperature and nothing
      else. */
  lemma UnitsChangeOnlyTemperature(day: WttrDay, weekdayOf: string -> string)
    ensures WttrCell(day, Metric, weekdayOf).(temperature := None) == WttrCell(day, Imperial, weekdayOf).(temperature := None)
  {
  }
}
