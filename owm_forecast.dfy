/** `owmUpdateForecast`: the structured provider's forecast cells, built
    from the samples `pickDailyAtNoon` keeps. */
module OwmForecast {
  import opened Wrappers
  import opened JsBuiltins
  import opened Normalize
  import opened NoonPick

  /** A forecast sample's payload: its temperature (`f.main && f.main.temp`,
      `None` when either is missing) and its `weather` list. */
  datatype OwmForecastData = OwmForecastData(temp: Option<real>, weather: Option<seq<Condition>>)

  /** The temperature as script.js:147 tests it: `f.main.temp` is used as a
      condition, so a temperature of exactly 0 is shown as the placeholder. */
  function ForecastTempAsWritten(temp: Option<real>): (t: Option<real>)
    ensures t.Some? <==> temp.Some? && temp.value != 0.0
    ensures t.Some? ==> t == temp
  {
    if temp.Some? && temp.value != 0.0 then temp else None
  }

  /** One forecast cell as script.js:144-148 builds it: the weekday of the
      sample's time; the small icon image exactly when the current
      conditions would show an icon for the same list; the first
      condition's text as its description, or the empty text; and the
      temperature, except that 0 is shown as the placeholder. */
  function OwmCellAsWritten<K>(f: Sample<K, OwmForecastData>, weekdayOf: int -> string): (c: ForecastCell)
    ensures c.weekday == weekdayOf(f.dt)
    ensures c.temperature.Some? <==> f.data.temp.Some? && f.data.temp.value != 0.0
    ensures c.temperature.Some? ==> c.temperature == f.data.temp
    ensures c.icon.Some? <==> OwmCurrentIcon(f.data.weather).Some?
    ensures c.icon.Some? ==>
              f.data.weather.Some? && f.data.weather.value != [] && f.data.weather.value[0].icon.Some? &&
              c.icon.value == OwmIconUrl(f.data.weather.value[0].icon.value, false)
    ensures f.data.weather.Some? && f.data.weather.value != [] ==> c.description == OwmDescription(f.data.weather)
    ensures f.data.weather.None? || f.data.weather.value == [] ==> c.description == ""
  {
    var first := First(f.data.weather);
    var icon := if first.Some? && IsTruthy(first.value.icon) then Some(OwmIconUrl(first.value.icon.value, false)) else None;
    var desc := if first.Some? then first.value.description else "";
    ForecastCell(weekdayOf(f.dt), icon, ForecastTempAsWritten(f.data.temp), desc)
  }

  /** The corrected cell: every present temperature is shown, zero included. */
  function OwmCell<K>(f: Sample<K, OwmForecastData>, weekdayOf: int -> string): (c: ForecastCell)
    ensures c.temperature == f.data.temp
  {
    OwmCellAsWritten(f, weekdayOf).(temperature := f.data.temp)
  }

  /** The two cells agree on the weekday, the icon and the description, and
      they are equal exactly when the temperature is not 0. */
  lemma CellsAgreeExceptZero<K>(f: Sample<K, OwmForecastData>, weekdayOf: int -> string)
    ensures OwmCell(f, weekdayOf).weekday == OwmCellAsWritten(f, weekdayOf).weekday
    ensures OwmCell(f, weekdayOf).icon == OwmCellAsWritten(f, weekdayOf).icon
    ensures OwmCell(f, weekdayOf).description == OwmCellAsWritten(f, weekdayOf).description
    ensures OwmCell(f, weekdayOf) == OwmCellAsWritten(f, weekdayOf) <==> f.data.temp != Some(0.0)
  {
    OnlyZeroDiffers(f.data.temp);
  }

  /** As written, a forecast of exactly 0 degrees shows the placeholder;
      the corrected cell shows the temperature. */
  lemma ZeroTemperatureHidden<K>(f: Sample<K, OwmForecastData>, weekdayOf: int -> string)
    requires f.data.temp == Some(0.0)
    ensures OwmCellAsWritten(f, weekdayOf).temperature == None
    ensures OwmCell(f, weekdayOf).temperature == Some(0.0)
  {
  }

  /** The condition is the only difference: every other temperature is
      shown the same way by both. */
  lemma OnlyZeroDiffers(temp: Option<real>)
    ensures ForecastTempAsWritten(temp) != temp <==> temp == Some(0.0)
  {
  }

  /** `owmUpdateForecast(forecast)`: a missing list reads as empty; the
      samples `pickDailyAtNoon` keeps (`items`: at most five, in time order,
      one per day, each its day's noon pick, and no day's noon pick left
      out unless five no later samples are shown) each give one cell, as
      script.js:144-148 builds it, in order. */
  method OwmForecastCells<K(==,!new)>(list: Option<seq<Sample<K, OwmForecastData>>>, weekdayOf: int -> string)
    returns (items: seq<Sample<K, OwmForecastData>>, cells: seq<ForecastCell>)
    ensures |cells| == |items| <= ForecastDays
    ensures list.None? ==> cells == []
    ensures SortedByDt(items) && DistinctDays(items)
    ensures forall x :: x in items ==>
              exists idx :: 0 <= idx < |list.GetOr([])| && list.GetOr([])[idx] == x && IsNoonPick(list.GetOr([]), idx)
    ensures forall idx :: 0 <= idx < |list.GetOr([])| && IsNoonPick(list.GetOr([]), idx) ==>
              list.GetOr([])[idx] in items || (|items| == ForecastDays && forall x :: x in items ==> x.dt <= list.GetOr([])[idx].dt)
    ensures forall d :: d in Days(list.GetOr([])) ==> (exists x :: x in items && x.dayKey == d) || |items| == ForecastDays
    ensures list.Some? && list.value != [] ==> items != [] && cells != []
    ensures DayFollowsDt(list.GetOr([])) ==> forall a, b :: 0 <= a < b < |items| ==> items[a].dt < items[b].dt
    ensures forall i :: 0 <= i < |cells| ==> cells[i] == OwmCellAsWritten(items[i], weekdayOf)
  {
    var samples := list.GetOr([]);
    items := PickDailyAtNoon(samples);
    assert samples == [] ==> items == [] by {
      if items != [] {
        assert items[0] in items;
      }
    }
    cells := seq(|items|, i requires 0 <= i < |items| => OwmCellAsWritten(items[i], weekdayOf));
  }
}
