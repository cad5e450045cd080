/** User preferences and configuration read at start-up: the unit system
    (stored under the key "units" and mirrored by the unit toggle) and
    the choice of weather provider, made once from the configured API key. */
module Settings {
  import opened Wrappers
  import opened JsBuiltins

  datatype Units = Metric | Imperial

  /** The text stored under "units" for each unit system. */
  function UnitsCode(u: Units): string {
    match u
    case Metric => "metric"
    case Imperial => "imperial"
  }

  /** The unit system at start-up: the stored text, or "metric" when nothing
      is stored; only the exact text "imperial" selects imperial units. */
  function UnitsFromStore(stored: Option<string>): (u: Units)
    ensures u == Imperial <==> stored == Some("imperial")
  {
    var text := if IsTruthy(stored) then stored.value else "metric";
    if text == "imperial" then Imperial else Metric
  }

  /** Writing a unit system and reading it back gives it again. */
  lemma StoredUnitsRoundTrip(u: Units)
    ensures UnitsFromStore(Some(UnitsCode(u))) == u
  {
  }

  /** The toggle is checked exactly when the units are imperial. */
  function ToggleChecked(u: Units): bool {
    u == Imperial
  }

  /** The unit system a change of the toggle selects. */
  function UnitsFromToggle(checked: bool): (u: Units)
    ensures ToggleChecked(u) == checked
  {
    if checked then Imperial else Metric
  }

  /** Toggling, storing and reloading gives back the toggled units, and the
      toggle shown at reload agrees with it. */
  lemma ToggleStoreReload(checked: bool)
    ensures UnitsFromStore(Some(UnitsCode(UnitsFromToggle(checked)))) == UnitsFromToggle(checked)
    ensures ToggleChecked(UnitsFromStore(Some(UnitsCode(UnitsFromToggle(checked))))) == checked
  {
    StoredUnitsRoundTrip(UnitsFromToggle(checked));
  }

  /** Reading a unit-keyed field: the imperial one under imperial units,
      the metric one otherwise. */
  function ByUnits<T>(u: Units, imperial: T, metric: T): (r: T)
    ensures u == Imperial ==> r == imperial
    ensures u == Metric ==> r == metric
  {
    if u == Imperial then imperial else metric
  }

  datatype Provider = Owm | Wttr

  /** The configured key, or the empty text when none is configured. */
  function ApiKey(configured: Option<string>): string {
    configured.GetOr("")
  }

  /** The structured provider is used exactly when a non-empty API key is
      configured; otherwise the aggregator, which needs no key. */
  function ChooseProvider(configured: Option<string>): (p: Provider)
    ensures p == Owm <==> IsTruthy(configured)
  {
    if ApiKey(configured) != "" then Owm else Wttr
  }
}
