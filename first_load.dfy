/** The start-up sequence `firstLoad`: a geolocation request races a
    four-second timer; a settle-once latch lets only the first of {timer,
    geolocation success, geolocation error} act, and the winner cancels the
    timer. Without geolocation support the default city is searched at
    once. */
module FirstLoad {
  datatype GeoErrorReason = PermissionDenied | PositionUnavailable | Timeout

  /** What can happen after start-up. */
  datatype Event = TimerFired | GeoSuccess(lat: real, lon: real) | GeoError(reason: GeoErrorReason)

  /** What start-up sets off: the fallback search for the default city
      (`handleSearch(DEFAULT_CITY)`) or loading the weather at a position. */
  datatype Effect = SearchDefault | LoadCoords(lat: real, lon: real)

  /** The latch: whether start-up has settled, whether the fallback timer is
      still pending, and the effects started so far. */
  datatype Latch = Latch(settled: bool, timerPending: bool, effects: seq<Effect>)

  /** The effect an event has when it is the first to arrive. */
  function EffectOf(e: Event): (f: Effect)
    ensures f == SearchDefault <==> !e.GeoSuccess?
    ensures e.GeoSuccess? ==> f == LoadCoords(e.lat, e.lon)
  {
    match e
    case TimerFired => SearchDefault
    case GeoSuccess(lat, lon) => LoadCoords(lat, lon)
    case GeoError(_) => SearchDefault
  }

  /** The state right after `firstLoad` ran. Without geolocation support no
      callback is registered, which the model expresses as already settled. */
  function Start(geoSupported: bool): (s: Latch)
    ensures s.settled <==> !geoSupported
    ensures s.timerPending <==> geoSupported
    ensures s.effects == if geoSupported then [] else [SearchDefault]
  {
    if geoSupported then Latch(false, true, []) else Latch(true, false, [SearchDefault])
  }

  /** One event: ignored once settled; otherwise it settles the latch,
      stops the timer (it either fired or is cleared) and starts its effect. */
  function Step(s: Latch, e: Event): (t: Latch)
    ensures t.settled
    ensures s.settled ==> t == s
    ensures !s.settled ==> !t.timerPending && t.effects == s.effects + [EffectOf(e)]
  {
    if s.settled then s else Latch(true, false, s.effects + [EffectOf(e)])
  }

  /** A sequence of events, in arrival order. */
  function Run(s: Latch, events: seq<Event>): (t: Latch)
    ensures t.settled <==> s.settled || events != []
    ensures s.effects <= t.effects
    ensures |t.effects| <= |s.effects| + (if s.settled then 0 else 1)
    decreases |events|
  {
    if events == [] then s else Run(Step(s, events[0]), events[1..])
  }

  /** Once settled, no event changes anything. */
  lemma {:induction false} SettledIgnoresEvents(s: Latch, events: seq<Event>)
    requires s.settled
    ensures Run(s, events) == s
  {
    if events != [] {
      SettledIgnoresEvents(Step(s, events[0]), events[1..]);
    }
  }

  /** With geolocation available, exactly the first event acts, whichever
      it is; once any event has arrived the latch is settled and the timer
      is no longer pending, so the fallback search starts at most once. */
  lemma FirstEventWins(events: seq<Event>)
    ensures var s := Run(Start(true), events);
      && s.effects == (if events == [] then [] else [EffectOf(events[0])])
      && (events != [] <==> s.settled)
      && (events != [] ==> !s.timerPending)
  {
    if events != [] {
      SettledIgnoresEvents(Step(Start(true), events[0]), events[1..]);
    }
  }

  /** Without geolocation the default city is searched once and nothing
      else happens. */
  lemma NoGeolocationSearchesDefault(events: seq<Event>)
    ensures Run(Start(false), events).effects == [SearchDefault]
  {
    SettledIgnoresEvents(Start(false), events);
  }

  /** In every run at most one effect is started. */
  lemma AtMostOneEffect(geoSupported: bool, events: seq<Event>)
    ensures |Run(Start(geoSupported), events).effects| <= 1
  {
    if geoSupported { FirstEventWins(events); } else { NoGeolocationSearchesDefault(events); }
  }

  /** The latch as the page holds it: the `settled` flag, the timer handle
      and the effects started. */
  class Startup {
    var settled: bool
    var timerPending: bool
    var effects: seq<Effect>

    function State(): Latch
      reads this
    {
      Latch(settled, timerPending, effects)
    }

    /** `firstLoad()` itself. */
    constructor (geoSupported: bool)
      ensures State() == Start(geoSupported)
    {
      if geoSupported {
        settled, timerPending, effects := false, true, [];
      } else {
        settled, timerPending, effects := true, false, [SearchDefault];
      }
    }

    /** The timer callback: `if (!settled) { settled = true; fallback(); }`. */
    method OnTimer()
      modifies this
      ensures State() == Step(old(State()), TimerFired)
    {
      if !settled {
        settled := true;
        timerPending := false;
        effects := effects + [SearchDefault];
      }
    }

    /** The geolocation success callback: ignored once settled; otherwise it
        settles, clears the timer and loads the weather at the position. */
    method OnGeoSuccess(lat: real, lon: real)
      modifies this
      ensures State() == Step(old(State()), GeoSuccess(lat, lon))
    {
      if settled {
        return;
      }
      settled := true;
      timerPending := false;
      effects := effects + [LoadCoords(lat, lon)];
    }

    /** The geolocation error callback: ignored once settled; otherwise it
        settles, clears the timer and falls back to the default city. */
    method OnGeoError(reason: GeoErrorReason)
      modifies this
      ensures State() == Step(old(State()), GeoError(reason))
    {
      if settled {
        return;
      }
      settled := true;
      timerPending := false;
      effects := effects + [SearchDefault];
    }
  }
}
