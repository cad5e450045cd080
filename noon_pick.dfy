/** `pickDailyAtNoon`: the structured provider's forecast is a list of
    3-hourly samples; the dashboard keeps, per calendar day, the sample
    closest to noon, and shows the first five days in time order. */
module NoonPick {
  import opened JsBuiltins

  /** The number of forecast days shown. */
  const ForecastDays: nat := 5

  /** A local hour of the day, as `getHours` returns it. */
  type Hour = h: int | 0 <= h < 24

  /** One forecast sample: its timestamp `dt`, the local calendar day and
      hour it falls on (both functions of `dt` under the viewer's locale and
      time zone, supplied with the sample), and the rest of its payload. */
  datatype Sample<K, P> = Sample(dt: int, dayKey: K, hour: Hour, data: P)

  /** What the per-day map holds: the sample and its distance from noon. */
  datatype Kept<K, P> = Kept(score: nat, item: Sample<K, P>)

  /** `Math.abs(hour - 12)`. */
  function NoonDistance(h: Hour): (d: nat)
    ensures d == h - 12 || d == 12 - h
    ensures d <= 12
    ensures d == 0 <==> h == 12
  {
    if h >= 12 then h - 12 else 12 - h
  }

  /** Among the first `n` samples, `list[idx]` is the one kept for its day:
      no sample of that day is closer to noon, and every earlier sample of
      that day is strictly farther (a tie keeps the first one seen). */
  ghost predicate IsNoonPickUpTo<K, P>(list: seq<Sample<K, P>>, n: nat, idx: nat)
    requires n <= |list|
  {
    && idx < n
    && forall j :: 0 <= j < n && list[j].dayKey == list[idx].dayKey ==>
         && NoonDistance(list[idx].hour) <= NoonDistance(list[j].hour)
         && (j < idx ==> NoonDistance(list[idx].hour) < NoonDistance(list[j].hour))
  }

  ghost predicate IsNoonPick<K, P>(list: seq<Sample<K, P>>, idx: nat) {
    IsNoonPickUpTo(list, |list|, idx)
  }

  /** Every day of the first `n` samples has a noon pick among them. */
  lemma {:induction false} NoonPickExistsUpTo<K, P>(list: seq<Sample<K, P>>, n: nat, j: nat)
    requires j < n <= |list|
    ensures exists idx: nat :: idx < n && IsNoonPickUpTo(list, n, idx) && list[idx].dayKey == list[j].dayKey
    decreases n
  {
    var m := n - 1;
    var d := list[j].dayKey;
    if exists q :: 0 <= q < m && list[q].dayKey == d {
      var q :| 0 <= q < m && list[q].dayKey == d;
      NoonPickExistsUpTo(list, m, q);
      var p: nat :| p < m && IsNoonPickUpTo(list, m, p) && list[p].dayKey == d;
      if list[m].dayKey == d && NoonDistance(list[m].hour) < NoonDistance(list[p].hour) {
        assert IsNoonPickUpTo(list, n, m);
      } else {
        assert IsNoonPickUpTo(list, n, p);
      }
    } else {
      assert IsNoonPickUpTo(list, n, m);
    }
  }

  /** Every day of the input has a noon pick. */
  lemma NoonPickExists<K, P>(list: seq<Sample<K, P>>, j: nat)
    requires j < |list|
    ensures exists idx :: 0 <= idx < |list| && IsNoonPick(list, idx) && list[idx].dayKey == list[j].dayKey
  {
    NoonPickExistsUpTo(list, |list|, j);
  }

  /** Each day has at most one noon pick. */
  lemma NoonPickUnique<K, P>(list: seq<Sample<K, P>>, a: nat, b: nat)
    requires IsNoonPick(list, a) && IsNoonPick(list, b)
    requires list[a].dayKey == list[b].dayKey
    ensures a == b
  {
  }

  ghost predicate SortedByDt<K, P>(s: seq<Sample<K, P>>) {
    forall a, b :: 0 <= a < b < |s| ==> s[a].dt <= s[b].dt
  }

  ghost predicate DistinctDays<K, P>(s: seq<Sample<K, P>>) {
    forall a, b :: 0 <= a < b < |s| ==> s[a].dayKey != s[b].dayKey
  }

  ghost predicate DistinctDts<K, P>(s: seq<Sample<K, P>>) {
    forall a, b :: 0 <= a < b < |s| ==> s[a].dt != s[b].dt
  }

  /** The days the samples fall on. */
  ghost function Days<K, P>(s: seq<Sample<K, P>>): (days: set<K>)
    ensures forall j :: 0 <= j < |s| ==> s[j].dayKey in days
  {
    set j | 0 <= j < |s| :: s[j].dayKey
  }

  /** Samples with the same time fall on the same day, as they do when the
      day key is computed from `dt` (script.js:125-126). */
  ghost predicate DayFollowsDt<K, P>(s: seq<Sample<K, P>>) {
    forall a, b :: 0 <= a < |s| && 0 <= b < |s| && s[a].dt == s[b].dt ==> s[a].dayKey == s[b].dayKey
  }

  /** Distinct timestamps are a special case: no two samples share a time. */
  lemma DistinctDtsDayFollowsDt<K, P>(s: seq<Sample<K, P>>)
    requires DistinctDts(s)
    ensures DayFollowsDt(s)
  {
  }

  /** Inserts `x` before the first sample that is not earlier than it. */
  function InsertByDt<K, P>(x: Sample<K, P>, s: seq<Sample<K, P>>): (r: seq<Sample<K, P>>)
    ensures |r| == |s| + 1
    ensures multiset(r) == multiset(s) + multiset{x}
  {
    if s == [] || x.dt <= s[0].dt then [x] + s
    else
      assert s == [s[0]] + s[1..];
      [s[0]] + InsertByDt(x, s[1..])
  }

  /** Inserting into a sorted list keeps it sorted. */
  lemma {:induction false} InsertByDtSorted<K, P>(x: Sample<K, P>, s: seq<Sample<K, P>>)
    requires SortedByDt(s)
    ensures SortedByDt(InsertByDt(x, s))
  {
    var r := InsertByDt(x, s);
    if s == [] || x.dt <= s[0].dt {
      forall a, b | 0 <= a < b < |r| ensures r[a].dt <= r[b].dt {
        assert r[b] == s[b - 1];
        if a > 0 { assert r[a] == s[a - 1]; } else { assert s[0].dt <= s[b - 1].dt; }
      }
    } else {
      var rest := InsertByDt(x, s[1..]);
      InsertByDtSorted(x, s[1..]);
      assert r == [s[0]] + rest;
      forall i | 0 <= i < |rest| ensures s[0].dt <= rest[i].dt {
        assert rest[i] in multiset(s[1..]) + multiset{x};
        if rest[i] != x {
          assert rest[i] in s[1..];
        }
      }
      forall a, b | 0 <= a < b < |r| ensures r[a].dt <= r[b].dt {
        assert r[b] == rest[b - 1];
        if a > 0 { assert r[a] == rest[a - 1]; }
      }
    }
  }

  /** Inserting a sample of a new day keeps the days distinct. */
  lemma {:induction false} InsertByDtDistinctDays<K, P>(x: Sample<K, P>, s: seq<Sample<K, P>>)
    requires DistinctDays(s)
    requires forall i :: 0 <= i < |s| ==> s[i].dayKey != x.dayKey
    ensures DistinctDays(InsertByDt(x, s))
  {
    if s != [] && x.dt > s[0].dt {
      var rest := InsertByDt(x, s[1..]);
      InsertByDtDistinctDays(x, s[1..]);
      forall i | 0 <= i < |rest| ensures rest[i].dayKey != s[0].dayKey {
        assert rest[i] in multiset(s[1..]) + multiset{x};
        if rest[i] != x {
          assert rest[i] in s[1..];
        }
      }
    }
  }

  /** The stable sort `sort((a, b) => a.dt - b.dt)`: the same samples,
      ordered by `dt`. */
  function SortByDt<K, P>(s: seq<Sample<K, P>>): (r: seq<Sample<K, P>>)
    ensures |r| == |s|
    ensures multiset(r) == multiset(s)
    ensures SortedByDt(r)
  {
    if s == [] then []
    else
      var rest := SortByDt(s[1..]);
      assert s == [s[0]] + s[1..];
      InsertByDtSorted(s[0], rest);
      InsertByDt(s[0], rest)
  }

  /** Sorting keeps the days distinct. */
  lemma {:induction false} SortByDtDistinctDays<K, P>(s: seq<Sample<K, P>>)
    requires DistinctDays(s)
    ensures DistinctDays(SortByDt(s))
  {
    if s != [] {
      var rest := SortByDt(s[1..]);
      SortByDtDistinctDays(s[1..]);
      forall i | 0 <= i < |rest| ensures rest[i].dayKey != s[0].dayKey {
        assert rest[i] in multiset(s[1..]);
        var j :| 0 <= j < |s[1..]| && s[1..][j] == rest[i];
        assert s[j + 1] == rest[i];
      }
      InsertByDtDistinctDays(s[0], rest);
    }
  }

  /** The state of the per-day map after the first `n` samples: `keys`
      lists the days in the order they were first seen (the map's insertion
      order), `byDay` holds each day's kept sample with its distance from
      noon, and the ghost map `at` gives that sample's position, which is
      the day's noon pick so far. */
  ghost predicate KeptSoFar<K(!new), P>(list: seq<Sample<K, P>>, n: nat, keys: seq<K>,
                                  byDay: map<K, Kept<K, P>>, at: map<K, nat>)
    requires n <= |list|
  {
    && (forall k :: k in byDay <==> k in keys)
    && (forall a, b :: 0 <= a < b < |keys| ==> keys[a] != keys[b])
    && at.Keys == byDay.Keys
    && (forall k :: k in byDay ==>
          && at[k] < n && list[at[k]] == byDay[k].item && byDay[k].item.dayKey == k
          && byDay[k].score == NoonDistance(byDay[k].item.hour)
          && IsNoonPickUpTo(list, n, at[k]))
    && (forall j :: 0 <= j < n ==> list[j].dayKey in byDay)
  }

  /** A sample strictly closer to noon than its day's kept one, or of a new
      day, becomes the day's kept sample. */
  lemma KeepReplace<K(!new), P>(list: seq<Sample<K, P>>, n: nat, keys: seq<K>,
                          byDay: map<K, Kept<K, P>>, at: map<K, nat>)
    requires n < |list| && KeptSoFar(list, n, keys, byDay, at)
    requires var k := list[n].dayKey;
      k !in byDay || NoonDistance(list[n].hour) < byDay[k].score
    ensures var k := list[n].dayKey;
      KeptSoFar(list, n + 1, if k in byDay then keys else keys + [k],
                byDay[k := Kept(NoonDistance(list[n].hour), list[n])], at[k := n])
  {
    var k := list[n].dayKey;
    var keys' := if k in byDay then keys else keys + [k];
    var byDay' := byDay[k := Kept(NoonDistance(list[n].hour), list[n])];
    var at' := at[k := n];
    forall k' | k' in byDay' ensures IsNoonPickUpTo(list, n + 1, at'[k']) {
      if k' == k {
        forall j | 0 <= j < n + 1 && list[j].dayKey == k
          ensures NoonDistance(list[n].hour) <= NoonDistance(list[j].hour)
          ensures j < n ==> NoonDistance(list[n].hour) < NoonDistance(list[j].hour)
        {
          if j < n {
            assert IsNoonPickUpTo(list, n, at[k]);
          }
        }
      } else {
        assert IsNoonPickUpTo(list, n, at[k']);
      }
    }
  }

  /** A sample no closer to noon than its day's kept one changes nothing. */
  lemma KeepSkip<K(!new), P>(list: seq<Sample<K, P>>, n: nat, keys: seq<K>,
                       byDay: map<K, Kept<K, P>>, at: map<K, nat>)
    requires n < |list| && KeptSoFar(list, n, keys, byDay, at)
    requires var k := list[n].dayKey;
      k in byDay && NoonDistance(list[n].hour) >= byDay[k].score
    ensures KeptSoFar(list, n + 1, keys, byDay, at)
  {
    forall k' | k' in byDay ensures IsNoonPickUpTo(list, n + 1, at[k']) {
      assert IsNoonPickUpTo(list, n, at[k']);
    }
  }

  /** The kept samples, in the map's order: one per day, each its day's
      noon pick, and every day's noon pick among them. */
  lemma KeptSamples<K(!new), P>(list: seq<Sample<K, P>>, keys: seq<K>, byDay: map<K, Kept<K, P>>,
                          at: map<K, nat>, kept: seq<Sample<K, P>>)
    requires KeptSoFar(list, |list|, keys, byDay, at)
    requires |kept| == |keys|
    requires forall j :: 0 <= j < |keys| ==> keys[j] in byDay && kept[j] == byDay[keys[j]].item
    ensures DistinctDays(kept)
    ensures forall x :: x in kept ==> exists idx :: 0 <= idx < |list| && list[idx] == x && IsNoonPick(list, idx)
    ensures forall idx :: 0 <= idx < |list| && IsNoonPick(list, idx) ==> list[idx] in kept
  {
    forall x | x in kept
      ensures exists idx :: 0 <= idx < |list| && list[idx] == x && IsNoonPick(list, idx)
    {
      var j :| 0 <= j < |keys| && kept[j] == x;
      var idx := at[keys[j]];
      assert list[idx] == x && IsNoonPick(list, idx);
    }
    forall idx | 0 <= idx < |list| && IsNoonPick(list, idx) ensures list[idx] in kept {
      var k := list[idx].dayKey;
      NoonPickUnique(list, idx, at[k]);
      var j :| 0 <= j < |keys| && keys[j] == k;
      assert kept[j] == list[idx];
    }
  }

  /** A noon pick among the kept samples either survives the cut to five,
      or five samples no later than it are shown. */
  lemma ShownOrLater<K, P>(kept: seq<Sample<K, P>>, x: Sample<K, P>)
    requires x in kept
    ensures var r := SliceTo(SortByDt(kept), ForecastDays);
      x in r || (|r| == ForecastDays && forall y :: y in r ==> y.dt <= x.dt)
  {
    var sorted := SortByDt(kept);
    var r := SliceTo(sorted, ForecastDays);
    assert x in multiset(sorted);
    var p :| 0 <= p < |sorted| && sorted[p] == x;
    if p < |r| {
      assert r[p] == x;
    } else {
      forall y | y in r ensures y.dt <= x.dt {
        var q :| 0 <= q < |r| && r[q] == y;
        assert sorted[q] == y;
      }
    }
  }

  /** Samples of distinct days taken from a list in which equal times fall
      on the same day, once sorted, are strictly ascending. */
  lemma StrictlyAscending<K, P>(list: seq<Sample<K, P>>, r: seq<Sample<K, P>>)
    requires DayFollowsDt(list) && SortedByDt(r) && DistinctDays(r)
    requires forall x :: x in r ==> x in list
    ensures forall a, b :: 0 <= a < b < |r| ==> r[a].dt < r[b].dt
  {
    forall a, b | 0 <= a < b < |r| ensures r[a].dt < r[b].dt {
      assert r[a] in list && r[b] in list;
      var pa :| 0 <= pa < |list| && list[pa] == r[a];
      var pb :| 0 <= pb < |list| && list[pb] == r[b];
      assert r[a].dayKey != r[b].dayKey;
    }
  }

  /** Sorting the kept samples and keeping the first five gives what
      `PickDailyAtNoon` promises. */
  lemma ShownSamples<K, P>(list: seq<Sample<K, P>>, kept: seq<Sample<K, P>>)
    requires DistinctDays(kept)
    requires forall x :: x in kept ==> exists idx :: 0 <= idx < |list| && list[idx] == x && IsNoonPick(list, idx)
    requires forall idx :: 0 <= idx < |list| && IsNoonPick(list, idx) ==> list[idx] in kept
    ensures var r := SliceTo(SortByDt(kept), ForecastDays);
      && SortedByDt(r)
      && DistinctDays(r)
      && (forall x :: x in r ==> exists idx :: 0 <= idx < |list| && list[idx] == x && IsNoonPick(list, idx))
      && (forall idx :: 0 <= idx < |list| && IsNoonPick(list, idx) ==>
            list[idx] in r || (|r| == ForecastDays && forall x :: x in r ==> x.dt <= list[idx].dt))
      && (DayFollowsDt(list) ==> forall a, b :: 0 <= a < b < |r| ==> r[a].dt < r[b].dt)
  {
    var sorted := SortByDt(kept);
    SortByDtDistinctDays(kept);
    var r := SliceTo(sorted, ForecastDays);
    forall x | x in r
      ensures x in kept
      ensures x in list
      ensures exists idx :: 0 <= idx < |list| && list[idx] == x && IsNoonPick(list, idx)
    {
      var q :| 0 <= q < |r| && r[q] == x;
      assert sorted[q] == x;
      assert x in multiset(sorted);
      assert x in kept;
      var idx :| 0 <= idx < |list| && list[idx] == x && IsNoonPick(list, idx);
    }
    assert DistinctDays(r) by {
      forall a, b | 0 <= a < b < |r| ensures r[a].dayKey != r[b].dayKey {
        assert r[a] == sorted[a] && r[b] == sorted[b];
      }
    }
    assert SortedByDt(r) by {
      forall a, b | 0 <= a < b < |r| ensures r[a].dt <= r[b].dt {
        assert r[a] == sorted[a] && r[b] == sorted[b];
      }
    }
    forall idx | 0 <= idx < |list| && IsNoonPick(list, idx)
      ensures list[idx] in r || (|r| == ForecastDays && forall x :: x in r ==> x.dt <= list[idx].dt)
    {
      ShownOrLater(kept, list[idx]);
    }
    if DayFollowsDt(list) {
      StrictlyAscending(list, r);
    }
  }

  /** If every noon pick is shown unless five samples are, then so is
      every day of the input, and a non-empty input shows something. */
  lemma EveryDayShown<K, P>(list: seq<Sample<K, P>>, r: seq<Sample<K, P>>)
    requires forall idx :: 0 <= idx < |list| && IsNoonPick(list, idx) ==>
               list[idx] in r || (|r| == ForecastDays && forall x :: x in r ==> x.dt <= list[idx].dt)
    ensures forall d :: d in Days(list) ==> (exists x :: x in r && x.dayKey == d) || |r| == ForecastDays
    ensures list != [] ==> r != []
  {
    forall d | d in Days(list)
      ensures (exists x :: x in r && x.dayKey == d) || |r| == ForecastDays
    {
      var j :| 0 <= j < |list| && list[j].dayKey == d;
      NoonPickExists(list, j);
      var idx :| 0 <= idx < |list| && IsNoonPick(list, idx) && list[idx].dayKey == d;
      if list[idx] in r {
        assert list[idx].dayKey == d;
      }
    }
    if list != [] {
      assert list[0].dayKey in Days(list);
    }
  }

  /** The `forEach` over the samples (script.js:123-135): one pass keeps,
      per day, the sample closest to noon, replacing it only on a strictly
      smaller distance, and returns the map's values in its insertion
      order. These are one sample per day, each its day's noon pick, and
      every day's noon pick is among them. */
  method KeepNoonPicks<K(==,!new), P(==)>(list: seq<Sample<K, P>>) returns (kept: seq<Sample<K, P>>)
    ensures DistinctDays(kept)
    ensures forall x :: x in kept ==> exists idx :: 0 <= idx < |list| && list[idx] == x && IsNoonPick(list, idx)
    ensures forall idx :: 0 <= idx < |list| && IsNoonPick(list, idx) ==> list[idx] in kept
  {
    var keys: seq<K> := [];
    var byDay: map<K, Kept<K, P>> := map[];
    ghost var at: map<K, nat> := map[];
    var i := 0;
    while i < |list|
      invariant 0 <= i <= |list|
      invariant KeptSoFar(list, i, keys, byDay, at)
    {
      var item := list[i];
      var k := item.dayKey;
      var score := NoonDistance(item.hour);
      if k !in byDay || score < byDay[k].score {
        KeepReplace(list, i, keys, byDay, at);
        if k !in byDay {
          keys := keys + [k];
        }
        byDay := byDay[k := Kept(score, item)];
        at := at[k := i];
      } else {
        KeepSkip(list, i, keys, byDay, at);
      }
      i := i + 1;
    }
    kept := seq(|keys|, j requires 0 <= j < |keys| => byDay[keys[j]].item);
    KeptSamples(list, keys, byDay, at, kept);
  }

  /** `pickDailyAtNoon(list)`: the noon picks of `KeepNoonPicks`, sorted by
      `dt`, the first five returned. The result holds at most five
      samples, in time order, one per day, each the noon pick of its day;
      a day left out is no earlier than every day shown, which happens
      only when five are shown, so every day of the input is shown unless
      five are, and a non-empty list gives a non-empty result. */
  method PickDailyAtNoon<K(==,!new), P(==)>(list: seq<Sample<K, P>>) returns (r: seq<Sample<K, P>>)
    ensures |r| <= ForecastDays
    ensures SortedByDt(r)
    ensures DistinctDays(r)
    ensures forall x :: x in r ==> exists idx :: 0 <= idx < |list| && list[idx] == x && IsNoonPick(list, idx)
    ensures forall idx :: 0 <= idx < |list| && IsNoonPick(list, idx) ==>
              list[idx] in r || (|r| == ForecastDays && forall x :: x in r ==> x.dt <= list[idx].dt)
    ensures forall d :: d in Days(list) ==> (exists x :: x in r && x.dayKey == d) || |r| == ForecastDays
    ensures list != [] ==> r != []
    ensures DayFollowsDt(list) ==> forall a, b :: 0 <= a < b < |r| ==> r[a].dt < r[b].dt
  {
    var kept := KeepNoonPicks(list);
    r := SliceTo(SortByDt(kept), ForecastDays);
    ShownSamples(list, kept);
    EveryDayShown(list, r);
  }
}
