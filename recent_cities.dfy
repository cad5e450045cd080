/** The recent-searches list kept under the storage key "recentCities":
    most recent first, case-insensitively distinct, at most six entries. */
module RecentCities {
  import opened JsBuiltins

  /** The number of entries `saveRecent` keeps. */
  const Capacity: nat := 6

  /** No two entries are equal ignoring case. */
  ghost predicate CaseDistinct(list: seq<string>) {
    forall i, j :: 0 <= i < j < |list| ==> !SameIgnoringCase(list[i], list[j])
  }

  /** The invariant the recent-cities list is meant to keep. */
  ghost predicate WellFormed(list: seq<string>) {
    |list| <= Capacity && CaseDistinct(list)
  }

  /** `a` is `b` with some entries left out, the rest in their order. */
  ghost predicate IsSubsequence<T>(a: seq<T>, b: seq<T>)
    decreases |b|
  {
    if a == [] then true
    else if b == [] then false
    else if a[0] == b[0] then IsSubsequence(a[1..], b[1..])
    else IsSubsequence(a, b[1..])
  }

  /** Some entry of `list` equals `city` ignoring case (the `find` at
      script.js:41 returning an entry). */
  predicate HasCity(list: seq<string>, city: string): (h: bool)
    ensures h <==> |WithoutCity(list, city)| < |list|
  {
    WithoutCityShorterIff(list, city);
    exists i :: 0 <= i < |list| && SameIgnoringCase(list[i], city)
  }

  /** The filter drops an entry exactly when some entry matches the city. */
  lemma {:induction false} WithoutCityShorterIff(list: seq<string>, city: string)
    ensures |WithoutCity(list, city)| < |list| <==> exists i :: 0 <= i < |list| && SameIgnoringCase(list[i], city)
  {
    if list != [] {
      WithoutCityShorterIff(list[1..], city);
      if exists i :: 0 <= i < |list[1..]| && SameIgnoringCase(list[1..][i], city) {
        var i :| 0 <= i < |list[1..]| && SameIgnoringCase(list[1..][i], city);
        assert list[i + 1] == list[1..][i];
      }
      if exists i :: 0 <= i < |list| && SameIgnoringCase(list[i], city) {
        var i :| 0 <= i < |list| && SameIgnoringCase(list[i], city);
        if i > 0 { assert list[1..][i - 1] == list[i]; }
      }
    }
  }

  /** The entries of `list` that differ from `city` ignoring case. */
  function WithoutCity(list: seq<string>, city: string): (r: seq<string>)
    ensures |r| <= |list|
    ensures forall i :: 0 <= i < |r| ==> !SameIgnoringCase(r[i], city) && r[i] in list
  {
    if list == [] then []
    else if SameIgnoringCase(list[0], city) then WithoutCity(list[1..], city)
    else [list[0]] + WithoutCity(list[1..], city)
  }

  /** The list `saveRecent` builds: `city` first, then the other entries,
      cut to the capacity. */
  function Updated(list: seq<string>, city: string): (r: seq<string>)
    ensures 1 <= |r| <= Capacity && r[0] == city
  {
    SliceTo([city] + WithoutCity(list, city), Capacity)
  }

  /** The write condition of script.js:43, for a non-empty `city`. */
  predicate ShouldWrite(list: seq<string>, city: string): (w: bool)
    ensures !HasCity(list, city) ==> w
    ensures Capacity < |list| ==> w
  {
    !HasCity(list, city) || |Updated(list, city)| != |list|
  }

  /** Removing a city keeps every other entry and their relative order. */
  lemma {:induction false} WithoutCityIsFilter(list: seq<string>, city: string)
    ensures IsSubsequence(WithoutCity(list, city), list)
    ensures forall x :: x in list && !SameIgnoringCase(x, city) ==> x in WithoutCity(list, city)
  {
    if list != [] {
      WithoutCityIsFilter(list[1..], city);
      forall x | x in list && !SameIgnoringCase(x, city) ensures x in WithoutCity(list, city) {
        if x != list[0] { assert x in list[1..]; }
      }
    }
  }

  /** The filter keeps every copy of every other entry and no copy of an
      entry equal to the city ignoring case. */
  lemma {:induction false} WithoutCityCounts(list: seq<string>, city: string)
    ensures forall x :: !SameIgnoringCase(x, city) ==> multiset(WithoutCity(list, city))[x] == multiset(list)[x]
    ensures forall x :: SameIgnoringCase(x, city) ==> multiset(WithoutCity(list, city))[x] == 0
  {
    if list != [] {
      WithoutCityCounts(list[1..], city);
      assert list == [list[0]] + list[1..];
    }
  }

  /** A list without the city is left unchanged by removing it. */
  lemma {:induction false} WithoutAbsentCity(list: seq<string>, city: string)
    requires !HasCity(list, city)
    ensures WithoutCity(list, city) == list
  {
    if list != [] {
      assert !SameIgnoringCase(list[0], city);
      assert !HasCity(list[1..], city) by {
        forall i | 0 <= i < |list[1..]| ensures !SameIgnoringCase(list[1..][i], city) {
          assert list[1..][i] == list[i + 1];
        }
      }
      WithoutAbsentCity(list[1..], city);
    }
  }

  /** Removing a city from a case-distinct list keeps it case-distinct. */
  lemma {:induction false} WithoutCityCaseDistinct(list: seq<string>, city: string)
    requires CaseDistinct(list)
    ensures CaseDistinct(WithoutCity(list, city))
  {
    if list != [] {
      assert CaseDistinct(list[1..]) by {
        forall i, j | 0 <= i < j < |list[1..]| ensures !SameIgnoringCase(list[1..][i], list[1..][j]) {
          assert list[1..][i] == list[i + 1] && list[1..][j] == list[j + 1];
        }
      }
      WithoutCityCaseDistinct(list[1..], city);
      var rest := WithoutCity(list[1..], city);
      if !SameIgnoringCase(list[0], city) {
        forall k | 0 <= k < |rest| ensures !SameIgnoringCase(list[0], rest[k]) {
          var m :| 0 <= m < |list[1..]| && list[1..][m] == rest[k];
          assert list[m + 1] == rest[k];
        }
        assert WithoutCity(list, city) == [list[0]] + rest;
      }
    }
  }

  /** In a case-distinct list that holds the city, exactly one entry goes. */
  lemma {:induction false} WithoutPresentCity(list: seq<string>, city: string)
    requires CaseDistinct(list) && HasCity(list, city)
    ensures |WithoutCity(list, city)| == |list| - 1
  {
    assert CaseDistinct(list[1..]) by {
      forall i, j | 0 <= i < j < |list[1..]| ensures !SameIgnoringCase(list[1..][i], list[1..][j]) {
        assert list[1..][i] == list[i + 1] && list[1..][j] == list[j + 1];
      }
    }
    if SameIgnoringCase(list[0], city) {
      assert !HasCity(list[1..], city) by {
        forall i | 0 <= i < |list[1..]| ensures !SameIgnoringCase(list[1..][i], city) {
          assert list[1..][i] == list[i + 1];
          assert !SameIgnoringCase(list[0], list[i + 1]);
        }
      }
      WithoutAbsentCity(list[1..], city);
    } else {
      var i :| 0 <= i < |list| && SameIgnoringCase(list[i], city);
      assert list[1..][i - 1] == list[i];
      WithoutPresentCity(list[1..], city);
    }
  }

  /** What a written list looks like: the city first, then the first other
      entries in their original order, none equal to the city ignoring
      case, at most six in all. */
  lemma UpdatedShape(list: seq<string>, city: string)
    ensures var u := Updated(list, city);
      && 1 <= |u| <= Capacity
      && u[0] == city
      && (forall i :: 1 <= i < |u| ==> !SameIgnoringCase(u[i], city))
      && u[1..] == WithoutCity(list, city)[..|u| - 1]
      && IsSubsequence(WithoutCity(list, city), list)
  {
    WithoutCityIsFilter(list, city);
    var u := Updated(list, city);
    assert u == ([city] + WithoutCity(list, city))[..|u|];
  }

  /** The update keeps the list well formed. */
  lemma UpdatedWellFormed(list: seq<string>, city: string)
    requires CaseDistinct(list)
    ensures WellFormed(Updated(list, city))
  {
    WithoutCityCaseDistinct(list, city);
    var w := WithoutCity(list, city);
    var full := [city] + w;
    assert CaseDistinct(full) by {
      forall i, j | 0 <= i < j < |full| ensures !SameIgnoringCase(full[i], full[j]) {
        assert full[j] == w[j - 1];
        if i > 0 { assert full[i] == w[i - 1]; }
      }
    }
    var u := Updated(list, city);
    assert forall i :: 0 <= i < |u| ==> u[i] == full[i];
  }

  /** On a well-formed list the write condition reduces to "the city is
      new": a city already in the list is never written, so it is neither
      moved to the front nor re-cased. */
  lemma WriteOnlyWhenNew(list: seq<string>, city: string)
    requires WellFormed(list)
    ensures ShouldWrite(list, city) <==> !HasCity(list, city)
  {
    if HasCity(list, city) {
      WithoutPresentCity(list, city);
    }
  }

  /** A concrete instance: with "Paris" stored before "London", saving
      "London" writes nothing, although the rebuilt list would put "London"
      first. */
  lemma ExistingCityNotPromoted()
    ensures !ShouldWrite(["Paris", "London"], "London")
    ensures Updated(["Paris", "London"], "London") == ["London", "Paris"]
  {
    var list := ["Paris", "London"];
    assert ToLower("Paris")[0] == 'p' && ToLower("London")[0] == 'l';
    assert !SameIgnoringCase("Paris", "London");
    assert SameIgnoringCase("London", "London");
    assert list[1..] == ["London"] && list[1..][1..] == [];
    assert WithoutCity(list, "London") == ["Paris"];
    assert HasCity(list, "London");
  }

  /** The stored list, as `saveRecent` reads and writes it. */
  class RecentStore {
    /** The decoded value under "recentCities" (the empty list when the key
        is missing). */
    var cities: seq<string>

    constructor (stored: seq<string>)
      ensures cities == stored
    {
      cities := stored;
    }

    /** `saveRecent(city)`: an empty name is ignored; otherwise the rebuilt
        list is written (and the recent tags re-rendered, reported by
        `wrote`) only when the city is new or the rebuilt list differs in
        length from the stored one. */
    method SaveRecent(city: string) returns (wrote: bool)
      modifies this
      ensures wrote == (city != "" && ShouldWrite(old(cities), city))
      ensures cities == if wrote then Updated(old(cities), city) else old(cities)
      ensures old(WellFormed(cities)) ==> WellFormed(cities)
      ensures wrote ==> cities[0] == city && |cities| <= Capacity
    {
      if city == "" {
        return false;
      }
      var found := HasCity(cities, city);
      var updated := Updated(cities, city);
      wrote := !found || |updated| != |cities|;
      ghost var was := cities;
      if wrote {
        cities := updated;
        UpdatedShape(was, city);
        if WellFormed(was) { UpdatedWellFormed(was, city); }
      }
    }

    /** The evidently intended behaviour: a non-empty city always ends up
        first, and the list is written whenever the rebuilt list differs. */
    method SaveRecentPromoting(city: string) returns (wrote: bool)
      modifies this
      ensures wrote == (city != "" && Updated(old(cities), city) != old(cities))
      ensures cities == if city != "" then Updated(old(cities), city) else old(cities)
      ensures old(WellFormed(cities)) ==> WellFormed(cities)
      ensures city != "" ==> cities[0] == city && |cities| <= Capacity
    {
      if city == "" {
        return false;
      }
      var updated := Updated(cities, city);
      wrote := updated != cities;
      ghost var was := cities;
      cities := updated;
      UpdatedShape(was, city);
      if WellFormed(was) { UpdatedWellFormed(was, city); }
    }
  }
}
