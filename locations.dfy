/** A study spot as the API delivers it, and the Home screen's search
    filter over the fetched list. */
module Locations {
  import opened Js
  import opened Text

  /** The `spotLocationInfo` object of a location. */
  datatype PlaceInfo = PlaceInfo(
    placeName: Option<string>,   // `place_name`
    city: Option<string>,
    country: Option<string>)

  /** The members of a location object that the screens read. A boolean
      amenity holds the truthiness of the corresponding member. */
  datatype Location = Location(
    dbId: Option<string>,        // `_id`
    id: Option<string>,          // `id`
    name: Option<string>,
    key: Option<string>,
    place: Option<PlaceInfo>,    // `spotLocationInfo`
    openHours: Option<string>,
    wifi: bool,
    outlets: bool,
    foodDrink: bool,
    whiteboards: bool,
    groupWork: bool,
    idRequired: bool,            // `IDrequired`
    tables: Option<string>,
    createdById: Prop<string>)   // compared with `!==`, so `null` is kept apart

  function PlaceName(loc: Location): Option<string> {
    if loc.place.Some? then loc.place.value.placeName else None
  }

  function City(loc: Location): Option<string> {
    if loc.place.Some? then loc.place.value.city else None
  }

  function Country(loc: Location): Option<string> {
    if loc.place.Some? then loc.place.value.country else None
  }

  /** `field?.toLowerCase().includes(term.toLowerCase())`: a missing field
      never matches. */
  predicate FieldMatches(field: Option<string>, term: string) {
    field.Some? && Includes(Lower(field.value), Lower(term))
  }

  /** The callback given to `locations.filter` on the Home screen. The two
      amenity tests are the other way round from the text tests: the term
      must occur in the word, not the word in the term. */
  function Matches(loc: Location, term: string): (r: bool)
    ensures term == "" ==> r
    ensures r && term != "" && !loc.wifi && !loc.outlets ==>
      exists f :: f in TextFields(loc) && FieldMatches(f, term)
  {
    if term == "" then true
    else
      FieldMatches(loc.name, term)
      || FieldMatches(loc.key, term)
      || FieldMatches(PlaceName(loc), term)
      || FieldMatches(City(loc), term)
      || FieldMatches(Country(loc), term)
      || (loc.wifi && Includes("wifi", Lower(term)))
      || (loc.outlets && Includes("outlets", Lower(term)))
      || FieldMatches(loc.openHours, term)
  }

  /** `locations.filter(...)`: the locations that match, in their order. */
  function Filter(locs: seq<Location>, term: string): (r: seq<Location>)
    ensures |r| <= |locs|
    ensures forall x :: x in r <==> x in locs && Matches(x, term)
    ensures term == "" ==> r == locs
  {
    if locs == [] then []
    else (if Matches(locs[0], term) then [locs[0]] else []) + Filter(locs[1..], term)
  }

  /** `sub` can be obtained from `s` by deleting elements. */
  predicate IsSubsequence<T(==)>(sub: seq<T>, s: seq<T>)
    decreases |s|
  {
    sub == [] ||
    (s != [] && ((sub[0] == s[0] && IsSubsequence(sub[1..], s[1..])) || IsSubsequence(sub, s[1..])))
  }

  /** The filter only deletes: what it keeps stays in the original order. */
  lemma {:induction false} FilterIsSubsequence(locs: seq<Location>, term: string)
    ensures IsSubsequence(Filter(locs, term), locs)
  {
    if locs != [] {
      FilterIsSubsequence(locs[1..], term);
      var rest := Filter(locs[1..], term);
      if Matches(locs[0], term) {
        var sub := [locs[0]] + rest;
        assert Filter(locs, term) == sub;
        assert sub[0] == locs[0] && sub[1..] == rest;
        assert IsSubsequence(sub, locs);
      } else {
        assert Filter(locs, term) == rest;
        assert IsSubsequence(rest, locs);
      }
    }
  }

  /** The filter works element by element: filtering a concatenation is
      concatenating the filtered parts, so the relative order of any two
      kept locations is their order in the input. */
  lemma {:induction false} FilterConcat(a: seq<Location>, b: seq<Location>, term: string)
    ensures Filter(a + b, term) == Filter(a, term) + Filter(b, term)
  {
    if a == [] {
      assert a + b == b;
    } else {
      assert (a + b)[0] == a[0];
      assert (a + b)[1..] == a[1..] + b;
      FilterConcat(a[1..], b, term);
    }
  }

  /** The text members the filter looks at, in the order it tries them. */
  function TextFields(loc: Location): (r: seq<Option<string>>)
    ensures |r| == 6
  {
    [loc.name, loc.key, PlaceName(loc), City(loc), Country(loc), loc.openHours]
  }

  /** The amenity words a location offers to the search. */
  function AmenityWords(loc: Location): seq<string> {
    (if loc.wifi then ["wifi"] else []) + (if loc.outlets then ["outlets"] else [])
  }

  /** A non-empty term keeps a location iff one of the location's present
      text members includes it, ignoring ASCII case, or one of the amenity
      words the location offers includes it. */
  lemma MatchesIff(loc: Location, term: string)
    requires term != ""
    ensures Matches(loc, term) <==>
      (exists f :: f in TextFields(loc) && FieldMatches(f, term))
      || (exists w :: w in AmenityWords(loc) && Includes(w, Lower(term)))
  {
    var f := TextFields(loc);
    if Matches(loc, term) {
      if FieldMatches(loc.name, term) { assert f[0] in f; }
      else if FieldMatches(loc.key, term) { assert f[1] in f; }
      else if FieldMatches(PlaceName(loc), term) { assert f[2] in f; }
      else if FieldMatches(City(loc), term) { assert f[3] in f; }
      else if FieldMatches(Country(loc), term) { assert f[4] in f; }
      else if FieldMatches(loc.openHours, term) { assert f[5] in f; }
      else if loc.wifi && Includes("wifi", Lower(term)) { assert "wifi" in AmenityWords(loc); }
      else { assert "outlets" in AmenityWords(loc); }
    }
  }

  /** With every text member missing and no amenity, a non-empty term keeps nothing. */
  lemma BareLocationNeverMatches(loc: Location, term: string)
    requires term != ""
    requires forall i :: 0 <= i < 6 ==> TextFields(loc)[i].None?
    requires !loc.wifi && !loc.outlets
    ensures !Matches(loc, term)
  {
    assert TextFields(loc)[0].None? && TextFields(loc)[1].None? && TextFields(loc)[2].None?;
    assert TextFields(loc)[3].None? && TextFields(loc)[4].None? && TextFields(loc)[5].None?;
  }

  /** A term longer than "outlets" can only match through a text member. */
  lemma {:induction false} LongTermSkipsAmenities(loc: Location, term: string)
    requires |term| > 7
    ensures Matches(loc, term) <==>
      FieldMatches(loc.name, term) || FieldMatches(loc.key, term)
      || FieldMatches(PlaceName(loc), term) || FieldMatches(City(loc), term)
      || FieldMatches(Country(loc), term) || FieldMatches(loc.openHours, term)
  {
    assert |Lower(term)| > |"outlets"| > |"wifi"|;
  }

  /** Reverse containment: a prefix of "wifi" finds every location with wifi. */
  lemma PrefixOfWifiMatches(loc: Location)
    requires loc.wifi
    ensures Matches(loc, "wi")
  {
    assert OccursAt("wifi", "wi", 0);
  }

  /** ... but "wifi spot" does not find a location through its wifi alone. */
  lemma SentenceMissesWifi(loc: Location)
    requires loc.wifi && !loc.outlets
    requires forall i :: 0 <= i < 6 ==> TextFields(loc)[i].None?
    ensures !Matches(loc, "wifi spot")
  {
    assert TextFields(loc)[0].None? && TextFields(loc)[1].None? && TextFields(loc)[2].None?;
    assert TextFields(loc)[3].None? && TextFields(loc)[4].None? && TextFields(loc)[5].None?;
    LongTermSkipsAmenities(loc, "wifi spot");
  }

  /** The search ignores ASCII case: terms that agree after lower-casing
      select the same locations. */
  lemma {:induction false} FilterCaseInsensitive(locs: seq<Location>, t1: string, t2: string)
    requires Lower(t1) == Lower(t2)
    ensures Filter(locs, t1) == Filter(locs, t2)
  {
    if locs != [] {
      assert (t1 == "") == (t2 == "") by {
        assert |t1| == |Lower(t1)| == |Lower(t2)| == |t2|;
      }
      FilterCaseInsensitive(locs[1..], t1, t2);
    }
  }

  /** The number of locations a term keeps. */
  function CountMatching(locs: seq<Location>, term: string): nat {
    if locs == [] then 0 else (if Matches(locs[0], term) then 1 else 0) + CountMatching(locs[1..], term)
  }

  /** The filter keeps exactly one copy of each matching element. */
  lemma {:induction false} FilterLength(locs: seq<Location>, term: string)
    ensures |Filter(locs, term)| == CountMatching(locs, term)
  {
    if locs != [] {
      FilterLength(locs[1..], term);
    }
  }

  /** Filtering twice with the same term changes nothing the second time. */
  lemma {:induction false} FilterIdempotent(locs: seq<Location>, term: string)
    ensures Filter(Filter(locs, term), term) == Filter(locs, term)
  {
    if locs != [] {
      FilterIdempotent(locs[1..], term);
      var head := [locs[0]];
      assert locs == head + locs[1..];
      FilterConcat(head, locs[1..], term);
      FilterConcat(Filter(head, term), Filter(locs[1..], term), term);
      assert Filter(Filter(head, term), term) == Filter(head, term) by {
        assert head[1..] == [];
        if Matches(locs[0], term) {
          assert Filter(head, term) == head;
        }
      }
    }
  }
}
