/** Points of interest near a stop (lib/overpass.ts), with the network call
    abstracted: the answer of the points-of-interest service is a parameter, and
    the great-circle distance from the stop is an opaque function `dist` of the
    coordinates. What remains is the classification of map features into
    categories, the choice of a display name and of coordinates, and the
    drop / sort by distance / keep-the-nearest-four pipeline. */
module Overpass {
  import opened Types
  import opened Text

  const LimitPerStop := 4

  const Attraction := "attraction"
  const Museum := "museum"
  const Viewpoint := "viewpoint"
  const Heritage := "heritage"
  const Temple := "temple"
  const Park := "park"
  const Beach := "beach"
  const Waterfall := "waterfall"

  /** The category taxonomy shown to the traveller. */
  const Categories: set<string> := {Attraction, Museum, Viewpoint, Heritage, Temple, Park, Beach, Waterfall}

  datatype ElementType = Node | Way | Relation

  datatype Center = Center(lat: real, lon: real)

  /** One feature of the service's answer; every field but the type and id may be missing. */
  datatype Element = Element(
    kind: ElementType,
    id: nat,
    lat: Option<real>,
    lon: Option<real>,
    center: Option<Center>,
    tags: Option<map<string, string>>)

  datatype OverpassResponse = OverpassResponse(ok: bool, elements: seq<Element>)

  datatype WatchItem = WatchItem(id: string, name: string, category: string, distanceKm: real, lat: real, lng: real)

  datatype Coordinates = Coordinates(lat: real, lng: real)

  function Tag(tags: map<string, string>, key: string): Option<string>
  {
    if key in tags then Some(tags[key]) else None
  }

  /** `a ?? b` on optional strings. */
  function OrElse(a: Option<string>, b: Option<string>): Option<string>
  {
    if a.Some? then a else b
  }

  /** `pickName(tags, language)`: the name in the traveller's language (`name:si`, `name:ta`,
      and `name:en` for any other language), else the plain `name`, else nothing. */
  function PickName(tags: Option<map<string, string>>, language: string): (r: Option<string>)
    ensures tags.None? ==> r.None?
    ensures tags.Some? ==>
      var key := if language == "si" then "name:si" else if language == "ta" then "name:ta" else "name:en";
      && (key in tags.value ==> r == Some(tags.value[key]))
      && (key !in tags.value && "name" in tags.value ==> r == Some(tags.value["name"]))
      && (key !in tags.value && "name" !in tags.value ==> r.None?)
  {
    match tags
    case None => None
    case Some(t) =>
      var fallback := Tag(t, "name");
      if language == "si" then OrElse(Tag(t, "name:si"), fallback)
      else if language == "ta" then OrElse(Tag(t, "name:ta"), fallback)
      else OrElse(Tag(t, "name:en"), fallback)
  }

  predicate TagIs(tags: map<string, string>, key: string, value: string)
  {
    key in tags && tags[key] == value
  }

  /** `pickCategory(tags)`: the first matching rule of the decision table wins. */
  function PickCategory(tags: Option<map<string, string>>): (category: string)
    ensures category in Categories
  {
    match tags
    case None => Attraction
    case Some(t) =>
      if TagIs(t, "natural", "beach") then Beach
      else if TagIs(t, "natural", "waterfall") then Waterfall
      else if TagIs(t, "natural", "peak") then Viewpoint
      else if TagIs(t, "tourism", "museum") then Museum
      else if TagIs(t, "tourism", "viewpoint") then Viewpoint
      else if "historic" in t && t["historic"] != "" then Heritage
      else if TagIs(t, "amenity", "place_of_worship") then Temple
      else if TagIs(t, "leisure", "park") then Park
      else Attraction
  }

  /** The precedence of the decision table: a natural feature beats a tourism tag, which beats
      a historic tag, which beats a place of worship, which beats a park; anything unmatched
      is an attraction. A peak and a tourism viewpoint are both viewpoints; `tourism` holds one
      value, so a museum and a tourism viewpoint never compete. */
  lemma PickCategoryPrecedence(t: map<string, string>)
    ensures PickCategory(Some(t)) == Beach <==> TagIs(t, "natural", "beach")
    ensures PickCategory(Some(t)) == Waterfall <==>
      !TagIs(t, "natural", "beach") && TagIs(t, "natural", "waterfall")
    ensures PickCategory(Some(t)) == Viewpoint <==>
      && !TagIs(t, "natural", "beach") && !TagIs(t, "natural", "waterfall")
      && (TagIs(t, "natural", "peak") || TagIs(t, "tourism", "viewpoint"))
    ensures PickCategory(Some(t)) == Museum <==> TagIs(t, "tourism", "museum") && !IsNaturalSight(t)
    ensures PickCategory(Some(t)) == Heritage <==>
      !IsNaturalSight(t) && !IsTourismSight(t) && "historic" in t && t["historic"] != ""
    ensures PickCategory(Some(t)) == Temple <==>
      !IsNaturalSight(t) && !IsTourismSight(t) && !("historic" in t && t["historic"] != "")
      && TagIs(t, "amenity", "place_of_worship")
    ensures PickCategory(Some(t)) == Park <==>
      !IsNaturalSight(t) && !IsTourismSight(t) && !("historic" in t && t["historic"] != "")
      && !TagIs(t, "amenity", "place_of_worship") && TagIs(t, "leisure", "park")
    ensures PickCategory(Some(t)) == Attraction <==>
      !IsNaturalSight(t) && !IsTourismSight(t) && !("historic" in t && t["historic"] != "")
      && !TagIs(t, "amenity", "place_of_worship") && !TagIs(t, "leisure", "park")
  {
  }

  predicate IsNaturalSight(t: map<string, string>)
  {
    TagIs(t, "natural", "beach") || TagIs(t, "natural", "waterfall") || TagIs(t, "natural", "peak")
  }

  predicate IsTourismSight(t: map<string, string>)
  {
    TagIs(t, "tourism", "museum") || TagIs(t, "tourism", "viewpoint")
  }

  /** `resolveLatLng(element)`: the element's own position when it has both numbers, else its
      centre, else nothing. */
  function ResolveLatLng(e: Element): (r: Option<Coordinates>)
    ensures e.lat.Some? && e.lon.Some? ==> r == Some(Coordinates(e.lat.value, e.lon.value))
    ensures !(e.lat.Some? && e.lon.Some?) && e.center.Some? ==>
      r == Some(Coordinates(e.center.value.lat, e.center.value.lon))
    ensures r.None? <==> !(e.lat.Some? && e.lon.Some?) && e.center.None?
  {
    if e.lat.Some? && e.lon.Some? then Some(Coordinates(e.lat.value, e.lon.value))
    else if e.center.Some? then Some(Coordinates(e.center.value.lat, e.center.value.lon))
    else None
  }

  function TypeName(kind: ElementType): string
  {
    match kind
    case Node => "node"
    case Way => "way"
    case Relation => "relation"
  }

  /** `${element.type}-${element.id}` */
  function ItemId(kind: ElementType, id: nat): string
  {
    TypeName(kind) + "-" + NatToString(id)
  }

  /** Different features get different item ids. */
  lemma ItemIdInjective(k1: ElementType, id1: nat, k2: ElementType, id2: nat)
    requires ItemId(k1, id1) == ItemId(k2, id2)
    ensures k1 == k2 && id1 == id2
  {
    var s := ItemId(k1, id1);
    var n1, n2 := |TypeName(k1)|, |TypeName(k2)|;
    assert s[n1] == '-' && s[n2] == '-';
    assert n1 == n2;
    assert s[..n1] == TypeName(k1) && s[..n2] == TypeName(k2);
    assert TypeName(k1) == TypeName(k2);
    assert s[n1 + 1..] == NatToString(id1) && s[n2 + 1..] == NatToString(id2);
    NatToStringInjective(id1, id2);
  }

  /** One element of the answer as a watch item: dropped without coordinates or without a
      name (an empty name counts as none). */
  function ToItem(e: Element, language: string, dist: (real, real) -> real): (r: Option<WatchItem>)
    ensures r.Some? <==> ResolveLatLng(e).Some? && PickName(e.tags, language).Some?
                         && PickName(e.tags, language).value != ""
    ensures r.Some? ==>
      var c := ResolveLatLng(e).value;
      r.value == WatchItem(ItemId(e.kind, e.id), PickName(e.tags, language).value,
                           PickCategory(e.tags), dist(c.lat, c.lng), c.lat, c.lng)
  {
    match ResolveLatLng(e)
    case None => None
    case Some(c) =>
      match PickName(e.tags, language)
      case None => None
      case Some(name) =>
        if name == "" then None
        else Some(WatchItem(ItemId(e.kind, e.id), name, PickCategory(e.tags), dist(c.lat, c.lng), c.lat, c.lng))
  }

  /** `elements.map(toItem).filter(Boolean)`: the surviving items, in answer order. */
  function Survivors(elements: seq<Element>, language: string, dist: (real, real) -> real): (items: seq<WatchItem>)
    ensures |items| <= |elements|
    ensures forall x :: x in items ==> exists e :: e in elements && ToItem(e, language, dist) == Some(x)
    ensures forall e :: e in elements && ToItem(e, language, dist).Some? ==> ToItem(e, language, dist).value in items
  {
    if elements == [] then []
    else
      var rest := Survivors(elements[1..], language, dist);
      match ToItem(elements[0], language, dist)
      case None => rest
      case Some(x) => [x] + rest
  }

  /** A single element survives as its one item, or not at all. */
  lemma SurvivorsOfOne(e: Element, language: string, dist: (real, real) -> real)
    ensures Survivors([e], language, dist) == match ToItem(e, language, dist)
      case None => []
      case Some(x) => [x]
  {
    assert [e][1..] == [];
  }

  /** The filter works element by element: the survivors of a concatenation are the survivors
      of each part, one item per surviving element, in answer order. */
  lemma {:induction false} SurvivorsDistributes(a: seq<Element>, b: seq<Element>, language: string, dist: (real, real) -> real)
    ensures Survivors(a + b, language, dist) == Survivors(a, language, dist) + Survivors(b, language, dist)
  {
    if a == [] {
      assert a + b == b;
    } else {
      assert (a + b)[0] == a[0];
      assert (a + b)[1..] == a[1..] + b;
      SurvivorsDistributes(a[1..], b, language, dist);
      var head := match ToItem(a[0], language, dist) case None => [] case Some(x) => [x];
      assert head + (Survivors(a[1..], language, dist) + Survivors(b, language, dist))
          == (head + Survivors(a[1..], language, dist)) + Survivors(b, language, dist);
    }
  }

  predicate SortedByDistance(items: seq<WatchItem>)
  {
    forall i, j :: 0 <= i < j < |items| ==> items[i].distanceKm <= items[j].distanceKm
  }

  /** Inserts `x` before the first item that is no nearer (ahead of any items at the same
      distance). `SortByDistance` inserts the items from the last one back, so each inserted
      item is the earliest of those left, and ties keep their order as a stable sort does. */
  function InsertByDistance(x: WatchItem, sorted: seq<WatchItem>): (r: seq<WatchItem>)
    ensures multiset(r) == multiset(sorted) + multiset{x}
  {
    if sorted == [] then [x]
    else if x.distanceKm <= sorted[0].distanceKm then [x] + sorted
    else
      assert sorted == [sorted[0]] + sorted[1..];
      [sorted[0]] + InsertByDistance(x, sorted[1..])
  }

  lemma {:induction false} InsertKeepsSorted(x: WatchItem, sorted: seq<WatchItem>)
    requires SortedByDistance(sorted)
    ensures SortedByDistance(InsertByDistance(x, sorted))
  {
    if sorted != [] && x.distanceKm > sorted[0].distanceKm {
      var rest := InsertByDistance(x, sorted[1..]);
      InsertKeepsSorted(x, sorted[1..]);
      forall y | y in rest
        ensures sorted[0].distanceKm <= y.distanceKm
      {
        assert y in multiset(rest);
        if y != x {
          assert y in multiset(sorted[1..]);
          assert y in sorted[1..];
        }
      }
      ConsKeepsSorted(sorted[0], rest);
    }
  }

  /** An item no farther than any of a sorted list can go in front of it. */
  lemma ConsKeepsSorted(head: WatchItem, rest: seq<WatchItem>)
    requires SortedByDistance(rest)
    requires forall y :: y in rest ==> head.distanceKm <= y.distanceKm
    ensures SortedByDistance([head] + rest)
  {
    var r := [head] + rest;
    forall i, j | 0 <= i < j < |r|
      ensures r[i].distanceKm <= r[j].distanceKm
    {
      assert r[j] == rest[j - 1];
      if i > 0 {
        assert r[i] == rest[i - 1];
      } else {
        assert rest[j - 1] in rest;
      }
    }
  }

  /** `items.sort((a, b) => a.distanceKm - b.distanceKm)`: nearest first, and stable
      (`SortByDistanceStable`). */
  function SortByDistance(items: seq<WatchItem>): (r: seq<WatchItem>)
    ensures multiset(r) == multiset(items)
    ensures SortedByDistance(r)
  {
    if items == [] then []
    else
      assert items == [items[0]] + items[1..];
      InsertKeepsSorted(items[0], SortByDistance(items[1..]));
      InsertByDistance(items[0], SortByDistance(items[1..]))
  }

  /** The items at distance `d`, in list order: where a stable sort keeps ties. */
  function AtDistance(items: seq<WatchItem>, d: real): (r: seq<WatchItem>)
    ensures forall x :: x in r <==> x in items && x.distanceKm == d
  {
    if items == [] then []
    else (if items[0].distanceKm == d then [items[0]] else []) + AtDistance(items[1..], d)
  }

  /** Inserting puts `x` ahead of every item at its own distance and leaves other ties alone. */
  lemma {:induction false} InsertAtDistance(x: WatchItem, sorted: seq<WatchItem>, d: real)
    ensures AtDistance(InsertByDistance(x, sorted), d)
            == (if x.distanceKm == d then [x] else []) + AtDistance(sorted, d)
  {
    var head := if x.distanceKm == d then [x] else [];
    if sorted == [] {
      assert [x][1..] == [];
    } else if x.distanceKm <= sorted[0].distanceKm {
      assert ([x] + sorted)[0] == x && ([x] + sorted)[1..] == sorted;
    } else {
      var rest := InsertByDistance(x, sorted[1..]);
      assert ([sorted[0]] + rest)[0] == sorted[0] && ([sorted[0]] + rest)[1..] == rest;
      InsertAtDistance(x, sorted[1..], d);
      var first := if sorted[0].distanceKm == d then [sorted[0]] else [];
      assert AtDistance(InsertByDistance(x, sorted), d) == first + AtDistance(rest, d);
      assert AtDistance(sorted, d) == first + AtDistance(sorted[1..], d);
      if x.distanceKm == d {
        // `sorted[0]` is nearer than `x`, so it is not one of `x`'s ties.
        assert first == [];
        assert [] + AtDistance(rest, d) == AtDistance(rest, d);
        assert [] + AtDistance(sorted[1..], d) == AtDistance(sorted[1..], d);
      } else {
        assert head == [];
        assert [] + AtDistance(sorted[1..], d) == AtDistance(sorted[1..], d);
      }
    }
  }

  /** The sort is stable: items at the same distance keep their order. */
  lemma {:induction false} SortByDistanceStable(items: seq<WatchItem>, d: real)
    ensures AtDistance(SortByDistance(items), d) == AtDistance(items, d)
  {
    if items != [] {
      SortByDistanceStable(items[1..], d);
      InsertAtDistance(items[0], SortByDistance(items[1..]), d);
    }
  }

  /** In a list sorted by distance, a prefix holds items no farther than anything after it. */
  lemma SortedPrefixIsNearest(sorted: seq<WatchItem>, k: nat)
    requires SortedByDistance(sorted) && k <= |sorted|
    ensures SortedByDistance(sorted[..k])
    ensures multiset(sorted[..k]) <= multiset(sorted)
    ensures forall x, y :: x in multiset(sorted) - multiset(sorted[..k]) && y in sorted[..k] ==> y.distanceKm <= x.distanceKm
  {
    var prefix := sorted[..k];
    forall i, j | 0 <= i < j < |prefix|
      ensures prefix[i].distanceKm <= prefix[j].distanceKm
    {
      assert prefix[i] == sorted[i] && prefix[j] == sorted[j];
    }
    assert sorted == sorted[..k] + sorted[k..];
    assert multiset(sorted) == multiset(sorted[..k]) + multiset(sorted[k..]);
    forall x, y | x in multiset(sorted) - multiset(sorted[..k]) && y in sorted[..k]
      ensures y.distanceKm <= x.distanceKm
    {
      assert x in multiset(sorted[k..]);
      assert x in sorted[k..];
      var j :| k <= j < |sorted| && sorted[j] == x;
      var i :| 0 <= i < k && sorted[i] == y;
    }
  }

  /** `fetchWatchItems(location, language, radius)` given the service's `response`, where
      `dist(lat, lng)` is the great-circle distance from the stop. */
  function FetchWatchItems(response: OverpassResponse, language: string, dist: (real, real) -> real): seq<WatchItem>
  {
    if !response.ok then []
    else
      var sorted := SortByDistance(Survivors(response.elements, language, dist));
      sorted[..if |sorted| < LimitPerStop then |sorted| else LimitPerStop]
  }

  /** The first (at most) four of a list sorted by distance are sorted, drawn from the list,
      all of it when it is that short, and no farther than anything left out. */
  lemma NearestFirst(survivors: seq<WatchItem>)
    ensures var sorted := SortByDistance(survivors);
      var out := sorted[..if |sorted| < LimitPerStop then |sorted| else LimitPerStop];
      && |out| <= LimitPerStop
      && SortedByDistance(out)
      && multiset(out) <= multiset(survivors)
      && (|survivors| <= LimitPerStop ==> multiset(out) == multiset(survivors))
      && forall x, y :: x in multiset(survivors) - multiset(out) && y in out ==> y.distanceKm <= x.distanceKm
  {
    var sorted := SortByDistance(survivors);
    var k := if |sorted| < LimitPerStop then |sorted| else LimitPerStop;
    SortedPrefixIsNearest(sorted, k);
    assert multiset(sorted) == multiset(survivors);
    if |survivors| <= LimitPerStop {
      SameLength(sorted, survivors);
      assert sorted[..k] == sorted;
    }
  }

  /** Two lists holding the same items are equally long. */
  lemma SameLength(a: seq<WatchItem>, b: seq<WatchItem>)
    requires multiset(a) == multiset(b)
    ensures |a| == |b|
  {
    calc {
      |a|;
      |multiset(a)|;
      |multiset(b)|;
      |b|;
    }
  }

  /** The list is empty when the service refuses; otherwise it holds at most four of the
      surviving items, nearest first, and every survivor left out is at least as far away as
      every item kept (and all survivors are kept when there are at most four). */
  lemma WatchItemsAreNearest(response: OverpassResponse, language: string, dist: (real, real) -> real)
    ensures var out := FetchWatchItems(response, language, dist);
      && (!response.ok ==> out == [])
      && |out| <= LimitPerStop
      && SortedByDistance(out)
      && (response.ok ==>
            var survivors := Survivors(response.elements, language, dist);
            && multiset(out) <= multiset(survivors)
            && (|survivors| <= LimitPerStop ==> multiset(out) == multiset(survivors))
            && forall x, y :: x in multiset(survivors) - multiset(out) && y in out ==> y.distanceKm <= x.distanceKm)
  {
    if response.ok {
      NearestFirst(Survivors(response.elements, language, dist));
    }
  }
}
