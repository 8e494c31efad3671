/** The "watch nearby" panel of components/TripWatchlist.tsx: which stops it looks around
    (the first five), the groups of nearby points of interest it loads for them, the set of
    categories the traveller has switched on, the items it then shows, and the rule that
    turns an item into a stop of the trip. The points-of-interest service's answer for a
    stop and radius, and the distance from a stop, are parameters. */
module TripWatchlist {
  import opened Types
  import Overpass
  import TripProvider

  /** Only the first this-many stops are looked around. */
  const MaxActiveStops := 5

  /** The search radius the panel starts with, in kilometres. */
  const DefaultRadiusKm := 3

  const WatchPrefix := "watch-"

  /** Every category is switched on at first. */
  const InitialSelection: set<string> := {
    Overpass.Attraction, Overpass.Museum, Overpass.Viewpoint, Overpass.Heritage,
    Overpass.Temple, Overpass.Park, Overpass.Beach, Overpass.Waterfall}

  /** The localised category names the panel shows. */
  datatype CategoryStrings = CategoryStrings(
    attraction: string, museum: string, viewpoint: string, heritage: string,
    temple: string, park: string, beach: string, waterfall: string)

  datatype CategoryOption = CategoryOption(key: string, title: string)

  datatype WatchGroup = WatchGroup(location: Location, items: seq<Overpass.WatchItem>)

  /** `categoryLabel(category, strings)`: the seven named categories have their own names and
      anything else is shown as an attraction. */
  function CategoryLabel(category: string, strings: CategoryStrings): (r: string)
    ensures category !in InitialSelection ==> r == strings.attraction
  {
    if category == Overpass.Museum then strings.museum
    else if category == Overpass.Viewpoint then strings.viewpoint
    else if category == Overpass.Heritage then strings.heritage
    else if category == Overpass.Temple then strings.temple
    else if category == Overpass.Park then strings.park
    else if category == Overpass.Beach then strings.beach
    else if category == Overpass.Waterfall then strings.waterfall
    else strings.attraction
  }

  /** `categoryOptions`: the filter buttons, one per category, in display order. */
  function CategoryOptions(strings: CategoryStrings): seq<CategoryOption>
  {
    [ CategoryOption(Overpass.Attraction, strings.attraction),
      CategoryOption(Overpass.Museum, strings.museum),
      CategoryOption(Overpass.Viewpoint, strings.viewpoint),
      CategoryOption(Overpass.Heritage, strings.heritage),
      CategoryOption(Overpass.Temple, strings.temple),
      CategoryOption(Overpass.Park, strings.park),
      CategoryOption(Overpass.Beach, strings.beach),
      CategoryOption(Overpass.Waterfall, strings.waterfall) ]
  }

  /** The filter buttons cover exactly the categories switched on at first. */
  lemma OptionsCoverSelection(strings: CategoryStrings)
    ensures var options := CategoryOptions(strings);
      forall c :: c in InitialSelection <==> exists i :: 0 <= i < |options| && options[i].key == c
  {
    var options := CategoryOptions(strings);
    forall c | c in InitialSelection
      ensures exists i :: 0 <= i < |options| && options[i].key == c
    {
      if c == Overpass.Attraction { assert options[0].key == c; }
      else if c == Overpass.Museum { assert options[1].key == c; }
      else if c == Overpass.Viewpoint { assert options[2].key == c; }
      else if c == Overpass.Heritage { assert options[3].key == c; }
      else if c == Overpass.Temple { assert options[4].key == c; }
      else if c == Overpass.Park { assert options[5].key == c; }
      else if c == Overpass.Beach { assert options[6].key == c; }
      else { assert options[7].key == c; }
    }
  }

  /** No category has two filter buttons. */
  lemma OptionKeysDistinct(strings: CategoryStrings)
    ensures var options := CategoryOptions(strings);
      forall i, j :: 0 <= i < j < |options| ==> options[i].key != options[j].key
  {
    var options := CategoryOptions(strings);
    assert options[0].key[0] == 'a' && options[1].key[0] == 'm' && options[2].key[0] == 'v'
        && options[3].key[0] == 'h' && options[4].key[0] == 't' && options[5].key[0] == 'p'
        && options[6].key[0] == 'b' && options[7].key[0] == 'w';
    forall i, j | 0 <= i < j < |options|
      ensures options[i].key != options[j].key
    {
      assert options[i].key[0] != options[j].key[0];
    }
  }

  /** Each filter button carries the name the item rows show for its category. */
  lemma OptionsAgreeWithLabels(strings: CategoryStrings)
    ensures var options := CategoryOptions(strings);
      forall i :: 0 <= i < |options| ==> CategoryLabel(options[i].key, strings) == options[i].title
  {
    OptionKeysDistinct(strings);
  }

  /** The categories switched on at first are the whole taxonomy items are classified into. */
  lemma InitialSelectionIsTaxonomy()
    ensures InitialSelection == Overpass.Categories
    ensures forall tags :: Overpass.PickCategory(tags) in InitialSelection
  {
  }

  /** `new Set(prev)` with `category` deleted when present and added when absent. */
  function Toggled(selected: set<string>, category: string): (r: set<string>)
    ensures category in r <==> category !in selected
  {
    if category in selected then selected - {category} else selected + {category}
  }

  /** Toggling touches no other category. */
  lemma ToggledLeavesOthers(selected: set<string>, category: string)
    ensures forall c :: c != category ==> (c in Toggled(selected, category) <==> c in selected)
  {
  }

  /** Toggling the same category twice restores the selection. */
  lemma ToggleTwice(selected: set<string>, category: string)
    ensures Toggled(Toggled(selected, category), category) == selected
  {
  }

  /** `locations.slice(0, 5)` */
  function ActiveLocations(locations: seq<Location>): (r: seq<Location>)
    ensures |r| == if |locations| < MaxActiveStops then |locations| else MaxActiveStops
    ensures forall i :: 0 <= i < |r| ==> r[i] == locations[i]
  {
    locations[..if |locations| < MaxActiveStops then |locations| else MaxActiveStops]
  }

  /** `fetchWatchItems(location, language, radiusKm * 1000)` for one stop, given the service's
      answer for that stop and radius in metres and the distance from that stop. */
  function StopItems(
    location: Location, language: string, radiusKm: int,
    answer: (Location, int) -> Overpass.OverpassResponse,
    distance: Location -> ((real, real) -> real)): seq<Overpass.WatchItem>
  {
    Overpass.FetchWatchItems(answer(location, radiusKm * 1000), language, distance(location))
  }

  /** The loop of `load`: one group per active stop, fetched one after the other. */
  method LoadGroups(
    active: seq<Location>, language: string, radiusKm: int,
    answer: (Location, int) -> Overpass.OverpassResponse,
    distance: Location -> ((real, real) -> real)) returns (results: seq<WatchGroup>)
    ensures |results| == |active|
    ensures forall i :: 0 <= i < |active| ==>
      results[i] == WatchGroup(active[i], StopItems(active[i], language, radiusKm, answer, distance))
  {
    results := [];
    for k := 0 to |active|
      invariant |results| == k
      invariant forall i :: 0 <= i < k ==>
        results[i] == WatchGroup(active[i], StopItems(active[i], language, radiusKm, answer, distance))
    {
      var items := StopItems(active[k], language, radiusKm, answer, distance);
      results := results + [WatchGroup(active[k], items)];
    }
  }

  /** Each loaded group holds at most four items, nearest first, all of known categories. */
  lemma StopItemsShape(
    location: Location, language: string, radiusKm: int,
    answer: (Location, int) -> Overpass.OverpassResponse,
    distance: Location -> ((real, real) -> real))
    ensures var items := StopItems(location, language, radiusKm, answer, distance);
      && |items| <= Overpass.LimitPerStop
      && Overpass.SortedByDistance(items)
      && forall x :: x in items ==> x.category in InitialSelection
  {
    var response := answer(location, radiusKm * 1000);
    var dist := distance(location);
    var items := StopItems(location, language, radiusKm, answer, distance);
    Overpass.WatchItemsAreNearest(response, language, dist);
    if response.ok {
      var survivors := Overpass.Survivors(response.elements, language, dist);
      forall x | x in items
        ensures x.category in InitialSelection
      {
        assert x in multiset(items);
        assert x in multiset(survivors);
        assert x in survivors;
        var e :| e in response.elements && Overpass.ToItem(e, language, dist) == Some(x);
        assert x.category == Overpass.PickCategory(e.tags);
      }
    }
  }

  /** `group.items.filter((item) => selectedCategories.has(item.category))` */
  function Visible(items: seq<Overpass.WatchItem>, selected: set<string>): (r: seq<Overpass.WatchItem>)
    ensures |r| <= |items|
  {
    if items == [] then []
    else (if items[0].category in selected then [items[0]] else []) + Visible(items[1..], selected)
  }

  /** An item is shown exactly when it is in the group and its category is switched on. */
  lemma {:induction false} VisibleMembers(items: seq<Overpass.WatchItem>, selected: set<string>)
    ensures forall x :: x in Visible(items, selected) <==> x in items && x.category in selected
  {
    if items != [] {
      VisibleMembers(items[1..], selected);
      assert items == [items[0]] + items[1..];
    }
  }

  /** Filtering works piece by piece, so shown items keep the group's order. */
  lemma {:induction false} VisibleDistributes(a: seq<Overpass.WatchItem>, b: seq<Overpass.WatchItem>, selected: set<string>)
    ensures Visible(a + b, selected) == Visible(a, selected) + Visible(b, selected)
  {
    if a != [] {
      assert (a + b)[0] == a[0] && (a + b)[1..] == a[1..] + b;
      VisibleDistributes(a[1..], b, selected);
      var head := if a[0].category in selected then [a[0]] else [];
      assert head + (Visible(a[1..], selected) + Visible(b, selected))
             == (head + Visible(a[1..], selected)) + Visible(b, selected);
    } else {
      assert a + b == b;
    }
  }

  /** With every category of a group switched on, the whole group is shown. */
  lemma {:induction false} VisibleAll(items: seq<Overpass.WatchItem>, selected: set<string>)
    requires forall x :: x in items ==> x.category in selected
    ensures Visible(items, selected) == items
  {
    if items != [] {
      assert forall x :: x in items[1..] ==> x in items;
      VisibleAll(items[1..], selected);
      assert items == [items[0]] + items[1..];
    }
  }

  /** With the initial selection, every loaded item is shown. */
  lemma InitiallyAllShown(
    location: Location, language: string, radiusKm: int,
    answer: (Location, int) -> Overpass.OverpassResponse,
    distance: Location -> ((real, real) -> real))
    ensures var items := StopItems(location, language, radiusKm, answer, distance);
      Visible(items, InitialSelection) == items
  {
    StopItemsShape(location, language, radiusKm, answer, distance);
    VisibleAll(StopItems(location, language, radiusKm, answer, distance), InitialSelection);
  }

  /** `watch-${item.id}`: the id an added item gets as a stop. */
  function WatchLocationId(itemId: string): (r: string)
    ensures |r| == |WatchPrefix| + |itemId|
    ensures r[..|WatchPrefix|] == WatchPrefix && r[|WatchPrefix|..] == itemId
  {
    WatchPrefix + itemId
  }

  /** Different items become different stops. */
  lemma WatchLocationIdInjective(a: string, b: string)
    requires WatchLocationId(a) == WatchLocationId(b)
    ensures a == b
  {
    assert a == WatchLocationId(a)[|WatchPrefix|..];
  }

  /** The stop an item is added as. */
  function WatchLocation(item: Overpass.WatchItem): (r: Location)
    ensures r.id == WatchLocationId(item.id)
    ensures r.name == item.name && r.lat == item.lat && r.lng == item.lng
  {
    Location(WatchLocationId(item.id), item.name, item.lat, item.lng)
  }

  /** `existingIds`: the ids of the trip's stops. */
  function ExistingIds(locations: seq<Location>): (ids: set<string>)
    ensures forall id :: id in ids <==> HasId(locations, id)
  {
    set i | 0 <= i < |locations| :: locations[i].id
  }

  /** `existingIds.has(`watch-${item.id}`)`: the add button is disabled. */
  predicate IsAdded(locations: seq<Location>, item: Overpass.WatchItem)
  {
    WatchLocationId(item.id) in ExistingIds(locations)
  }

  /** Once added, an item's button is disabled, and an item that was not yet added stays
      addable after adding a different one. */
  lemma AddThenAdded(locations: seq<Location>, item: Overpass.WatchItem, other: Overpass.WatchItem)
    ensures IsAdded(locations + [WatchLocation(item)], item)
    ensures other.id != item.id ==>
      (IsAdded(locations + [WatchLocation(item)], other) <==> IsAdded(locations, other))
  {
    var added := locations + [WatchLocation(item)];
    assert added[|locations|].id == WatchLocationId(item.id);
    if other.id != item.id {
      if WatchLocationId(other.id) == WatchLocationId(item.id) {
        WatchLocationIdInjective(other.id, item.id);
      }
      if HasId(added, WatchLocationId(other.id)) {
        var i :| 0 <= i < |added| && added[i].id == WatchLocationId(other.id);
        assert i < |locations|;
        assert locations[i].id == WatchLocationId(other.id);
      }
      if HasId(locations, WatchLocationId(other.id)) {
        var i :| 0 <= i < |locations| && locations[i].id == WatchLocationId(other.id);
        assert added[i].id == WatchLocationId(other.id);
      }
    }
  }

  /** Removing the stop an item became makes the item addable again. */
  lemma RemoveThenAddable(locations: seq<Location>, item: Overpass.WatchItem)
    ensures !IsAdded(TripProvider.Removed(locations, WatchLocationId(item.id)), item)
  {
    TripProvider.RemovedMembers(locations, WatchLocationId(item.id));
  }

  /** The panel's state slots. */
  class Watchlist {
    var groups: seq<WatchGroup>
    var isLoading: bool
    var radiusKm: int
    var selected: set<string>

    /** No groups, not loading, a 3 km radius and every category on. */
    constructor()
      ensures groups == [] && !isLoading && radiusKm == DefaultRadiusKm && selected == InitialSelection
    {
      groups := [];
      isLoading := false;
      radiusKm := DefaultRadiusKm;
      selected := InitialSelection;
    }

    /** `toggleCategory(category)`: the selection is copied and the category flipped in it. */
    method ToggleCategory(category: string)
      modifies this`selected
      ensures selected == Toggled(old(selected), category)
    {
      var next := selected;
      if category in next {
        next := next - {category};
      } else {
        next := next + {category};
      }
      selected := next;
    }

    /** The radius slider. */
    method SetRadius(radiusKm: int)
      modifies this`radiusKm
      ensures this.radiusKm == radiusKm
    {
      this.radiusKm := radiusKm;
    }

    /** The loading effect run to completion: with no stops the groups are emptied at once;
        otherwise one group is loaded for each of the first five stops, in order. Either way
        loading is over at the end. */
    method Refresh(
      locations: seq<Location>, language: string,
      answer: (Location, int) -> Overpass.OverpassResponse,
      distance: Location -> ((real, real) -> real))
      modifies this`groups, this`isLoading
      ensures !isLoading
      ensures locations == [] ==> groups == []
      ensures var active := ActiveLocations(locations);
        && |groups| == |active|
        && forall i :: 0 <= i < |active| ==>
             groups[i] == WatchGroup(locations[i], StopItems(locations[i], language, radiusKm, answer, distance))
    {
      var active := ActiveLocations(locations);
      if |active| == 0 {
        groups := [];
        isLoading := false;
        return;
      }
      isLoading := true;
      var results := LoadGroups(active, language, radiusKm, answer, distance);
      groups := results;
      isLoading := false;
    }

  }
}
