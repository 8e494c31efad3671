/** The place search box of components/SearchBar.tsx: the query and its results, which result
    the keyboard points at, turning a result into a stop and adding it to the trip unless the
    trip already has it, and when a search is issued at all. The geocoding service's answer
    and JavaScript's `Number(text)` are parameters. */
module SearchBar {
  import opened Types
  import opened Text
  import TripProvider

  /** A search is issued only for at least this many characters once trimmed. */
  const MinQueryLength := 2

  /** `{ place_id, display_name, lat, lon }` as the geocoding service sends it. */
  datatype PlaceResult = PlaceResult(placeId: string, displayName: string, lat: string, lon: string)

  /** `resultToLocation(result)`: the place id is the stop's id, the display name its name,
      and the coordinate texts are read as numbers by `toNumber`. */
  function ResultToLocation(result: PlaceResult, toNumber: string -> real): (r: Location)
    ensures r.id == result.placeId && r.name == result.displayName
    ensures r.lat == toNumber(result.lat) && r.lng == toNumber(result.lon)
  {
    Location(result.placeId, result.displayName, toNumber(result.lat), toNumber(result.lon))
  }

  /** The trip after selecting a result: its stop is appended unless a stop has its id. */
  function AfterSelect(locations: seq<Location>, result: PlaceResult, toNumber: string -> real): (r: seq<Location>)
    ensures |locations| <= |r| <= |locations| + 1
    ensures r[..|locations|] == locations
  {
    var location := ResultToLocation(result, toNumber);
    if HasId(locations, location.id) then locations else locations + [location]
  }

  predicate DistinctIds(locations: seq<Location>)
  {
    forall i, j :: 0 <= i < j < |locations| ==> locations[i].id != locations[j].id
  }

  /** After selecting, the trip has a stop with the result's id; the stops it had stay in
      place; and selecting the same result again changes nothing. */
  lemma SelectAddsOnce(locations: seq<Location>, result: PlaceResult, toNumber: string -> real)
    ensures var after := AfterSelect(locations, result, toNumber);
      && HasId(after, result.placeId)
      && after[..|locations|] == locations
      && |after| <= |locations| + 1
      && AfterSelect(after, result, toNumber) == after
  {
    var after := AfterSelect(locations, result, toNumber);
    if !HasId(locations, result.placeId) {
      assert after[|locations|].id == result.placeId;
    }
  }

  /** Selecting never gives two stops the same id. */
  lemma SelectKeepsIdsDistinct(locations: seq<Location>, result: PlaceResult, toNumber: string -> real)
    requires DistinctIds(locations)
    ensures DistinctIds(AfterSelect(locations, result, toNumber))
  {
    var after := AfterSelect(locations, result, toNumber);
    if !HasId(locations, result.placeId) {
      forall i, j | 0 <= i < j < |after|
        ensures after[i].id != after[j].id
      {
        if j == |locations| {
          assert after[i] == locations[i];
        }
      }
    }
  }

  /** `results[activeIndex] ?? results[0]`, and nothing when there are no results. */
  function Chosen(results: seq<PlaceResult>, activeIndex: int): (r: Option<PlaceResult>)
    ensures r.None? <==> results == []
    ensures r.Some? && 0 <= activeIndex < |results| ==> r.value == results[activeIndex]
    ensures r.Some? && !(0 <= activeIndex < |results|) ==> r.value == results[0]
  {
    if results == [] then None
    else if 0 <= activeIndex < |results| then Some(results[activeIndex])
    else Some(results[0])
  }

  /** The submitted result is always one of the listed ones. */
  lemma ChosenIsListed(results: seq<PlaceResult>, activeIndex: int)
    requires results != []
    ensures Chosen(results, activeIndex).value in results
  {
  }

  /** `query.trim().length >= 2`: whether the search effect issues a request. JavaScript counts
      the length in UTF-16 code units, so one character outside the Basic Multilingual Plane
      (an emoji, say) is already long enough. */
  predicate ShouldSearch(query: string)
  {
    Utf16Length(Trim(query)) >= MinQueryLength
  }

  /** The query holds two characters that are not whitespace. */
  predicate TwoVisible(query: string)
  {
    exists a, b :: 0 <= a < b < |query| && !IsJsWhitespace(query[a]) && !IsJsWhitespace(query[b])
  }

  /** The query holds a character that JavaScript stores as two code units. */
  predicate HasAstral(query: string)
  {
    exists a :: 0 <= a < |query| && CodeUnits(query[a]) == 2
  }

  /** A searched query holds two characters that are not whitespace (the ends of its trimmed
      text), or its trimmed text is a single character of two code units. */
  lemma SearchedIsVisible(query: string)
    requires ShouldSearch(query)
    ensures TwoVisible(query) || HasAstral(query)
  {
    var i, j := TrimBounds(query);
    var t := Trim(query);
    SliceEnds(query, i, j);
    if |t| >= 2 {
      assert 0 <= i < j - 1 < |query| && !IsJsWhitespace(query[i]) && !IsJsWhitespace(query[j - 1]);
    } else {
      assert Utf16Length(t) == CodeUnits(t[0]);
      assert CodeUnits(query[i]) == 2;
    }
  }

  /** Two characters that are not whitespace make a query searched: trimming keeps both. */
  lemma TwoVisibleIsSearched(query: string, a: nat, b: nat)
    requires a < b < |query| && !IsJsWhitespace(query[a]) && !IsJsWhitespace(query[b])
    ensures ShouldSearch(query)
  {
    var i, j := TrimSlice(query);
    assert i <= a && b < j;
  }

  /** A character of two code units makes a query searched: it is not whitespace, so trimming
      keeps it. */
  lemma AstralIsSearched(query: string, a: nat)
    requires a < |query| && CodeUnits(query[a]) == 2
    ensures ShouldSearch(query)
  {
    var i, j := TrimSlice(query);
    assert !IsJsWhitespace(query[a]);
    assert i <= a < j;
    var t := Trim(query);
    assert t[a - i] == query[a];
    Utf16LengthCovers(t, a - i);
  }

  /** A query is searched exactly when it holds two characters that are not whitespace or one
      character of two code units. */
  lemma ShouldSearchIffVisible(query: string)
    ensures ShouldSearch(query) <==> TwoVisible(query) || HasAstral(query)
  {
    if ShouldSearch(query) {
      SearchedIsVisible(query);
    }
    if TwoVisible(query) {
      var a, b :| 0 <= a < b < |query| && !IsJsWhitespace(query[a]) && !IsJsWhitespace(query[b]);
      TwoVisibleIsSearched(query, a, b);
    }
    if HasAstral(query) {
      var a :| 0 <= a < |query| && CodeUnits(query[a]) == 2;
      AstralIsSearched(query, a);
    }
  }

  /** The search box's state slots. */
  class SearchBox {
    var query: string
    var results: seq<PlaceResult>
    var isLoading: bool
    var activeIndex: int

    /** An empty box. */
    constructor()
      ensures query == "" && results == [] && !isLoading && activeIndex == 0
    {
      query := "";
      results := [];
      isLoading := false;
      activeIndex := 0;
    }

    /** The input's `onChange`: the query follows the text, and a text too short to search
        clears the results, points at the first one and stops loading. */
    method OnChange(value: string)
      modifies this
      ensures query == value
      ensures (results, activeIndex, isLoading)
              == if ShouldSearch(value) then (old(results), old(activeIndex), old(isLoading)) else ([], 0, false)
    {
      query := value;
      if !ShouldSearch(value) {
        results, activeIndex, isLoading := [], 0, false;
      }
    }

    /** The search effect once its delay has passed and the answer has come back: nothing for
        a short query; otherwise the results are the service's answer for the trimmed query,
        the first one is pointed at and loading is over. */
    method Search(language: string, answer: (string, string) -> seq<PlaceResult>)
      modifies this
      ensures query == old(query)
      ensures ShouldSearch(query) ==> results == answer(Trim(query), language) && activeIndex == 0 && !isLoading
      ensures !ShouldSearch(query) ==> results == old(results) && activeIndex == old(activeIndex) && isLoading == old(isLoading)
    {
      var issued := ShouldSearch(query);
      if issued {
        results, activeIndex, isLoading := answer(Trim(query), language), 0, false;
      }
    }

    /** A result row under the mouse becomes the active one. */
    method Hover(index: int)
      modifies this`activeIndex
      ensures activeIndex == index
    {
      activeIndex := index;
    }

    /** `handleSelect(result)`: the result's stop is added unless the trip has its id, and the
        query and results are cleared. */
    method Select(result: PlaceResult, toNumber: string -> real, store: TripProvider.TripStore)
      requires store.Valid()
      modifies this`query, this`results, store`locations, store`storage
      ensures store.locations == AfterSelect(old(store.locations), result, toNumber)
      ensures store.hydrated ==>
        store.storage == old(store.storage)[TripProvider.StorageKey := store.codec.stringify(store.language, store.locations)]
      ensures !store.hydrated ==> store.storage == old(store.storage)
      ensures HasId(old(store.locations), result.placeId) ==> store.storage == old(store.storage)
      ensures store.Valid()
      ensures query == "" && results == []
    {
      var location := ResultToLocation(result, toNumber);
      if !HasId(store.locations, location.id) {
        store.AddLocation(location);
      }
      query := "";
      results := [];
    }

    /** `handleSubmit`: with no results nothing happens; otherwise the active result, or the
        first one when the active index points at none, is selected. */
    method Submit(toNumber: string -> real, store: TripProvider.TripStore)
      requires store.Valid()
      modifies this`query, this`results, store`locations, store`storage
      ensures store.Valid()
      ensures store.hydrated ==>
        store.storage == old(store.storage)[TripProvider.StorageKey := store.codec.stringify(store.language, store.locations)]
      ensures !store.hydrated ==> store.storage == old(store.storage)
      ensures old(results) == [] ==> query == old(query) && results == old(results)
                                     && store.locations == old(store.locations) && store.storage == old(store.storage)
      ensures old(results) != [] ==>
        && store.locations == AfterSelect(old(store.locations), Chosen(old(results), activeIndex).value, toNumber)
        && query == "" && results == []
    {
      var chosen := Chosen(results, activeIndex);
      if chosen.None? {
        return;
      }
      Select(chosen.value, toNumber, store);
    }
  }
}
