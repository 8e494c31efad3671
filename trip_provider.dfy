/** The trip store of components/TripProvider.tsx: the chosen language and the list of
    stops, the add / remove / clear updates of that list, and the saving and restoring of
    both under one storage key. The browser's storage is a map from keys to texts, and the
    JSON text format is a pair of parameters (`stringify`, and `parse` returning an
    abstract parse outcome), so what is modelled is the defaulting and the write rules. */
module TripProvider {
  import opened Types

  const StorageKey := "sawariya_trip"
  const DefaultLanguage := "en"

  /** What `JSON.parse(raw)` yields, as far as `readStoredTrip` looks at it: a syntax error,
      the JSON literal `null` (whose `.language` then throws), or any other value with its
      `language` (absent for `undefined` or `null`) and its `locations` (absent when it is
      not an array). */
  datatype Parsed =
    | Unparsable
    | JsonNull
    | JsonValue(language: Option<string>, locations: Option<seq<Location>>)

  datatype StoredTrip = StoredTrip(language: string, locations: seq<Location>)

  /** The JSON text format of the saved trip. */
  datatype Codec = Codec(stringify: (string, seq<Location>) -> string, parse: string -> Parsed)

  /** `localStorage.getItem(key)`: the text under the key, if any. */
  function Lookup(storage: map<string, string>, key: string): (r: Option<string>)
    ensures r.Some? <==> key in storage
    ensures r.Some? ==> r.value == storage[key]
  {
    if key in storage then Some(storage[key]) else None
  }

  /** `readStoredTrip()` given what the storage holds under the key: nothing is restored
      from a missing or empty text, a text that does not parse, or the JSON `null`
      (the exception is caught); otherwise a missing language is English and locations
      that are not an array are an empty list. */
  function ReadStoredTrip(raw: Option<string>, parse: string -> Parsed): (r: Option<StoredTrip>)
    ensures r.None? <==> raw.None? || raw.value == "" || parse(raw.value).Unparsable? || parse(raw.value).JsonNull?
    ensures r.Some? ==> var parsed := parse(raw.value);
      && (parsed.language.None? ==> r.value.language == DefaultLanguage)
      && (parsed.language.Some? ==> r.value.language == parsed.language.value)
      && (parsed.locations.None? ==> r.value.locations == [])
      && (parsed.locations.Some? ==> r.value.locations == parsed.locations.value)
  {
    if raw.None? || raw.value == "" then None
    else match parse(raw.value)
      case Unparsable => None
      case JsonNull => None
      case JsonValue(language, locations) =>
        Some(StoredTrip(language.GetOr(DefaultLanguage), locations.GetOr([])))
  }

  /** A codec whose `parse` reads back what `stringify` wrote, and whose texts are never
      empty (a JSON object always has its braces). */
  predicate RoundTrips(codec: Codec, language: string, locations: seq<Location>)
  {
    && codec.stringify(language, locations) != ""
    && codec.parse(codec.stringify(language, locations)) == JsonValue(Some(language), Some(locations))
  }

  /** What was saved is what is restored. */
  lemma SavedTripRestores(codec: Codec, storage: map<string, string>, language: string, locations: seq<Location>)
    requires StorageKey in storage && storage[StorageKey] == codec.stringify(language, locations)
    requires RoundTrips(codec, language, locations)
    ensures ReadStoredTrip(Lookup(storage, StorageKey), codec.parse) == Some(StoredTrip(language, locations))
  {
  }

  /** `prev.filter((item) => item.id !== id)` */
  function Removed(locations: seq<Location>, id: string): (r: seq<Location>)
    ensures |r| <= |locations|
  {
    if locations == [] then []
    else (if locations[0].id == id then [] else [locations[0]]) + Removed(locations[1..], id)
  }

  /** Removing keeps exactly the entries with other ids: no entry with the id is left. */
  lemma {:induction false} RemovedMembers(locations: seq<Location>, id: string)
    ensures forall x :: x in Removed(locations, id) <==> x in locations && x.id != id
    ensures !HasId(Removed(locations, id), id)
  {
    if locations != [] {
      RemovedMembers(locations[1..], id);
      var r := Removed(locations, id);
      assert locations == [locations[0]] + locations[1..];
      forall i | 0 <= i < |r|
        ensures r[i].id != id
      {
        assert r[i] in r;
      }
    }
  }

  /** Removing works piece by piece, so the kept entries stay in their order. */
  lemma {:induction false} RemovedDistributes(a: seq<Location>, b: seq<Location>, id: string)
    ensures Removed(a + b, id) == Removed(a, id) + Removed(b, id)
  {
    if a != [] {
      assert (a + b)[0] == a[0] && (a + b)[1..] == a[1..] + b;
      RemovedDistributes(a[1..], b, id);
      var head := if a[0].id == id then [] else [a[0]];
      assert head + (Removed(a[1..], id) + Removed(b, id)) == (head + Removed(a[1..], id)) + Removed(b, id);
    } else {
      assert a + b == b;
    }
  }

  /** Removing an id that no entry has changes nothing. */
  lemma {:induction false} RemovedAbsent(locations: seq<Location>, id: string)
    requires !HasId(locations, id)
    ensures Removed(locations, id) == locations
  {
    if locations != [] {
      assert locations[0].id != id;
      forall i | 0 <= i < |locations| - 1
        ensures locations[1..][i].id != id
      {
        assert locations[1..][i] == locations[i + 1];
      }
      RemovedAbsent(locations[1..], id);
      assert locations == [locations[0]] + locations[1..];
    }
  }

  /** Removing twice is removing once. */
  lemma RemovedIdempotent(locations: seq<Location>, id: string)
    ensures Removed(Removed(locations, id), id) == Removed(locations, id)
  {
    RemovedMembers(locations, id);
    RemovedAbsent(Removed(locations, id), id);
  }

  /** The provider's state slots (`language`, `locations`, `hydratedRef.current`) together
      with the storage they are saved to. */
  class TripStore {
    var language: string
    var locations: seq<Location>
    var hydrated: bool
    var storage: map<string, string>
    const codec: Codec

    /** Once the saved trip has been read, the storage holds the current state. */
    predicate Valid()
      reads this
    {
      hydrated ==> StorageKey in storage && storage[StorageKey] == codec.stringify(language, locations)
    }

    /** The first render: English, no stops, nothing read yet, the storage as the browser has it. */
    constructor(storage: map<string, string>, codec: Codec)
      ensures language == DefaultLanguage && locations == [] && !hydrated
      ensures this.storage == storage && this.codec == codec
      ensures Valid()
    {
      language := DefaultLanguage;
      locations := [];
      hydrated := false;
      this.storage := storage;
      this.codec := codec;
    }

    /** The saving effect: it writes the state under the key, and does nothing before the
        saved trip has been read. */
    method Persist()
      modifies this`storage
      ensures hydrated ==> storage == old(storage)[StorageKey := codec.stringify(language, locations)]
      ensures !hydrated ==> storage == old(storage)
      ensures Valid()
    {
      if hydrated {
        storage := storage[StorageKey := codec.stringify(language, locations)];
      }
    }

    /** The mounting effects, in order: the saved trip is read and the flag raised; the saving
        effect of that same first commit writes the state it was rendered with; and when a trip
        was restored, the state takes its values and the next commit saves those. */
    method Mount()
      requires !hydrated
      modifies this
      ensures hydrated
      ensures var stored := ReadStoredTrip(Lookup(old(storage), StorageKey), codec.parse);
        && (stored.Some? ==> language == stored.value.language && locations == stored.value.locations)
        && (stored.None? ==> language == old(language) && locations == old(locations))
      ensures storage == old(storage)[StorageKey := codec.stringify(language, locations)]
      ensures Valid()
    {
      var stored := ReadStoredTrip(Lookup(storage, StorageKey), codec.parse);
      hydrated := true;
      Persist();
      if stored.Some? {
        language := stored.value.language;
        locations := stored.value.locations;
        Persist();
      }
    }

    /** `addLocation`: the stop goes at the end, duplicates included. */
    method AddLocation(location: Location)
      requires Valid()
      modifies this`locations, this`storage
      ensures locations == old(locations) + [location]
      ensures hydrated ==> storage == old(storage)[StorageKey := codec.stringify(language, locations)]
      ensures !hydrated ==> storage == old(storage)
      ensures Valid()
    {
      locations := locations + [location];
      Persist();
    }

    /** `removeLocation`: every stop with the id goes, the others stay in order. */
    method RemoveLocation(id: string)
      requires Valid()
      modifies this`locations, this`storage
      ensures locations == Removed(old(locations), id)
      ensures hydrated ==> storage == old(storage)[StorageKey := codec.stringify(language, locations)]
      ensures !hydrated ==> storage == old(storage)
      ensures Valid()
    {
      locations := Removed(locations, id);
      Persist();
    }

    /** `clearLocations` */
    method ClearLocations()
      requires Valid()
      modifies this`locations, this`storage
      ensures locations == []
      ensures hydrated ==> storage == old(storage)[StorageKey := codec.stringify(language, [])]
      ensures !hydrated ==> storage == old(storage)
      ensures Valid()
    {
      locations := [];
      Persist();
    }

    /** `setLanguage` */
    method SetLanguage(language: string)
      requires Valid()
      modifies this`language, this`storage
      ensures this.language == language
      ensures hydrated ==> storage == old(storage)[StorageKey := codec.stringify(language, locations)]
      ensures !hydrated ==> storage == old(storage)
      ensures Valid()
    {
      this.language := language;
      Persist();
    }
  }
}
