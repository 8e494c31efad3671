/** The shared record types of the trip planner (lib/types.ts) and the
    optional-value wrapper that stands in for JavaScript's `null`/`undefined`. */
module Types {

  /** `T | null | undefined` */
  datatype Option<T> = None | Some(value: T) {
    /** The `??` operator: the value when present, otherwise `default`. */
    function GetOr(default: T): T {
      match this
      case Some(v) => v
      case None => default
    }
  }

  /** A stop of the trip. Coordinates are JavaScript numbers, modelled as exact reals. */
  datatype Location = Location(id: string, name: string, lat: real, lng: real)

  datatype MealSuggestions = MealSuggestions(breakfast: string, lunch: string, dinner: string)

  /** One `{ id, minutes }` entry of a plan's visit-time estimates. */
  datatype TimeEstimate = TimeEstimate(id: string, minutes: int)

  /** A suggested plan: the stop order, where to stay, meal ideas and per-stop estimates. */
  datatype OptimizedTrip = OptimizedTrip(
    order: seq<string>,
    stayArea: string,
    mealSuggestions: MealSuggestions,
    timeEstimates: seq<TimeEstimate>)

  /** The ids of a list of stops, in order. */
  function Ids(locations: seq<Location>): (ids: seq<string>)
    ensures |ids| == |locations|
    ensures forall i :: 0 <= i < |locations| ==> ids[i] == locations[i].id
  {
    seq(|locations|, i requires 0 <= i < |locations| => locations[i].id)
  }

  /** `new Set(locations.map((loc) => loc.id)).has(id)` */
  predicate HasId(locations: seq<Location>, id: string)
  {
    exists i :: 0 <= i < |locations| && locations[i].id == id
  }
}
