/** The routing client of lib/osrm.ts with the network call abstracted: the
    response the routing service gives is a parameter, and what remains is the
    coordinate path of the request and the post-processing of the answer (the
    1.3 local-travel buffer, per-leg arrays and totals, the coordinate swap).
    JavaScript numbers are modelled as exact reals. */
module Osrm {
  import opened Types
  import opened Text

  const OsrmBase := "https://router.project-osrm.org/route/v1/driving/"

  /** The local-travel buffer applied to every routed duration. */
  const LankanBuffer: real := 1.3

  /** An HTTP response: whether its status was ok, and its decoded JSON body. */
  datatype Response<B> = Response(ok: bool, body: B)

  /** `{ routes?: [{ legs?: [{ duration, distance }] }] }` */
  datatype Leg = Leg(duration: real, distance: real)
  datatype LegsRoute = LegsRoute(legs: Option<seq<Leg>>)
  datatype LegsBody = LegsBody(routes: Option<seq<LegsRoute>>)

  /** `{ routes?: [{ distance, duration, geometry: { coordinates: [lng, lat][] } }] }` */
  datatype GeometryRoute = GeometryRoute(distance: real, duration: real, coordinates: seq<(real, real)>)
  datatype RouteBody = RouteBody(routes: Option<seq<GeometryRoute>>)

  datatype RouteData = RouteData(
    coordinates: seq<(real, real)>,
    distanceMeters: real,
    durationSeconds: real,
    durationWithBufferSeconds: real)

  datatype RouteLegs = RouteLegs(
    legDurationsSeconds: seq<real>,
    legDurationsWithBufferSeconds: seq<real>,
    legDistancesMeters: seq<real>,
    totalDurationWithBufferSeconds: real,
    totalDistanceMeters: real)

  function Sum(xs: seq<real>): real
  {
    if xs == [] then 0.0 else xs[0] + Sum(xs[1..])
  }

  /** `${lng},${lat}` for one stop; `show` is JavaScript's rendering of a number. */
  function CoordinatePair(location: Location, show: real -> string): string
  {
    show(location.lng) + "," + show(location.lat)
  }

  /** `locations.map((l) => `${l.lng},${l.lat}`).join(";")` */
  function CoordinatePath(locations: seq<Location>, show: real -> string): string
  {
    Join(seq(|locations|, i requires 0 <= i < |locations| => CoordinatePair(locations[i], show)), ';')
  }

  /** The path lists one `lng,lat` pair per stop, in stop order: splitting it at `;` gives
      the pairs back, as long as rendered numbers hold no `;`. */
  lemma CoordinatePathPairs(locations: seq<Location>, show: real -> string)
    requires |locations| >= 1
    requires forall x :: ';' !in show(x)
    ensures var pairs := Split(CoordinatePath(locations, show), ';');
      && |pairs| == |locations|
      && forall i :: 0 <= i < |locations| ==> pairs[i] == CoordinatePair(locations[i], show)
  {
    var parts := seq(|locations|, i requires 0 <= i < |locations| => CoordinatePair(locations[i], show));
    forall i | 0 <= i < |parts|
      ensures ';' !in parts[i]
    {
      var l := locations[i];
      assert parts[i] == show(l.lng) + "," + show(l.lat);
      assert ';' !in show(l.lng) && ';' !in show(l.lat);
    }
    SplitJoin(parts, ';');
  }

  /** The query `fetchOsrmRoute` sets: the full geometry, as GeoJSON. */
  const RouteQuery := "?overview=full&geometries=geojson"

  /** The query `fetchOsrmLegDurations` sets: no geometry and no turn-by-turn steps. */
  const LegsQuery := "?overview=false&steps=false"

  /** The request URL of `fetchOsrmRoute`: the service base, the coordinate path, the query. */
  function RouteUrl(locations: seq<Location>, show: real -> string): (url: string)
    ensures |url| == |OsrmBase| + |CoordinatePath(locations, show)| + |RouteQuery|
    ensures url[..|OsrmBase|] == OsrmBase
    ensures url[|url| - |RouteQuery|..] == RouteQuery
  {
    var url := OsrmBase + CoordinatePath(locations, show) + RouteQuery;
    UrlParts(OsrmBase, CoordinatePath(locations, show), RouteQuery);
    url
  }

  /** The request URL of `fetchOsrmLegDurations`: the service base, the coordinate path, the query. */
  function LegsUrl(locations: seq<Location>, show: real -> string): (url: string)
    ensures |url| == |OsrmBase| + |CoordinatePath(locations, show)| + |LegsQuery|
    ensures url[..|OsrmBase|] == OsrmBase
    ensures url[|url| - |LegsQuery|..] == LegsQuery
  {
    var url := OsrmBase + CoordinatePath(locations, show) + LegsQuery;
    UrlParts(OsrmBase, CoordinatePath(locations, show), LegsQuery);
    url
  }

  /** Where the three parts of `base + path + query` sit. */
  lemma UrlParts(base: string, path: string, query: string)
    ensures var url := base + path + query;
      && url[..|base|] == base
      && url[|base|..][..|path|] == path
      && url[|base|..][|path|..] == query
      && url[|url| - |query|..] == query
  {
    var url := base + path + query;
    assert url[..|base|] == base;
    assert url[|base|..] == path + query;
    assert url[|url| - |query|..] == query;
  }

  /** A request URL reads back: after the base, the text up to the first `?` is the coordinate
      path and the rest is the query, as long as rendered numbers hold no `?`. */
  lemma UrlReadsBack(locations: seq<Location>, show: real -> string, query: string)
    requires forall x :: '?' !in show(x)
    requires |query| >= 1 && query[0] == '?'
    ensures var url := OsrmBase + CoordinatePath(locations, show) + query;
      var rest := url[|OsrmBase|..];
      && rest[..IndexOf(rest, '?')] == CoordinatePath(locations, show)
      && rest[IndexOf(rest, '?')..] == query
  {
    var path := CoordinatePath(locations, show);
    var parts := seq(|locations|, i requires 0 <= i < |locations| => CoordinatePair(locations[i], show));
    forall i | 0 <= i < |parts|
      ensures '?' !in parts[i]
    {
      var l := locations[i];
      assert parts[i] == show(l.lng) + "," + show(l.lat);
      assert '?' !in show(l.lng) && '?' !in show(l.lat);
    }
    JoinAvoids(parts, ';', '?');
    UrlParts(OsrmBase, path, query);
    var rest := (OsrmBase + path + query)[|OsrmBase|..];
    assert rest == path + ['?'] + query[1..];
    IndexOfAfterPrefix(path, '?', query[1..]);
  }

  /** `fetchOsrmRoute`'s URL carries the stops' path and its own query. */
  lemma RouteUrlReadsBack(locations: seq<Location>, show: real -> string)
    requires forall x :: '?' !in show(x)
    ensures var rest := RouteUrl(locations, show)[|OsrmBase|..];
      && rest[..IndexOf(rest, '?')] == CoordinatePath(locations, show)
      && rest[IndexOf(rest, '?')..] == RouteQuery
  {
    UrlReadsBack(locations, show, RouteQuery);
  }

  /** `fetchOsrmLegDurations`' URL carries the stops' path and its own query. */
  lemma LegsUrlReadsBack(locations: seq<Location>, show: real -> string)
    requires forall x :: '?' !in show(x)
    ensures var rest := LegsUrl(locations, show)[|OsrmBase|..];
      && rest[..IndexOf(rest, '?')] == CoordinatePath(locations, show)
      && rest[IndexOf(rest, '?')..] == LegsQuery
  {
    UrlReadsBack(locations, show, LegsQuery);
  }

  /** `data.routes?.[0]?.legs`, treating a missing or empty list as absent. */
  function FirstRouteLegs(body: LegsBody): (legs: Option<seq<Leg>>)
    ensures legs.Some? ==> |legs.value| > 0
    ensures legs.Some? <==> body.routes.Some? && |body.routes.value| > 0
                            && body.routes.value[0].legs.Some? && |body.routes.value[0].legs.value| > 0
  {
    match body.routes
    case None => None
    case Some(routes) =>
      if |routes| == 0 then None
      else match routes[0].legs
        case None => None
        case Some(legs) => if |legs| == 0 then None else Some(legs)
  }

  function Durations(legs: seq<Leg>): (r: seq<real>)
    ensures |r| == |legs| && forall i :: 0 <= i < |legs| ==> r[i] == legs[i].duration
  {
    seq(|legs|, i requires 0 <= i < |legs| => legs[i].duration)
  }

  function Distances(legs: seq<Leg>): (r: seq<real>)
    ensures |r| == |legs| && forall i :: 0 <= i < |legs| ==> r[i] == legs[i].distance
  {
    seq(|legs|, i requires 0 <= i < |legs| => legs[i].distance)
  }

  function Buffered(durations: seq<real>): (r: seq<real>)
    ensures |r| == |durations| && forall i :: 0 <= i < |r| ==> r[i] == durations[i] * LankanBuffer
  {
    seq(|durations|, i requires 0 <= i < |durations| => durations[i] * LankanBuffer)
  }

  /** The legs record built from a non-empty list of legs. */
  function LegsOf(legs: seq<Leg>): RouteLegs
  {
    var durations := Durations(legs);
    var buffered := Buffered(durations);
    var distances := Distances(legs);
    RouteLegs(durations, buffered, distances, Sum(buffered), Sum(distances))
  }

  /** `fetchOsrmLegDurations(locations)` given the routing service's `response`. */
  function FetchLegDurations(locations: seq<Location>, response: Response<LegsBody>): (r: Option<RouteLegs>)
    ensures r.None? <==> |locations| < 2 || !response.ok || FirstRouteLegs(response.body).None?
  {
    if |locations| < 2 || !response.ok then None
    else match FirstRouteLegs(response.body)
      case None => None
      case Some(legs) => Some(LegsOf(legs))
  }

  /** Every successful answer has three arrays aligned with the legs, one entry per leg; each
      buffered duration is 1.3 times the raw one; the buffered total is the sum of the
      buffered legs, and also 1.3 times the raw total; the distance total sums the legs. */
  lemma LegDurationsAligned(locations: seq<Location>, response: Response<LegsBody>)
    requires FetchLegDurations(locations, response).Some?
    ensures var legs := FirstRouteLegs(response.body).value;
      var data := FetchLegDurations(locations, response).value;
      && |data.legDurationsSeconds| == |legs|
      && |data.legDurationsWithBufferSeconds| == |legs|
      && |data.legDistancesMeters| == |legs|
      && (forall i :: 0 <= i < |legs| ==>
            && data.legDurationsSeconds[i] == legs[i].duration
            && data.legDurationsWithBufferSeconds[i] == legs[i].duration * LankanBuffer
            && data.legDistancesMeters[i] == legs[i].distance)
      && data.totalDurationWithBufferSeconds == Sum(data.legDurationsWithBufferSeconds)
      && data.totalDurationWithBufferSeconds == Sum(data.legDurationsSeconds) * LankanBuffer
      && data.totalDistanceMeters == Sum(data.legDistancesMeters)
  {
    var legs := FirstRouteLegs(response.body).value;
    BufferedSum(Durations(legs));
  }

  /** Buffering each leg and then summing equals summing and then buffering. */
  lemma {:induction false} BufferedSum(durations: seq<real>)
    ensures Sum(Buffered(durations)) == Sum(durations) * LankanBuffer
  {
    if durations != [] {
      assert Buffered(durations)[1..] == Buffered(durations[1..]);
      BufferedSum(durations[1..]);
    }
  }

  /** `[lng, lat]` to `[lat, lng]` for every point of the geometry. */
  function SwapAll(points: seq<(real, real)>): (r: seq<(real, real)>)
    ensures |r| == |points|
    ensures forall i :: 0 <= i < |points| ==> r[i] == (points[i].1, points[i].0)
  {
    seq(|points|, i requires 0 <= i < |points| => (points[i].1, points[i].0))
  }

  /** Swapping twice restores the geometry. */
  lemma SwapAllTwice(points: seq<(real, real)>)
    ensures SwapAll(SwapAll(points)) == points
  {
  }

  /** `fetchOsrmRoute(locations)` given the routing service's `response`. */
  function FetchRoute(locations: seq<Location>, response: Response<RouteBody>): (r: Option<RouteData>)
    ensures r.None? <==> |locations| < 2 || !response.ok || response.body.routes.None?
                         || |response.body.routes.value| == 0
    ensures r.Some? ==> var route := response.body.routes.value[0];
      && r.value.coordinates == SwapAll(route.coordinates)
      && r.value.distanceMeters == route.distance
      && r.value.durationSeconds == route.duration
      && r.value.durationWithBufferSeconds == route.duration * LankanBuffer
  {
    if |locations| < 2 || !response.ok then None
    else match response.body.routes
      case None => None
      case Some(routes) =>
        if |routes| == 0 then None
        else
          var route := routes[0];
          Some(RouteData(SwapAll(route.coordinates), route.distance, route.duration,
                         route.duration * LankanBuffer))
  }
}
