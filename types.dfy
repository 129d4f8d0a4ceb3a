/**
 * The records the renderer-facing code passes around: points of interest,
 * polygon and route features, trips, generated tile points and cluster
 * features. Coordinates and measured values are real numbers; trip
 * timestamps are integers (milliseconds).
 */
module Types {

  datatype Option<+T> = None | Some(value: T)

  /** A `[longitude, latitude]` pair. */
  datatype LngLat = LngLat(lng: real, lat: real)

  /** A point of interest: `{ id, category, rating, position }`. */
  datatype PointDatum = PointDatum(id: string, category: string, rating: real, position: LngLat)

  /** A polygon feature; only `properties` is read by the core. */
  datatype PolygonFeature = PolygonFeature(region: string, value: real, centroid: LngLat, rings: seq<seq<LngLat>>)

  /** A route feature: a line string with `from`, `to` and a traffic `volume`. */
  datatype RouteFeature = RouteFeature(from: string, to: string, volume: real, coordinates: seq<LngLat>)

  /** A trip point as the data and the layers use it: a `[lng, lat, time]` triple. */
  datatype TripPoint = TripPoint(lng: real, lat: real, time: int)

  datatype TripDatum = TripDatum(vendor: string, path: seq<TripPoint>)

  /** A generated tile point; `intensity` lies in [0, 1]. */
  datatype TilePoint = TilePoint(position: LngLat, intensity: real)

  /**
   * A feature returned by the clustering library. `cluster` and `pointCount`
   * are the optional `cluster` and `point_count` properties; a single point
   * keeps the `category` of the point it was built from.
   */
  datatype ClusterFeature = ClusterFeature(cluster: Option<bool>, pointCount: Option<real>, category: Option<string>, coordinates: LngLat)

  /** The `[minLng, minLat, maxLng, maxLat]` box a generator draws inside. */
  datatype BBox = BBox(minLng: real, minLat: real, maxLng: real, maxLat: real)

  /** An RGBA colour; every channel is an integer. */
  datatype Rgba = Rgba(r: int, g: int, b: int, a: int)

  /** `Math.round` on exact reals: round half up. */
  function Round(x: real): (n: int)
    ensures x - 1.0 / 2.0 < n as real <= x + 1.0 / 2.0
  {
    (x + 1.0 / 2.0).Floor
  }

  function Max(a: real, b: real): real { if a < b then b else a }

  function Min(a: real, b: real): real { if a < b then a else b }
}
