/**
 * `src/layers.ts`: the colour ramps and the layer lists handed to deck.gl.
 * A deck.gl layer is modelled by a descriptor that records its id and the
 * parameters the code chooses for it; the per-item accessor callbacks are
 * functions of the descriptor's parameters and the item.
 */
module Layers {
  import opened Types
  import opened Data

  datatype Rgb = Rgb(r: int, g: int, b: int)

  function WithAlpha(rgb: Rgb, a: int): Rgba {
    Rgba(rgb.r, rgb.g, rgb.b, a)
  }

  // ---------------------------------------------------------------------
  // getCategoryColor
  // ---------------------------------------------------------------------

  /** `CATEGORY_COLORS`: the palette of the five known categories. */
  const CategoryPalette: map<string, Rgb> := map[
    "restaurant" := Rgb(255, 107, 107),
    "cafe" := Rgb(77, 171, 247),
    "museum" := Rgb(255, 209, 102),
    "park" := Rgb(160, 217, 149),
    "shop" := Rgb(162, 155, 254)]

  /** The slate grey used for any other category. */
  const OtherCategory: Rgb := Rgb(148, 163, 184)

  /**
   * The property names every plain JavaScript object inherits from
   * `Object.prototype`. Looking one of them up in the palette object
   * yields a function (or, for `__proto__`, the prototype itself) rather
   * than `undefined`.
   */
  const InheritedNames: set<string> := {
    "constructor", "hasOwnProperty", "isPrototypeOf", "propertyIsEnumerable",
    "toLocaleString", "toString", "valueOf", "__proto__",
    "__defineGetter__", "__defineSetter__", "__lookupGetter__", "__lookupSetter__"}

  /**
   * `getCategoryColor` as written: `CATEGORY_COLORS[category] ?? grey`
   * followed by `[...rgb, 200]`. For an inherited name the lookup is not
   * nullish and spreading a non-iterable throws a `TypeError`, which is
   * `None` here.
   */
  function CategoryColorAsWritten(category: string): (c: Option<Rgba>)
    ensures c.None? <==> category in InheritedNames
  {
    if category in CategoryPalette then Some(WithAlpha(CategoryPalette[category], 200))
    else if category in InheritedNames then None
    else Some(WithAlpha(OtherCategory, 200))
  }

  /** "toString" is a category the source cannot colour. */
  lemma CategoryColorThrowsOnInheritedName()
    ensures CategoryColorAsWritten("toString").None?
  {
  }

  /**
   * `getCategoryColor` as intended: the palette colour of a known category,
   * slate grey for every other string, always with alpha 200.
   */
  function CategoryColor(category: string): (c: Rgba)
    ensures c.a == 200
    ensures category in CategoryPalette ==> c == WithAlpha(CategoryPalette[category], 200)
    ensures category !in CategoryPalette ==> c == WithAlpha(OtherCategory, 200)
  {
    WithAlpha(if category in CategoryPalette then CategoryPalette[category] else OtherCategory, 200)
  }

  /** Wherever the source does not throw, it agrees with the intended colour. */
  lemma CategoryColorAgrees(category: string)
    requires category !in InheritedNames
    ensures CategoryColorAsWritten(category) == Some(CategoryColor(category))
  {
  }

  // ---------------------------------------------------------------------
  // getClusterColor
  // ---------------------------------------------------------------------

  const LargeCluster: Rgba := Rgba(99, 102, 241, 220)
  const MediumCluster: Rgba := Rgba(59, 130, 246, 220)
  const SmallCluster: Rgba := Rgba(14, 165, 233, 220)
  const TinyCluster: Rgba := Rgba(56, 189, 248, 200)

  /** `getClusterColor`: each of the four colours is used on exactly one interval of counts. */
  function ClusterColor(count: real): (c: Rgba)
    ensures c == LargeCluster <==> count > 100.0
    ensures c == MediumCluster <==> 50.0 < count <= 100.0
    ensures c == SmallCluster <==> 20.0 < count <= 50.0
    ensures c == TinyCluster <==> count <= 20.0
  {
    if count > 100.0 then LargeCluster
    else if count > 50.0 then MediumCluster
    else if count > 20.0 then SmallCluster
    else TinyCluster
  }

  /** The bucket a count falls in: 0 (at most 20) to 3 (over 100). */
  function ClusterBucket(c: Rgba): nat {
    if c == LargeCluster then 3 else if c == MediumCluster then 2 else if c == SmallCluster then 1 else 0
  }

  /** A larger cluster never gets the colour of a smaller bucket. */
  lemma ClusterColorMonotone(m: real, n: real)
    requires m <= n
    ensures ClusterBucket(ClusterColor(m)) <= ClusterBucket(ClusterColor(n))
  {
  }

  // ---------------------------------------------------------------------
  // getChoroplethColor
  // ---------------------------------------------------------------------

  /** The ramp runs from a light slate (lowest value) to an emerald (highest value). */
  const RampStart: Rgb := Rgb(226, 232, 240)
  const RampEnd: Rgb := Rgb(52, 211, 153)
  /** The colour of every value when the range is a single number. */
  const FlatColor: Rgba := Rgba(160, 217, 149, 200)

  /** `t`: the value's position along the range, clamped to [0, 1]. */
  function RampPosition(value: real, min: real, max: real): (t: real)
    requires max != min
    ensures 0.0 <= t <= 1.0
  {
    Types.Min(1.0, Types.Max(0.0, (value - min) / (max - min)))
  }

  lemma NonNegativeProduct(a: real, b: real)
    requires a >= 0.0 && b >= 0.0
    ensures a * b >= 0.0
  {
  }

  /** `s + (e - s) * t` lies between `s` and `e` for t in [0, 1]. */
  lemma LerpBetween(s: int, e: int, t: real)
    requires 0.0 <= t <= 1.0
    ensures s <= e ==> s as real <= s as real + (e - s) as real * t <= e as real
    ensures e <= s ==> e as real <= s as real + (e - s) as real * t <= s as real
  {
    var d := (e - s) as real;
    if s <= e {
      NonNegativeProduct(d, 1.0 - t);
      NonNegativeProduct(d, t);
    } else {
      NonNegativeProduct(-d, 1.0 - t);
      NonNegativeProduct(-d, t);
    }
  }

  /** `Math.round(s + (e - s) * t)`: one channel of the ramp, between its two ends. */
  function Channel(s: int, e: int, t: real): (c: int)
    requires 0.0 <= t <= 1.0
    ensures s <= e ==> s <= c <= e
    ensures e <= s ==> e <= c <= s
  {
    LerpBetween(s, e, t);
    Round(s as real + (e - s) as real * t)
  }

  /** A colour whose channels lie on the ramp and whose alpha is 200. */
  predicate OnRamp(c: Rgba) {
    && RampEnd.r <= c.r <= RampStart.r
    && RampEnd.g <= c.g <= RampStart.g
    && RampEnd.b <= c.b <= RampStart.b
    && c.a == 200
  }

  /**
   * `getChoroplethColor(value, min, max)`: the flat colour for a one-point
   * range, otherwise a colour on the ramp.
   */
  function ChoroplethColor(value: real, min: real, max: real): (c: Rgba)
    ensures max == min ==> c == FlatColor
    ensures max != min ==> OnRamp(c)
    ensures c.a == 200
  {
    if max == min then FlatColor
    else
      var t := RampPosition(value, min, max);
      Rgba(Channel(RampStart.r, RampEnd.r, t), Channel(RampStart.g, RampEnd.g, t), Channel(RampStart.b, RampEnd.b, t), 200)
  }

  /** On an increasing range, a value at or below `min` gets the start of the ramp. */
  lemma ChoroplethAtOrBelowMin(value: real, min: real, max: real)
    requires min < max && value <= min
    ensures ChoroplethColor(value, min, max) == WithAlpha(RampStart, 200)
  {
    assert (value - min) / (max - min) <= 0.0;
    assert RampPosition(value, min, max) == 0.0;
  }

  /** On an increasing range, a value at or above `max` gets the end of the ramp. */
  lemma ChoroplethAtOrAboveMax(value: real, min: real, max: real)
    requires min < max && max <= value
    ensures ChoroplethColor(value, min, max) == WithAlpha(RampEnd, 200)
  {
    assert (value - min) / (max - min) >= 1.0;
    assert RampPosition(value, min, max) == 1.0;
  }

  lemma QuotientMonotone(a: real, b: real, d: real)
    requires a <= b && d > 0.0
    ensures a / d <= b / d
  {
    assert b / d - a / d == (b - a) / d;
  }

  lemma RoundMonotone(x: real, y: real)
    requires x <= y
    ensures Round(x) <= Round(y)
  {
  }

  /** On a descending channel a further position along the ramp never raises it. */
  lemma ChannelDescending(s: int, e: int, t: real, u: real)
    requires e <= s && 0.0 <= t <= u <= 1.0
    ensures Channel(s, e, u) <= Channel(s, e, t)
  {
    var d := (e - s) as real;
    assert d * (u - t) <= 0.0;
    assert d * u <= d * t;
    RoundMonotone(s as real + d * u, s as real + d * t);
  }

  /**
   * On an increasing range a larger value is never lighter: every channel
   * of the ramp goes down from start to end, and none goes back up.
   */
  lemma ChoroplethMonotone(v: real, w: real, min: real, max: real)
    requires min < max && v <= w
    ensures var a, b := ChoroplethColor(v, min, max), ChoroplethColor(w, min, max);
      b.r <= a.r && b.g <= a.g && b.b <= a.b
  {
    QuotientMonotone(v - min, w - min, max - min);
    var t, u := RampPosition(v, min, max), RampPosition(w, min, max);
    assert t <= u;
    ChannelDescending(RampStart.r, RampEnd.r, t, u);
    ChannelDescending(RampStart.g, RampEnd.g, t, u);
    ChannelDescending(RampStart.b, RampEnd.b, t, u);
  }

  // ---------------------------------------------------------------------
  // Layer descriptors
  // ---------------------------------------------------------------------

  /** What the points layer draws: clusters, or the raw points. */
  datatype ScatterData = RawPoints(points: seq<PointDatum>) | Clusters(features: seq<ClusterFeature>)

  datatype Layer =
    | PolygonsLayer(features: seq<PolygonFeature>, choroplethMin: real, choroplethMax: real)
    | RoutesLayer(routes: seq<RouteFeature>)
    | PointsLayer(data: ScatterData, opacity: real, clusterScale: real, pointRadius: real, lineWidthMinPixels: int)
    | TileLayer(tileSize: int, maxCacheSize: int, maxRequests: int)
    | HexagonLayer(points: seq<PointDatum>, radius: int, coverage: real, elevationScale: int, opacity: real)
    | TripsLayer(trips: seq<TripDatum>, paths: seq<seq<LngLat>>, timestamps: seq<seq<real>>, currentTime: real, trailLength: real)

  /** The deck.gl id of a layer. */
  function Id(layer: Layer): string {
    match layer
    case PolygonsLayer(_, _, _) => "polygons"
    case RoutesLayer(_) => "routes"
    case PointsLayer(_, _, _, _, _) => "points"
    case TileLayer(_, _, _) => "tile-layer"
    case HexagonLayer(_, _, _, _, _) => "hexagon"
    case TripsLayer(_, _, _, _, _) => "trips"
  }

  /** Where a layer of each kind goes in the list: bottom (0) to top (5). */
  function Rank(layer: Layer): nat {
    match layer
    case PolygonsLayer(_, _, _) => 0
    case RoutesLayer(_) => 1
    case PointsLayer(_, _, _, _, _) => 2
    case TileLayer(_, _, _) => 3
    case HexagonLayer(_, _, _, _, _) => 4
    case TripsLayer(_, _, _, _, _) => 5
  }

  /**
   * Whether deck.gl reports clicks on the layer's items: the polygons,
   * routes, points and hexagon layers set `pickable: true`, the tile layer
   * sets it to false, and the trips layer leaves deck.gl's default, off.
   */
  function Pickable(layer: Layer): bool {
    !(layer.TileLayer? || layer.TripsLayer?)
  }

  /** The inputs `buildBaseLayers` reads (the tile callback is the TileCache module). */
  datatype BaseLayersParams = BaseLayersParams(
    points: seq<PointDatum>,
    clusters: seq<ClusterFeature>,
    polygons: seq<PolygonFeature>,
    routes: seq<RouteFeature>,
    showPoints: bool,
    showClusters: bool,
    showPolygons: bool,
    showRoutes: bool,
    showHexagon: bool,
    choroplethMin: real,
    choroplethMax: real)

  function PolygonsLayerOf(p: BaseLayersParams): Layer {
    PolygonsLayer(p.polygons, p.choroplethMin, p.choroplethMax)
  }

  function RoutesLayerOf(p: BaseLayersParams): Layer {
    RoutesLayer(p.routes)
  }

  /** The points layer: clusters or raw points, dimmed and shrunk under the hexagons. */
  function PointsLayerOf(p: BaseLayersParams): Layer {
    PointsLayer(
      if p.showClusters then Clusters(p.clusters) else RawPoints(p.points),
      if p.showHexagon then 0.12 else 1.0,
      if p.showHexagon then 1.2 else 4.0,
      if p.showHexagon then 3.0 else 6.0,
      if p.showHexagon then 0 else 1)
  }

  /** The tile layer: 256-pixel tiles, at most 180 cached by deck.gl, 8 requests at once. */
  const TileLayerOf: Layer := TileLayer(256, 180, 8)

  function HexagonLayerOf(p: BaseLayersParams): Layer {
    HexagonLayer(p.points, 180, 0.9, 50, 0.8)
  }

  /**
   * Turning the hexagons on leaves the points layer's data alone and makes
   * its points fainter and smaller.
   */
  lemma HexagonModeDimsPoints(p: BaseLayersParams)
    ensures var on, off := PointsLayerOf(p.(showHexagon := true)), PointsLayerOf(p.(showHexagon := false));
      && on.data == off.data
      && on.opacity < off.opacity && on.clusterScale < off.clusterScale && on.pointRadius < off.pointRadius
  {
  }

  /** The points layer draws the clusters exactly when clustering is shown. */
  lemma PointsLayerData(p: BaseLayersParams)
    ensures PointsLayerOf(p).data.Clusters? <==> p.showClusters
    ensures p.showClusters ==> PointsLayerOf(p).data.features == p.clusters
    ensures !p.showClusters ==> PointsLayerOf(p).data.points == p.points
  {
  }

  /** Each layer sits strictly below every later one in the drawing order. */
  predicate InDrawingOrder(layers: seq<Layer>) {
    forall i, j :: 0 <= i < j < |layers| ==> Rank(layers[i]) < Rank(layers[j])
  }

  /** Every layer of the list ranks strictly below `rank`. */
  predicate RanksBelow(layers: seq<Layer>, rank: nat) {
    forall layer :: layer in layers ==> Rank(layer) < rank
  }

  /** Pushing a layer that ranks above everything already there keeps the order. */
  lemma PushInOrder(layers: seq<Layer>, layer: Layer)
    requires InDrawingOrder(layers) && RanksBelow(layers, Rank(layer))
    ensures InDrawingOrder(layers + [layer])
    ensures forall r :: Rank(layer) < r ==> RanksBelow(layers + [layer], r)
  {
    var pushed := layers + [layer];
    forall i, j | 0 <= i < j < |pushed|
      ensures Rank(pushed[i]) < Rank(pushed[j])
    {
      assert pushed[i] == layers[i] && layers[i] in layers;
      if j < |layers| {
        assert pushed[j] == layers[j];
      }
    }
  }

  /** A layer when its flag is set, nothing otherwise. */
  function Optional(flag: bool, layer: Layer): seq<Layer> {
    if flag then [layer] else []
  }

  /** The list `buildBaseLayers` ends up with, one slot per kind of layer. */
  ghost function BaseLayers(p: BaseLayersParams): seq<Layer> {
    Optional(p.showPolygons, PolygonsLayerOf(p)) + Optional(p.showRoutes, RoutesLayerOf(p))
    + Optional(p.showPoints, PointsLayerOf(p)) + [TileLayerOf] + Optional(p.showHexagon, HexagonLayerOf(p))
  }

  /** The base layers come out in drawing order. */
  lemma BaseLayersInOrder(p: BaseLayersParams)
    ensures InDrawingOrder(BaseLayers(p))
  {
    var layers := Optional(p.showPolygons, PolygonsLayerOf(p));
    assert InDrawingOrder(layers) && RanksBelow(layers, 1);
    PushAll(layers, Optional(p.showRoutes, RoutesLayerOf(p)), 1);
    layers := layers + Optional(p.showRoutes, RoutesLayerOf(p));
    PushAll(layers, Optional(p.showPoints, PointsLayerOf(p)), 2);
    layers := layers + Optional(p.showPoints, PointsLayerOf(p));
    PushAll(layers, [TileLayerOf], 3);
    layers := layers + [TileLayerOf];
    PushAll(layers, Optional(p.showHexagon, HexagonLayerOf(p)), 4);
  }

  /** Appending at most one layer of rank `rank` to a list ranking below it. */
  lemma PushAll(layers: seq<Layer>, more: seq<Layer>, rank: nat)
    requires InDrawingOrder(layers) && RanksBelow(layers, rank)
    requires |more| <= 1 && forall layer :: layer in more ==> Rank(layer) == rank
    ensures InDrawingOrder(layers + more) && RanksBelow(layers + more, rank + 1)
  {
    if |more| == 1 {
      PushInOrder(layers, more[0]);
      assert more == [more[0]];
    } else {
      assert layers + more == layers;
    }
  }

  /** Each optional layer is in the list exactly when its flag is set, and the tile layer always. */
  lemma BaseLayersMembers(p: BaseLayersParams)
    ensures PolygonsLayerOf(p) in BaseLayers(p) <==> p.showPolygons
    ensures RoutesLayerOf(p) in BaseLayers(p) <==> p.showRoutes
    ensures PointsLayerOf(p) in BaseLayers(p) <==> p.showPoints
    ensures TileLayerOf in BaseLayers(p)
    ensures HexagonLayerOf(p) in BaseLayers(p) <==> p.showHexagon
  {
  }

  /** No other layer is in the list. */
  lemma BaseLayersNothingElse(p: BaseLayersParams)
    ensures forall layer :: layer in BaseLayers(p) ==>
      || layer == PolygonsLayerOf(p) || layer == RoutesLayerOf(p)
      || layer == PointsLayerOf(p) || layer == TileLayerOf || layer == HexagonLayerOf(p)
  {
  }

  /**
   * `buildBaseLayers`: pushes, in this order, the polygons, routes and
   * points layers when their flags are set, the tile layer always, and
   * the hexagon layer when its flag is set.
   */
  method BuildBaseLayers(params: BaseLayersParams) returns (layers: seq<Layer>)
    ensures InDrawingOrder(layers)
    ensures PolygonsLayerOf(params) in layers <==> params.showPolygons
    ensures RoutesLayerOf(params) in layers <==> params.showRoutes
    ensures PointsLayerOf(params) in layers <==> params.showPoints
    ensures TileLayerOf in layers
    ensures HexagonLayerOf(params) in layers <==> params.showHexagon
    ensures forall layer :: layer in layers ==>
      || layer == PolygonsLayerOf(params) || layer == RoutesLayerOf(params)
      || layer == PointsLayerOf(params) || layer == TileLayerOf || layer == HexagonLayerOf(params)
  {
    layers := [];
    if params.showPolygons {
      layers := layers + [PolygonsLayerOf(params)];
    }
    ghost var slots := Optional(params.showPolygons, PolygonsLayerOf(params));
    assert layers == slots;
    if params.showRoutes {
      layers := layers + [RoutesLayerOf(params)];
    }
    slots := slots + Optional(params.showRoutes, RoutesLayerOf(params));
    assert layers == slots;
    if params.showPoints {
      layers := layers + [PointsLayerOf(params)];
    }
    slots := slots + Optional(params.showPoints, PointsLayerOf(params));
    assert layers == slots;
    layers := layers + [TileLayerOf];
    if params.showHexagon {
      layers := layers + [HexagonLayerOf(params)];
    }
    slots := slots + [TileLayerOf] + Optional(params.showHexagon, HexagonLayerOf(params));
    assert layers == slots == BaseLayers(params);
    BaseLayersInOrder(params);
    BaseLayersMembers(params);
    BaseLayersNothingElse(params);
  }

  // ---------------------------------------------------------------------
  // Accessors of the layers' items
  // ---------------------------------------------------------------------

  /** The polygons layer's `getFillColor`. */
  function PolygonFill(layer: Layer, feature: PolygonFeature): Rgba
    requires layer.PolygonsLayer?
  {
    ChoroplethColor(feature.value, layer.choroplethMin, layer.choroplethMax)
  }

  /** The routes layer's `getWidth`: `max(2, volume / 15)`. */
  function RouteWidth(route: RouteFeature): (w: real)
    ensures w >= 2.0 && w >= route.volume / 15.0
    ensures w == 2.0 || w == route.volume / 15.0
  {
    Types.Max(2.0, route.volume / 15.0)
  }

  /** `getSourcePosition`: the first coordinate (undefined on an empty line). */
  function RouteSource(route: RouteFeature): (p: Option<LngLat>)
    ensures p.Some? <==> route.coordinates != []
    ensures p.Some? ==> p.value == route.coordinates[0]
  {
    if route.coordinates == [] then None else Some(route.coordinates[0])
  }

  /** `getTargetPosition`: the last coordinate (undefined on an empty line). */
  function RouteTarget(route: RouteFeature): (p: Option<LngLat>)
    ensures p.Some? <==> route.coordinates != []
    ensures p.Some? ==> p.value == route.coordinates[|route.coordinates| - 1]
  {
    if route.coordinates == [] then None else Some(route.coordinates[|route.coordinates| - 1])
  }

  /** An item of the points layer: a raw point or a feature from the clustering library. */
  datatype ScatterItem = PointItem(point: PointDatum) | FeatureItem(feature: ClusterFeature)

  function IsClusterItem(item: ScatterItem): bool {
    item.FeatureItem? && IsClusterFeature(item.feature)
  }

  /** `point_count ?? 1` of a feature item. */
  function ItemCount(item: ScatterItem): real
    requires item.FeatureItem?
  {
    if item.feature.pointCount.Some? then item.feature.pointCount.value else 1.0
  }

  /** `getPosition`: the geometry's coordinates of a feature, the position of a point. */
  function ItemPosition(item: ScatterItem): LngLat {
    match item
    case PointItem(point) => point.position
    case FeatureItem(feature) => feature.coordinates
  }

  /**
   * `getRadius`, with `root` standing for `Math.sqrt(point_count ?? 1)`: a
   * cluster is drawn at least 10 pixels wide and grows with the root of its
   * count; anything else gets the layer's point radius.
   */
  function ItemRadius(layer: Layer, item: ScatterItem, root: real): (radius: real)
    requires layer.PointsLayer? && root >= 0.0
    ensures IsClusterItem(item) ==> radius >= 10.0 && radius >= root * layer.clusterScale
    ensures IsClusterItem(item) ==> radius == 10.0 || radius == root * layer.clusterScale
    ensures !IsClusterItem(item) ==> radius == layer.pointRadius
  {
    if IsClusterItem(item) then Types.Max(10.0, root * layer.clusterScale) else layer.pointRadius
  }

  /** The `category` the fill reads: the point's own, or the feature's property, or "". */
  function ItemCategory(item: ScatterItem): string {
    match item
    case PointItem(point) => point.category
    case FeatureItem(feature) => if feature.category.Some? then feature.category.value else ""
  }

  /** `getFillColor`: the cluster ramp for clusters, the category palette for the rest. */
  function ItemFill(item: ScatterItem): (c: Rgba)
    ensures IsClusterItem(item) ==> c == ClusterColor(ItemCount(item))
    ensures !IsClusterItem(item) ==> c == CategoryColor(ItemCategory(item))
    ensures c.a == 200 || c.a == 220
  {
    if IsClusterItem(item) then ClusterColor(ItemCount(item)) else CategoryColor(ItemCategory(item))
  }

  // ---------------------------------------------------------------------
  // buildTripsLayer
  // ---------------------------------------------------------------------

  datatype TripsLayerParams = TripsLayerParams(
    trips: seq<TripDatum>, showTrips: bool, currentTime: real, timeOffset: real, trailLength: real)

  /** The `[lng, lat]` part of every point of a path. */
  function PathPositions(path: seq<TripPoint>): (ps: seq<LngLat>)
    ensures |ps| == |path|
    ensures forall j :: 0 <= j < |path| ==> ps[j] == LngLat(path[j].lng, path[j].lat)
  {
    seq(|path|, j requires 0 <= j < |path| => LngLat(path[j].lng, path[j].lat))
  }

  /** The times of a path, each moved back by `offset`. */
  function ShiftedTimes(path: seq<TripPoint>, offset: real): (ts: seq<real>)
    ensures |ts| == |path|
    ensures forall j :: 0 <= j < |path| ==> ts[j] == path[j].time as real - offset
  {
    seq(|path|, j requires 0 <= j < |path| => path[j].time as real - offset)
  }

  /**
   * `buildTripsLayer`: nothing when trips are hidden; otherwise a trips
   * layer whose timestamps and current time are both moved back by the
   * same offset.
   */
  function BuildTripsLayer(p: TripsLayerParams): (layer: Option<Layer>)
    ensures layer.None? <==> !p.showTrips
    ensures layer.Some? ==> layer.value.TripsLayer? && Id(layer.value) == "trips"
    ensures layer.Some? ==> |layer.value.paths| == |layer.value.timestamps| == |p.trips|
    ensures layer.Some? ==> layer.value.trips == p.trips && layer.value.trailLength == p.trailLength
    ensures layer.Some? ==> layer.value.currentTime == p.currentTime - p.timeOffset
  {
    if !p.showTrips then None
    else
      Some(TripsLayer(
        p.trips,
        seq(|p.trips|, i requires 0 <= i < |p.trips| => PathPositions(p.trips[i].path)),
        seq(|p.trips|, i requires 0 <= i < |p.trips| => ShiftedTimes(p.trips[i].path, p.timeOffset)),
        p.currentTime - p.timeOffset,
        p.trailLength))
  }

  /**
   * Shifting both sides by the offset keeps what the layer shows: a point
   * of trip i is reached by the shifted clock exactly when its own time is
   * reached by the unshifted one, and its position is the point's.
   */
  lemma TripsLayerKeepsTiming(p: TripsLayerParams, i: nat, j: nat)
    requires p.showTrips && i < |p.trips| && j < |p.trips[i].path|
    ensures var layer := BuildTripsLayer(p).value;
      && j < |layer.timestamps[i]| && j < |layer.paths[i]|
      && (layer.timestamps[i][j] <= layer.currentTime <==> p.trips[i].path[j].time as real <= p.currentTime)
      && layer.paths[i][j] == LngLat(p.trips[i].path[j].lng, p.trips[i].path[j].lat)
  {
  }
}
