/**
 * The decisions `src/App.tsx` makes around the renderer: which points are
 * active under the category filter, where the camera goes when a feature is
 * clicked, whether the points layer is shown next to the hexagons, how long
 * the trips' trails are, and how the trips layer joins the base layers.
 */
module App {
  import opened Types
  import opened Layers

  // ---------------------------------------------------------------------
  // Category filter
  // ---------------------------------------------------------------------

  /** The filter value that keeps every point. */
  const AllCategories: string := "all"

  /** `points.filter((point) => point.category === category)`. */
  function FilterByCategory(points: seq<PointDatum>, category: string): (kept: seq<PointDatum>)
    ensures |kept| <= |points|
    ensures forall p :: p in kept <==> p in points && p.category == category
  {
    if points == [] then []
    else
      var rest := FilterByCategory(points[1..], category);
      assert points == [points[0]] + points[1..];
      if points[0].category == category then [points[0]] + rest else rest
  }

  /** Filtering a concatenation filters each part and keeps them in order. */
  lemma {:induction false} FilterAppend(a: seq<PointDatum>, b: seq<PointDatum>, category: string)
    ensures FilterByCategory(a + b, category) == FilterByCategory(a, category) + FilterByCategory(b, category)
  {
    if a == [] {
      assert a + b == b;
    } else {
      var ab := a + b;
      assert ab != [] && ab[0] == a[0] && ab[1..] == a[1..] + b;
      FilterAppend(a[1..], b, category);
      var rest, tail := FilterByCategory(a[1..], category), FilterByCategory(b, category);
      assert FilterByCategory(ab[1..], category) == rest + tail;
      if a[0].category == category {
        assert FilterByCategory(ab, category) == [a[0]] + (rest + tail);
        assert FilterByCategory(a, category) == [a[0]] + rest;
        assert [a[0]] + (rest + tail) == ([a[0]] + rest) + tail;
      } else {
        assert FilterByCategory(ab, category) == rest + tail;
        assert FilterByCategory(a, category) == rest;
      }
    }
  }

  /** A single point is kept exactly when it has the category. */
  lemma FilterSingle(p: PointDatum, category: string)
    ensures FilterByCategory([p], category) == if p.category == category then [p] else []
  {
  }

  /** Filtering twice by the same category changes nothing the second time. */
  lemma {:induction false} FilterIdempotent(points: seq<PointDatum>, category: string)
    ensures FilterByCategory(FilterByCategory(points, category), category) == FilterByCategory(points, category)
  {
    if points != [] {
      FilterIdempotent(points[1..], category);
    }
  }

  /**
   * `activePoints`: the large generated set or the sample points, then
   * every point for `"all"`, otherwise only those of the chosen category.
   */
  function ActivePoints(useLargeDataset: bool, largePoints: seq<PointDatum>, samplePoints: seq<PointDatum>, categoryFilter: string): (active: seq<PointDatum>)
    ensures var source := if useLargeDataset then largePoints else samplePoints;
      && (categoryFilter == AllCategories ==> active == source)
      && (categoryFilter != AllCategories ==> forall p :: p in active <==> p in source && p.category == categoryFilter)
  {
    var source := if useLargeDataset then largePoints else samplePoints;
    if categoryFilter == AllCategories then source else FilterByCategory(source, categoryFilter)
  }

  // ---------------------------------------------------------------------
  // Click to focus
  // ---------------------------------------------------------------------

  /** The object deck.gl reports under the pointer, by the kind of item it is. */
  datatype Picked =
    | PointObject(point: PointDatum)
    | ClusterObject(feature: ClusterFeature)
    | PolygonObject(polygon: PolygonFeature)
    | RouteObject(route: RouteFeature)
    | TripObject(trip: TripDatum)
    | BinObject(position: LngLat)
    | TilePointObject(tilePoint: TilePoint)

  /** Every `[lng, lat]` an object carries, whatever the layer. */
  function Coordinates(picked: Picked): seq<LngLat> {
    match picked
    case PointObject(p) => [p.position]
    case ClusterObject(f) => [f.coordinates]
    case PolygonObject(f) => [f.centroid]
    case RouteObject(r) => r.coordinates
    case TripObject(t) => seq(|t.path|, i requires 0 <= i < |t.path| => LngLat(t.path[i].lng, t.path[i].lat))
    case BinObject(p) => [p]
    case TilePointObject(t) => [t.position]
  }

  /** The midpoint index `floor(n / 2)` of a non-empty list is inside it. */
  function Middle(n: nat): (i: nat)
    requires n > 0
    ensures i < n && i + i <= n < i + i + 2
  {
    n / 2
  }

  /** `!layerId`: a missing or empty id. */
  predicate NoLayer(layerId: Option<string>) {
    layerId.None? || layerId.value == ""
  }

  /** The id of the layer that draws items of this kind; tile points are not drawn by a layer of their own. */
  function DrawingLayer(picked: Picked): Option<string> {
    match picked
    case PointObject(_) => Some("points")
    case ClusterObject(_) => Some("points")
    case PolygonObject(_) => Some("polygons")
    case RouteObject(_) => Some("routes")
    case TripObject(_) => Some("trips")
    case BinObject(_) => Some("hexagon")
    case TilePointObject(_) => None
  }

  /**
   * `getFocusPosition`: nothing without an object or a layer id; the point's
   * position or the cluster's coordinates on `points`; the centroid on
   * `polygons`; the middle coordinate of a non-empty route on `routes`; the
   * first position of a non-empty trip on `trips`; the bin's position on
   * `hexagon`; nothing otherwise.
   */
  function FocusPosition(picked: Option<Picked>, layerId: Option<string>): (target: Option<LngLat>)
    ensures target.Some? ==> picked.Some? && !NoLayer(layerId) && target.value in Coordinates(picked.value)
    ensures target.Some? ==> layerId == DrawingLayer(picked.value)
    ensures picked.Some? && layerId.Some? && layerId == DrawingLayer(picked.value) && |Coordinates(picked.value)| > 0
      ==> target.Some?
    ensures target.Some? && |Coordinates(picked.value)| == 1 ==> target.value == Coordinates(picked.value)[0]
    ensures picked.None? || NoLayer(layerId) ==> target.None?
  {
    if picked.None? || NoLayer(layerId) then None
    else
      var id := layerId.value;
      match picked.value
      case PointObject(p) => if id == "points" then Some(p.position) else None
      case ClusterObject(f) => if id == "points" then Some(f.coordinates) else None
      case PolygonObject(f) => if id == "polygons" then Some(f.centroid) else None
      case RouteObject(r) =>
        if id == "routes" && |r.coordinates| > 0 then Some(r.coordinates[Middle(|r.coordinates|)]) else None
      case TripObject(t) =>
        if id == "trips" && |t.path| > 0 then
          assert Coordinates(picked.value)[0] == LngLat(t.path[0].lng, t.path[0].lat);
          Some(LngLat(t.path[0].lng, t.path[0].lat))
        else None
      case BinObject(p) => if id == "hexagon" then Some(p) else None
      case TilePointObject(_) => None
  }

  /**
   * `getFocusPosition` as written: on `trips` it reads `coordinates` of the
   * first path entry, but path entries are `[lng, lat, time]` triples, so
   * the read is always undefined and yields no target. Every other layer
   * behaves as in `FocusPosition`. The trips layer is not pickable, so no
   * click reaches this branch today (`ClickedLayersAgree`): the defect is
   * latent, and focusing a trip as the control panel's "Click any layer"
   * hint promises needs both this fix and a pickable trips layer.
   */
  function FocusPositionAsWritten(picked: Option<Picked>, layerId: Option<string>): (target: Option<LngLat>)
    ensures layerId == Some("trips") ==> target.None?
  {
    if layerId == Some("trips") then None else FocusPosition(picked, layerId)
  }

  /**
   * A trip with a path has a first point to focus, but the code as written
   * gives no target for it. This is latent: deck.gl never reports a click
   * on the trips layer, which is not pickable.
   */
  lemma TripFocusLost(trip: TripDatum)
    requires |trip.path| > 0
    ensures FocusPositionAsWritten(Some(TripObject(trip)), Some("trips")).None?
    ensures FocusPosition(Some(TripObject(trip)), Some("trips")) == Some(LngLat(trip.path[0].lng, trip.path[0].lat))
  {
  }

  /**
   * A click on a point, a cluster, a polygon or a hexagon bin focuses the
   * item's own position under the layer that draws it.
   */
  lemma FocusOnClickedItem(point: PointDatum, cluster: ClusterFeature, polygon: PolygonFeature, bin: LngLat)
    ensures FocusPosition(Some(PointObject(point)), Some("points")) == Some(point.position)
    ensures FocusPosition(Some(ClusterObject(cluster)), Some("points")) == Some(cluster.coordinates)
    ensures FocusPosition(Some(PolygonObject(polygon)), Some("polygons")) == Some(polygon.centroid)
    ensures FocusPosition(Some(BinObject(bin)), Some("hexagon")) == Some(bin)
  {
  }

  /** A click on a route focuses a coordinate in its middle: half the others lie on each side. */
  lemma RouteFocusIsMiddle(route: RouteFeature)
    requires |route.coordinates| > 0
    ensures exists i :: (0 <= i < |route.coordinates| && i + i <= |route.coordinates| < i + i + 2
      && FocusPosition(Some(RouteObject(route)), Some("routes")) == Some(route.coordinates[i]))
  {
    var i := Middle(|route.coordinates|);
    assert FocusPosition(Some(RouteObject(route)), Some("routes")) == Some(route.coordinates[i]);
  }

  /** An empty route, and any id none of the layers has, give no target. */
  lemma NoFocusWithoutTarget(picked: Picked, layerId: string, route: RouteFeature)
    requires layerId !in {"points", "polygons", "routes", "trips", "hexagon"}
    requires |route.coordinates| == 0
    ensures FocusPosition(Some(picked), Some(layerId)).None?
    ensures FocusPosition(Some(RouteObject(route)), Some("routes")).None?
  {
  }

  /** The camera state the click handler updates. */
  datatype ViewState = ViewState(
    longitude: real, latitude: real, zoom: real, pitch: real, bearing: real,
    transitionDuration: Option<real>)

  /** A focused click zooms in to at least this level. */
  const FocusZoomMin: real := 14.0
  const FocusTransitionMs: real := 800.0

  /**
   * `handleClick`: with a focus target, centre on it, zoom in to at least
   * 14 and animate for 800 ms; without one, leave the view as it is.
   */
  function HandleClick(previous: ViewState, picked: Option<Picked>, layerId: Option<string>): (next: ViewState)
    ensures FocusPosition(picked, layerId).None? ==> next == previous
    ensures FocusPosition(picked, layerId).Some? ==>
      var target := FocusPosition(picked, layerId).value;
      && next.longitude == target.lng && next.latitude == target.lat
      && next.zoom >= previous.zoom && next.zoom >= FocusZoomMin
      && (next.zoom == previous.zoom || next.zoom == FocusZoomMin)
      && next.pitch == previous.pitch && next.bearing == previous.bearing
      && next.transitionDuration == Some(FocusTransitionMs)
  {
    match FocusPosition(picked, layerId)
    case None => previous
    case Some(target) =>
      previous.(longitude := target.lng, latitude := target.lat,
                zoom := Max(previous.zoom, FocusZoomMin),
                transitionDuration := Some(FocusTransitionMs))
  }

  /** Clicking the same target again changes nothing more. */
  lemma HandleClickIdempotent(previous: ViewState, picked: Option<Picked>, layerId: Option<string>)
    ensures var once := HandleClick(previous, picked, layerId);
      HandleClick(once, picked, layerId) == once
  {
  }

  // ---------------------------------------------------------------------
  // Points versus hexagons, trail length, layer list
  // ---------------------------------------------------------------------

  /** `effectiveShowPoints`: the points layer is never drawn while the hexagons are. */
  function EffectiveShowPoints(showHexagon: bool, showPoints: bool): (shown: bool)
    ensures shown <==> !showHexagon && showPoints
  {
    if showHexagon then false else showPoints
  }

  /** The effect that switches the points toggle off once the hexagons are on. */
  function SyncShowPoints(showHexagon: bool, showPoints: bool): (next: bool)
    ensures !(showHexagon && next)
    ensures !showHexagon ==> next == showPoints
  {
    if showHexagon && showPoints then false else showPoints
  }

  /** The effect never changes what is drawn: it only brings the toggle in line. */
  lemma SyncKeepsEffective(showHexagon: bool, showPoints: bool)
    ensures EffectiveShowPoints(showHexagon, SyncShowPoints(showHexagon, showPoints))
      == EffectiveShowPoints(showHexagon, showPoints)
  {
  }

  const TrailMinMs: real := 20000.0
  const TrailFraction: real := 0.35

  /** `trailLength`: 35% of the trips' duration, but never under 20 seconds. */
  function TrailLength(duration: real): (trail: real)
    ensures trail >= TrailMinMs && trail >= duration * TrailFraction
    ensures trail == TrailMinMs || trail == duration * TrailFraction
  {
    Max(TrailMinMs, duration * TrailFraction)
  }

  /** A longer range never gets a shorter trail. */
  lemma TrailLengthMonotone(a: real, b: real)
    requires a <= b
    ensures TrailLength(a) <= TrailLength(b)
  {
  }

  /** `layers`: the base layers, with the trips layer on top when there is one. */
  function ComposeLayers(base: seq<Layer>, trips: Option<Layer>): (layers: seq<Layer>)
    ensures |layers| >= |base| && layers[..|base|] == base
    ensures trips.None? ==> layers == base
    ensures trips.Some? ==> |layers| == |base| + 1 && layers[|base|] == trips.value
  {
    if trips.None? then base else base + [trips.value]
  }

  /**
   * Base layers in drawing order, none of them a trips layer, stay in order
   * with the trips layer on top, and the trips layer is there exactly when
   * trips are shown.
   */
  lemma ComposeKeepsOrder(base: seq<Layer>, p: TripsLayerParams)
    requires InDrawingOrder(base)
    requires forall layer :: layer in base ==> !layer.TripsLayer?
    ensures var layers := ComposeLayers(base, BuildTripsLayer(p));
      && InDrawingOrder(layers)
      && ((exists layer :: layer in layers && layer.TripsLayer?) <==> p.showTrips)
  {
    var layers := ComposeLayers(base, BuildTripsLayer(p));
    if p.showTrips {
      var trips := BuildTripsLayer(p).value;
      assert RanksBelow(base, Rank(trips));
      PushInOrder(base, trips);
      assert layers[|base|] in layers;
    }
  }

  /**
   * On every layer deck.gl can report a click on, the code as written and
   * the corrected version agree: the trips defect cannot be reached from
   * the composed layers, because the trips layer is not pickable.
   */
  lemma ClickedLayersAgree(base: seq<Layer>, p: TripsLayerParams, layer: Layer, picked: Option<Picked>)
    requires forall l :: l in base ==> !l.TripsLayer?
    requires layer in ComposeLayers(base, BuildTripsLayer(p)) && Pickable(layer)
    ensures Id(layer) != "trips"
    ensures FocusPositionAsWritten(picked, Some(Id(layer))) == FocusPosition(picked, Some(Id(layer)))
  {
  }
}
