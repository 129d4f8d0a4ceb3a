/**
 * The tile data cache of `src/App.tsx`: a map from `"z/x/y"` keys to the
 * points generated for that tile, filled on demand by `getTileData`, plus
 * the count of cached tiles the page shows. Nothing is ever evicted.
 */
module TileCache {
  import opened Types
  import opened Text
  import opened Data

  /** `tile.index`: column, row and zoom of a tile. */
  datatype TileIndex = TileIndex(x: nat, y: nat, z: nat)

  /**
   * `tile.bbox`: geographic bounds (the form with a `west` property), or the
   * `left/top/right/bottom` form deck.gl uses outside geographic views.
   */
  datatype TileBounds =
    | GeoBounds(west: real, south: real, east: real, north: real)
    | PlaneBounds(left: real, top: real, right: real, bottom: real)

  datatype Tile = Tile(index: TileIndex, bbox: TileBounds)

  const TileCountMin: int := 24
  const TileCountMax: int := 100
  const TileCountZoomOffset: int := 10
  const TileCountZoomScale: int := 18

  /**
   * The number of points generated for a tile at zoom `z`:
   * `min(100, max(24, round((z - 10) * 18)))`. The zoom is a whole number,
   * so the rounding leaves the product as it is.
   */
  function TileCount(z: nat): (count: nat)
    ensures TileCountMin <= count <= TileCountMax
  {
    var raw := Round(((z - TileCountZoomOffset) * TileCountZoomScale) as real);
    if raw > TileCountMax then TileCountMax
    else if raw < TileCountMin then TileCountMin
    else raw
  }

  /** A deeper zoom never gets fewer points. */
  lemma TileCountMonotone(a: nat, b: nat)
    requires a <= b
    ensures TileCount(a) <= TileCount(b)
  {
    assert (a - 10) * 18 <= (b - 10) * 18;
  }

  /** Up to zoom 11 every tile gets the minimum, from zoom 16 on the maximum. */
  lemma TileCountSaturates(z: nat)
    ensures z <= 11 ==> TileCount(z) == TileCountMin
    ensures z >= 16 ==> TileCount(z) == TileCountMax
    ensures 11 < z < 16 ==> TileCount(z) == (z - 10) * 18
  {
  }

  /** The cache key `${z}/${x}/${y}`. */
  function TileKey(index: TileIndex): string {
    NatToString(index.z) + "/" + NatToString(index.x) + "/" + NatToString(index.y)
  }

  predicate AllDigits(s: string) {
    forall i :: 0 <= i < |s| ==> '0' <= s[i] <= '9'
  }

  /** A run of digits followed by "/" can be split off uniquely. */
  lemma {:induction false} SplitAfterDigits(a: string, r: string, b: string, t: string)
    requires AllDigits(a) && AllDigits(b)
    requires a + "/" + r == b + "/" + t
    ensures a == b && r == t
  {
    var s := a + "/" + r;
    assert s[|a|] == '/';
    assert (b + "/" + t)[|b|] == '/';
    assert a == s[..|a|] == b;
    assert r == s[|a| + 1..] == t;
  }

  /** Three runs of digits joined by "/" can be read back uniquely. */
  lemma SplitKey(pz: string, px: string, py: string, qz: string, qx: string, qy: string)
    requires AllDigits(pz) && AllDigits(px) && AllDigits(qz) && AllDigits(qx)
    requires pz + "/" + px + "/" + py == qz + "/" + qx + "/" + qy
    ensures pz == qz && px == qx && py == qy
  {
    assert pz + "/" + px + "/" + py == pz + "/" + (px + "/" + py);
    assert qz + "/" + qx + "/" + qy == qz + "/" + (qx + "/" + qy);
    SplitAfterDigits(pz, px + "/" + py, qz, qx + "/" + qy);
    SplitAfterDigits(px, py, qx, qy);
  }

  /** Distinct tiles never share a cache entry. */
  lemma TileKeyInjective(p: TileIndex, q: TileIndex)
    requires TileKey(p) == TileKey(q)
    ensures p == q
  {
    SplitKey(NatToString(p.z), NatToString(p.x), NatToString(p.y), NatToString(q.z), NatToString(q.x), NatToString(q.y));
    NatToStringInjective(p.z, q.z);
    NatToStringInjective(p.x, q.x);
    NatToStringInjective(p.y, q.y);
  }

  /** `[west, south, east, north]` as the box the generator draws in. */
  function BoxOf(bounds: TileBounds): BBox
    requires bounds.GeoBounds?
  {
    BBox(bounds.west, bounds.south, bounds.east, bounds.north)
  }

  /** What a tile's entry is generated as: its points at its zoom's count, seeded by its key. */
  function TileData(tile: Tile): (points: seq<TilePoint>)
    requires tile.bbox.GeoBounds?
    ensures TileCountMin <= |points| <= TileCountMax
  {
    TilePoints(BoxOf(tile.bbox), TileCount(tile.index.z), TileKey(tile.index))
  }

  /**
   * `tileCacheRef.current` together with the `tileCacheCount` state it
   * publishes. `origin` records, for each key, the tile whose data was
   * stored under it.
   */
  class TileCache {
    var entries: map<string, seq<TilePoint>>
    /** The `tileCacheCount` the page last displayed. */
    var published: nat
    ghost var origin: map<string, Tile>

    /**
     * Every entry is the generated data of the tile it was stored for, under
     * that tile's key.
     */
    ghost predicate Valid()
      reads this
    {
      && origin.Keys == entries.Keys
      && (forall key :: key in origin ==>
            origin[key].bbox.GeoBounds? && TileKey(origin[key].index) == key && entries[key] == TileData(origin[key]))
    }

    /** An empty cache showing a count of 0. */
    constructor ()
      ensures Valid() && entries == map[] && published == 0
    {
      entries := map[];
      published := 0;
      origin := map[];
    }

    /**
     * `getTileData`: no points for a non-geographic tile; the stored list on
     * a hit; otherwise generate the tile's points, store them under its key
     * and publish the new number of entries.
     */
    method GetTileData(tile: Tile) returns (points: seq<TilePoint>)
      requires Valid()
      modifies this
      ensures Valid()
      ensures tile.bbox.PlaneBounds? ==> points == [] && entries == old(entries) && published == old(published)
      ensures tile.bbox.PlaneBounds? ==> origin == old(origin)
      ensures tile.bbox.GeoBounds? && TileKey(tile.index) in old(entries) ==>
        points == old(entries)[TileKey(tile.index)] && entries == old(entries) && published == old(published)
      ensures tile.bbox.GeoBounds? && TileKey(tile.index) in old(entries) ==> origin == old(origin)
      ensures tile.bbox.GeoBounds? && TileKey(tile.index) !in old(entries) ==>
        points == TileData(tile) && entries == old(entries)[TileKey(tile.index) := points] && published == |entries|
      ensures tile.bbox.GeoBounds? && TileKey(tile.index) !in old(entries) ==>
        origin == old(origin)[TileKey(tile.index) := tile]
    {
      if !tile.bbox.GeoBounds? {
        return [];
      }
      var key := TileKey(tile.index);
      if key in entries {
        return entries[key];
      }
      var bbox := BBox(tile.bbox.west, tile.bbox.south, tile.bbox.east, tile.bbox.north);
      var count := TileCount(tile.index.z);
      points := GenerateTilePoints(bbox, count, key);
      Store(tile, points);
      Publish();
    }

    /** `tileCacheRef.current.set(key, points)` for a tile not cached yet. */
    method Store(tile: Tile, points: seq<TilePoint>)
      requires Valid() && tile.bbox.GeoBounds? && points == TileData(tile)
      modifies this
      ensures Valid()
      ensures entries == old(entries)[TileKey(tile.index) := points] && published == old(published)
      ensures origin == old(origin)[TileKey(tile.index) := tile]
    {
      var key := TileKey(tile.index);
      entries := entries[key := points];
      origin := origin[key := tile];
    }

    /** `setTileCacheCount` with the current size: the page shows how many tiles are cached. */
    method Publish()
      requires Valid()
      modifies this
      ensures Valid() && entries == old(entries) && published == |entries|
      ensures origin == old(origin)
    {
      published := |entries|;
    }

    /**
     * `handleTileLoad`: the tile layer's callback, which publishes the
     * current number of entries exactly as the last step of a miss in
     * `GetTileData` does; it is a separate entry point, so it delegates.
     */
    method OnTileLoad()
      requires Valid()
      modifies this
      ensures Valid() && entries == old(entries) && published == |entries|
      ensures origin == old(origin)
    {
      Publish();
    }
  }

  /**
   * A hit returns exactly what generating the tile afresh would give: the
   * key names the tile's zoom, column and row, and the points depend only
   * on the box, the count and the key.
   */
  lemma CachedEntryIsTileData(cache: TileCache, tile: Tile)
    requires cache.Valid() && tile.bbox.GeoBounds? && TileKey(tile.index) in cache.entries
    requires cache.origin[TileKey(tile.index)].bbox == tile.bbox
    ensures cache.entries[TileKey(tile.index)] == TileData(tile)
  {
    TileKeyInjective(cache.origin[TileKey(tile.index)].index, tile.index);
  }

  /** Every cached list holds between 24 and 100 points. */
  lemma CachedEntrySizes(cache: TileCache, key: string)
    requires cache.Valid() && key in cache.entries
    ensures TileCountMin <= |cache.entries[key]| <= TileCountMax
  {
    assert key in cache.origin;
  }

  /**
   * A miss followed by a second request for the same tile: the second
   * request hits and returns what the miss generated, the tile's own data.
   */
  method MissThenHit(cache: TileCache, tile: Tile) returns (first: seq<TilePoint>, second: seq<TilePoint>)
    requires cache.Valid() && tile.bbox.GeoBounds? && TileKey(tile.index) !in cache.entries
    modifies cache
    ensures first == TileData(tile) && second == TileData(tile)
  {
    var key := TileKey(tile.index);
    first := cache.GetTileData(tile);
    assert key in cache.entries && cache.origin[key] == tile;
    CachedEntryIsTileData(cache, tile);
    second := cache.GetTileData(tile);
    assert second == cache.entries[key];
  }
}
