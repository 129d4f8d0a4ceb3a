/**
 * The deterministic data helpers of `src/data.ts`: the FNV-1a seed hash,
 * the mulberry32 stream it seeds, the synthetic tile and point generators,
 * and the two min/max folds over the sample trips and polygons.
 *
 * JavaScript's `Math.imul`, `^`, `|` and `>>>` all work on the low 32 bits
 * of their operands, so the hash and the generator are stated on `bv32`,
 * where addition and multiplication wrap exactly as they do there.
 */
module Data {
  import opened Types
  import opened Text

  // ---------------------------------------------------------------------
  // hashSeed: 32-bit FNV-1a over UTF-16 code units
  // ---------------------------------------------------------------------

  /** The 32-bit FNV offset basis, 2166136261. */
  const FnvOffsetBasis: bv32 := 0x811C_9DC5

  /**
   * One FNV-1a round: xor the code unit in, then multiply by the 32-bit FNV
   * prime 16777619 (0x01000193).
   */
  function FnvStep(h: bv32, u: CodeUnit): bv32 {
    (h ^ (u as bv32)) * 0x0100_0193
  }

  /** FNV-1a continued from the intermediate value `h` over `units`, first unit first. */
  function FnvFold(h: bv32, units: seq<CodeUnit>): bv32
    decreases |units|
  {
    if units == [] then h else FnvFold(FnvStep(h, units[0]), units[1..])
  }

  /** The FNV-1a hash of a sequence of code units. */
  function Fnv1a(units: seq<CodeUnit>): bv32 {
    FnvFold(FnvOffsetBasis, units)
  }

  /** Hashing `s + t` is hashing `s` and then carrying on over `t`. */
  lemma {:induction false} FnvFoldAppend(h: bv32, s: seq<CodeUnit>, t: seq<CodeUnit>)
    ensures FnvFold(h, s + t) == FnvFold(FnvFold(h, s), t)
    decreases |s|
  {
    if s == [] {
      assert s + t == t;
    } else {
      assert (s + t)[0] == s[0] && (s + t)[1..] == s[1..] + t;
      FnvFoldAppend(FnvStep(h, s[0]), s[1..], t);
    }
  }

  /** The prime is odd, so it has an inverse modulo 2^32 (0x359C449B). */
  lemma PrimeInvertible(x: bv32)
    ensures x * 0x0100_0193 * 0x359C_449B == x
  {
  }

  /** A round never maps two different code units to the same value. */
  lemma FnvStepInjective(h: bv32, a: CodeUnit, b: CodeUnit)
    requires FnvStep(h, a) == FnvStep(h, b)
    ensures a == b
  {
    PrimeInvertible(h ^ (a as bv32));
    PrimeInvertible(h ^ (b as bv32));
    assert h ^ (a as bv32) == h ^ (b as bv32);
    assert (a as bv32) == (b as bv32);
  }

  /**
   * Two texts that differ only in their last code unit hash differently;
   * for instance the tile keys "1/2/3" and "1/2/4".
   */
  lemma LastUnitChangesHash(s: seq<CodeUnit>, a: CodeUnit, b: CodeUnit)
    requires a != b
    ensures Fnv1a(s + [a]) != Fnv1a(s + [b])
  {
    FnvFoldAppend(FnvOffsetBasis, s, [a]);
    FnvFoldAppend(FnvOffsetBasis, s, [b]);
    if Fnv1a(s + [a]) == Fnv1a(s + [b]) {
      FnvStepInjective(Fnv1a(s), a, b);
    }
  }

  /** The empty text hashes to the offset basis, 2166136261. */
  lemma EmptyTextHash()
    ensures Fnv1a(CodeUnits("")) == FnvOffsetBasis
  {
  }

  /** `hashSeed(text)`: the loop of data.ts, proved to compute FNV-1a. */
  method HashSeed(text: string) returns (hash: bv32)
    ensures hash == Fnv1a(CodeUnits(text))
  {
    var units := CodeUnits(text);
    hash := FnvOffsetBasis;
    var i := 0;
    while i < |units|
      invariant 0 <= i <= |units|
      invariant FnvFold(hash, units[i..]) == Fnv1a(units)
    {
      assert units[i..][1..] == units[i + 1..];
      hash := FnvStep(hash, units[i]);
      i := i + 1;
    }
  }

  // ---------------------------------------------------------------------
  // createSeededRandom: mulberry32
  // ---------------------------------------------------------------------

  /** The amount the generator adds to its state before every draw. */
  const StateIncrement: bv32 := 0x6d2b_79f5

  const TwoTo32: int := 0x1_0000_0000

  /** The mulberry32 output mix of one 32-bit state. */
  function Mix(s: bv32): bv32 {
    var t := (s ^ (s >> 15)) * (s | 1);
    var t' := t ^ (t + (t ^ (t >> 7)) * (t | 61));
    t' ^ (t' >> 14)
  }

  /** `n / 4294967296` for an unsigned 32-bit `n`: a number in [0, 1). */
  function UnitInterval(n: bv32): (r: real)
    ensures 0.0 <= r < 1.0
  {
    Fraction(n as int)
  }

  function Fraction(m: int): (r: real)
    requires 0 <= m < TwoTo32
    ensures 0.0 <= r < 1.0
  {
    m as real / TwoTo32 as real
  }

  /** The number a draw returns once the state has reached `state`. */
  function DrawFrom(state: bv32): (r: real)
    ensures 0.0 <= r < 1.0
  {
    UnitInterval(Mix(state))
  }

  /** The state (modulo 2^32) after `k` draws from a generator seeded with `seed`. */
  function StateAfter(seed: bv32, k: nat): bv32 {
    if k == 0 then seed else StateAfter(seed, k - 1) + 0x6d2b_79f5
  }

  /** The first `n` numbers of the stream a generator seeded with `seed` returns. */
  function Stream(seed: bv32, n: nat): (s: seq<real>)
    ensures |s| == n
    ensures forall k :: 0 <= k < n ==> 0.0 <= s[k] < 1.0
  {
    if n == 0 then [] else Stream(seed, n - 1) + [DrawFrom(StateAfter(seed, n))]
  }

  /** Draw `k` of the stream comes from the state reached after `k + 1` increments. */
  lemma {:induction false} StreamAt(seed: bv32, n: nat, k: nat)
    requires k < n
    ensures Stream(seed, n)[k] == DrawFrom(StateAfter(seed, k + 1))
  {
    if k < n - 1 {
      StreamAt(seed, n - 1, k);
    }
  }

  /** A shorter stream from the same seed is a prefix of a longer one. */
  lemma {:induction false} StreamPrefix(seed: bv32, n: nat, m: nat)
    requires n <= m
    ensures Stream(seed, n) == Stream(seed, m)[..n]
  {
    if n < m {
      StreamPrefix(seed, n, m - 1);
      assert Stream(seed, m)[..m - 1] == Stream(seed, m - 1);
    }
  }

  /**
   * The closure returned by `createSeededRandom`: its captured `state` is a
   * field. The JavaScript state is a number that keeps growing by the
   * increment, but every operation on it reads only its low 32 bits, so the
   * field holds those bits.
   */
  class SeededRandom {
    var state: bv32
    /** The seed the generator was created with. */
    ghost const seed: bv32
    /** The numbers it has returned so far, in order. */
    ghost var drawn: seq<real>

    ghost predicate Valid()
      reads this
    {
      state == StateAfter(seed, |drawn|) && drawn == Stream(seed, |drawn|)
    }

    /** `createSeededRandom(seed)`: the state starts at `seed >>> 0`. */
    constructor (seed: bv32)
      ensures Valid() && this.seed == seed && drawn == []
    {
      this.seed := seed;
      state := seed;
      drawn := [];
    }

    /** One call of the closure: the next number of the stream. */
    method Next() returns (r: real)
      requires Valid()
      modifies this
      ensures Valid() && drawn == old(drawn) + [r]
      ensures 0.0 <= r < 1.0
    {
      state := state + StateIncrement;
      assert state == StateAfter(seed, |drawn| + 1);
      r := DrawFrom(state);
      assert drawn + [r] == Stream(seed, |drawn| + 1);
      drawn := drawn + [r];
    }
  }

  // ---------------------------------------------------------------------
  // generateTilePoints
  // ---------------------------------------------------------------------

  /** A draw in [0, 1) scaled into the span from `lo` to `hi`. */
  function Scale(r: real, lo: real, hi: real): real {
    r * (hi - lo) + lo
  }

  /** `Math.round(r * 100) / 100`. */
  function Intensity(r: real): real {
    Round(r * 100.0) as real / 100.0
  }

  /** Point `i` of a tile: draws 3i, 3i+1 and 3i+2 give lng, lat and intensity. */
  function TilePointAt(bbox: BBox, draws: seq<real>, i: nat): TilePoint
    requires 3 * i + 2 < |draws|
  {
    TilePoint(
      LngLat(Scale(draws[3 * i], bbox.minLng, bbox.maxLng),
             Scale(draws[3 * i + 1], bbox.minLat, bbox.maxLat)),
      Intensity(draws[3 * i + 2]))
  }

  /** The seed a key string yields. */
  function SeedOf(seedKey: string): bv32 {
    Fnv1a(CodeUnits(seedKey))
  }

  /** The points three consecutive draws each give, in order. */
  function PointsFromDraws(bbox: BBox, draws: seq<real>): (points: seq<TilePoint>)
    ensures |points| == |draws| / 3
  {
    seq(|draws| / 3, i requires 0 <= i < |draws| / 3 => TilePointAt(bbox, draws, i))
  }

  /** What `generateTilePoints(bbox, count, seedKey)` returns. */
  function TilePoints(bbox: BBox, count: nat, seedKey: string): (points: seq<TilePoint>)
    ensures |points| == count
  {
    PointsFromDraws(bbox, Stream(SeedOf(seedKey), 3 * count))
  }

  /** One iteration of the loop in `generateTilePoints`: three draws, one more point. */
  method DrawTilePoint(random: SeededRandom, bbox: BBox) returns (point: TilePoint)
    requires random.Valid() && |random.drawn| % 3 == 0
    modifies random
    ensures random.Valid()
    ensures |random.drawn| == |old(random.drawn)| + 3
    ensures PointsFromDraws(bbox, random.drawn) == PointsFromDraws(bbox, old(random.drawn)) + [point]
  {
    ghost var before := random.drawn;
    var u := random.Next();
    var lng := Scale(u, bbox.minLng, bbox.maxLng);
    var v := random.Next();
    var lat := Scale(v, bbox.minLat, bbox.maxLat);
    var w := random.Next();
    var intensity := Intensity(w);
    point := TilePoint(LngLat(lng, lat), intensity);
    assert random.drawn == before + [u, v, w];
    assert point == TilePointAt(bbox, random.drawn, |before| / 3);
  }

  /**
   * `generateTilePoints`: reseeds a fresh generator from the key and pushes
   * one point per three draws.
   */
  method GenerateTilePoints(bbox: BBox, count: nat, seedKey: string) returns (points: seq<TilePoint>)
    ensures points == TilePoints(bbox, count, seedKey)
  {
    var seed := HashSeed(seedKey);
    var random := new SeededRandom(seed);
    points := [];
    var i := 0;
    while i < count
      invariant 0 <= i <= count
      invariant random.Valid() && random.seed == seed && |random.drawn| == 3 * i
      invariant points == PointsFromDraws(bbox, random.drawn)
    {
      var point := DrawTilePoint(random, bbox);
      points := points + [point];
      i := i + 1;
    }
  }

  /** Fewer points for the same key are a prefix of more points. */
  lemma TilePointsPrefix(bbox: BBox, n: nat, m: nat, seedKey: string)
    requires n <= m
    ensures TilePoints(bbox, n, seedKey) == TilePoints(bbox, m, seedKey)[..n]
  {
    StreamPrefix(SeedOf(seedKey), 3 * n, 3 * m);
  }

  lemma ProductBelow(a: real, c: real, p: real)
    requires 0.0 <= a < 1.0 && c > 0.0 && p == a * c
    ensures 0.0 <= p < c
  {
  }

  /** r in [0, 1) scaled into [lo, hi) stays there. */
  lemma ScaleInRange(r: real, lo: real, hi: real)
    requires 0.0 <= r < 1.0 && lo < hi
    ensures lo <= Scale(r, lo, hi) < hi
  {
    ProductBelow(r, hi - lo, Scale(r, lo, hi) - lo);
  }

  /** Intensity is a whole number of hundredths between 0 and 1. */
  lemma IntensityInRange(r: real)
    requires 0.0 <= r < 1.0
    ensures (Intensity(r) * 100.0).Floor as real == Intensity(r) * 100.0
    ensures 0.0 <= Intensity(r) <= 1.0
  {
    var k := Round(r * 100.0);
    assert 0 <= k <= 100;
    assert Intensity(r) == k as real / 100.0;
  }

  /** Every generated point lies in the box and has an intensity in [0, 1]. */
  lemma TilePointsInBox(bbox: BBox, count: nat, seedKey: string, i: nat)
    requires bbox.minLng < bbox.maxLng && bbox.minLat < bbox.maxLat
    requires i < count
    ensures var p := TilePoints(bbox, count, seedKey)[i];
      && bbox.minLng <= p.position.lng < bbox.maxLng
      && bbox.minLat <= p.position.lat < bbox.maxLat
      && 0.0 <= p.intensity <= 1.0
  {
    var draws := Stream(SeedOf(seedKey), 3 * count);
    ScaleInRange(draws[3 * i], bbox.minLng, bbox.maxLng);
    ScaleInRange(draws[3 * i + 1], bbox.minLat, bbox.maxLat);
    IntensityInRange(draws[3 * i + 2]);
  }

  // ---------------------------------------------------------------------
  // generateRandomPoints (the Math.random draws are an input)
  // ---------------------------------------------------------------------

  /** `Math.round(r * 50) / 10`. */
  function Rating(r: real): real {
    Round(r * 50.0) as real / 10.0
  }

  /** Point `i` of `generateRandomPoints`, from draws 3i, 3i+1 and 3i+2. */
  function RandomPointAt(bbox: BBox, categories: seq<string>, draws: seq<real>, i: nat): PointDatum
    requires |categories| > 0 && 3 * i + 2 < |draws|
  {
    PointDatum(
      "p" + NatToString(i),
      categories[i % |categories|],
      Rating(draws[3 * i + 2]),
      LngLat(Scale(draws[3 * i], bbox.minLng, bbox.maxLng), Scale(draws[3 * i + 1], bbox.minLat, bbox.maxLat)))
  }

  /**
   * `generateRandomPoints(count, bbox, categories)`, with the successive
   * results of `Math.random()` supplied as `draws`.
   */
  method GenerateRandomPoints(count: nat, bbox: BBox, categories: seq<string>, draws: seq<real>)
    returns (points: seq<PointDatum>)
    requires |categories| > 0
    requires |draws| >= 3 * count
    ensures |points| == count
    ensures forall i :: 0 <= i < count ==> points[i] == RandomPointAt(bbox, categories, draws, i)
  {
    points := [];
    var i := 0;
    while i < count
      invariant 0 <= i <= count
      invariant |points| == i
      invariant forall k :: 0 <= k < i ==> points[k] == RandomPointAt(bbox, categories, draws, k)
    {
      var lng := Scale(draws[3 * i], bbox.minLng, bbox.maxLng);
      var lat := Scale(draws[3 * i + 1], bbox.minLat, bbox.maxLat);
      var category := categories[i % |categories|];
      var rating := Rating(draws[3 * i + 2]);
      points := points + [PointDatum("p" + NatToString(i), category, rating, LngLat(lng, lat))];
      i := i + 1;
    }
  }

  /** Generated ids are pairwise distinct. */
  lemma RandomPointIdsDistinct(bbox: BBox, categories: seq<string>, draws: seq<real>, i: nat, j: nat)
    requires |categories| > 0 && 3 * i + 2 < |draws| && 3 * j + 2 < |draws|
    requires i != j
    ensures RandomPointAt(bbox, categories, draws, i).id != RandomPointAt(bbox, categories, draws, j).id
  {
    var a, b := NatToString(i), NatToString(j);
    if "p" + a == "p" + b {
      assert a == ("p" + a)[1..] == ("p" + b)[1..] == b;
      NatToStringInjective(i, j);
    }
  }

  /** With draws in [0, 1) the rating is a whole number of tenths in [0, 5] and the position is in the box. */
  lemma RandomPointInRange(bbox: BBox, categories: seq<string>, draws: seq<real>, i: nat)
    requires |categories| > 0 && 3 * i + 2 < |draws|
    requires forall k :: 0 <= k < |draws| ==> 0.0 <= draws[k] < 1.0
    requires bbox.minLng < bbox.maxLng && bbox.minLat < bbox.maxLat
    ensures var p := RandomPointAt(bbox, categories, draws, i);
      && 0.0 <= p.rating <= 5.0
      && (p.rating * 10.0).Floor as real == p.rating * 10.0
      && bbox.minLng <= p.position.lng < bbox.maxLng
      && bbox.minLat <= p.position.lat < bbox.maxLat
  {
    var k := Round(draws[3 * i + 2] * 50.0);
    assert 0 <= k <= 50;
    assert Rating(draws[3 * i + 2]) == k as real / 10.0;
    ScaleInRange(draws[3 * i], bbox.minLng, bbox.maxLng);
    ScaleInRange(draws[3 * i + 1], bbox.minLat, bbox.maxLat);
  }

  // ---------------------------------------------------------------------
  // getTripTimeRange and getPolygonValueRange
  // ---------------------------------------------------------------------

  datatype TimeRange = TimeRange(start: int, end: int)

  datatype ValueRange = ValueRange(min: real, max: real)

  /** The timestamps of one path, in order. */
  function PathTimes(path: seq<TripPoint>): (times: seq<int>)
    ensures |times| == |path|
  {
    seq(|path|, j requires 0 <= j < |path| => path[j].time)
  }

  /** Every timestamp of every trip, in visiting order. */
  function Timestamps(trips: seq<TripDatum>): seq<int> {
    if trips == [] then [] else Timestamps(trips[..|trips| - 1]) + PathTimes(trips[|trips| - 1].path)
  }

  /**
   * `getTripTimeRange`: the earliest and latest timestamp over all trips.
   * Where the source returns `(+Infinity, -Infinity)` for no timestamps at
   * all, this returns `None`.
   */
  method TripTimeRange(trips: seq<TripDatum>) returns (range: Option<TimeRange>)
    ensures range.None? <==> Timestamps(trips) == []
    ensures range.Some? ==> range.value.start in Timestamps(trips) && range.value.end in Timestamps(trips)
    ensures range.Some? ==> forall t :: t in Timestamps(trips) ==> range.value.start <= t <= range.value.end
  {
    var found := false;
    var start, end := 0, 0;
    ghost var seen: seq<int> := [];
    var i := 0;
    while i < |trips|
      invariant 0 <= i <= |trips|
      invariant seen == Timestamps(trips[..i])
      invariant found <==> seen != []
      invariant found ==> start in seen && end in seen
      invariant forall k :: 0 <= k < |seen| ==> start <= seen[k] <= end
    {
      var path := trips[i].path;
      var j := 0;
      while j < |path|
        invariant 0 <= j <= |path|
        invariant seen == Timestamps(trips[..i]) + PathTimes(path[..j])
        invariant found <==> seen != []
        invariant found ==> start in seen && end in seen
        invariant forall k :: 0 <= k < |seen| ==> start <= seen[k] <= end
      {
        var time := path[j].time;
        if !found || time < start { start := time; }
        if !found || time > end { end := time; }
        found := true;
        assert PathTimes(path[..j + 1]) == PathTimes(path[..j]) + [time];
        seen := seen + [time];
        j := j + 1;
      }
      assert path[..j] == path;
      assert trips[..i + 1][..i] == trips[..i];
      i := i + 1;
    }
    assert trips[..i] == trips;
    range := if found then Some(TimeRange(start, end)) else None;
  }

  /** The `value` property of every feature, in order. */
  function FeatureValues(features: seq<PolygonFeature>): (values: seq<real>)
    ensures |values| == |features|
  {
    seq(|features|, j requires 0 <= j < |features| => features[j].value)
  }

  /**
   * `getPolygonValueRange`: the least and greatest feature value; `None`
   * where the source returns `(+Infinity, -Infinity)` for no features.
   */
  method PolygonValueRange(features: seq<PolygonFeature>) returns (range: Option<ValueRange>)
    ensures range.None? <==> features == []
    ensures range.Some? ==> range.value.min in FeatureValues(features) && range.value.max in FeatureValues(features)
    ensures range.Some? ==> forall k :: 0 <= k < |features| ==> range.value.min <= features[k].value <= range.value.max
  {
    var found := false;
    var min, max := 0.0, 0.0;
    var i := 0;
    while i < |features|
      invariant 0 <= i <= |features|
      invariant found <==> i > 0
      invariant found ==> min in FeatureValues(features)[..i] && max in FeatureValues(features)[..i]
      invariant forall k :: 0 <= k < i ==> min <= features[k].value <= max
    {
      var value := features[i].value;
      if !found || value < min { min := value; }
      if !found || value > max { max := value; }
      found := true;
      assert FeatureValues(features)[..i + 1] == FeatureValues(features)[..i] + [value];
      i := i + 1;
    }
    assert FeatureValues(features)[..i] == FeatureValues(features);
    range := if found then Some(ValueRange(min, max)) else None;
  }

  /** `isClusterFeature`: true exactly when the `cluster` property is `true`. */
  function IsClusterFeature(feature: ClusterFeature): (b: bool)
    ensures b <==> feature.cluster == Some(true)
  {
    feature.cluster.Some? && feature.cluster.value
  }
}
