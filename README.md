# Deck.gl mapping project: a verified model of its data and time logic

The application draws points of interest, clusters, a choropleth, route
arcs, a synthetic tile layer, hexagon bins and animated trips with deck.gl.
The renderer, the clustering library and the viewport projection belong to
other packages. This project models the deterministic logic the repository
itself implements, and proves properties of it:

- **Data** (`src/data.ts`): the seed hash `hashSeed` (32-bit FNV-1a over
  UTF-16 code units), the mulberry32 generator `createSeededRandom`, the
  tile point generator `generateTilePoints`, the random point generator
  `generateRandomPoints`, the min/max folds `getTripTimeRange` and
  `getPolygonValueRange`, and `isClusterFeature`. The hash and the
  generator are stated on `bv32`, where `Math.imul`, `^`, `|` and `>>>`
  wrap exactly as in JavaScript. The generator is a class whose field is
  the captured `state`. A ghost record of the numbers drawn so far ties
  every draw to a closed-form stream.
- **Tile cache** (`src/App.tsx`, `getTileData` and `handleTileLoad`): a
  class holding the `"z/x/y"`-keyed map and the published count. The
  per-zoom point count is clamped to [24, 100]. Keys are injective, hits
  return the stored list, and misses store exactly the generated points.
- **Animation clock** (`src/App.tsx`, the playback effect and its `step`):
  a class with the cursor, the play flag and the last frame time. Each
  frame advances the cursor by `delta * duration / 18000` and wraps it with
  JavaScript's `%` once it passes the end.
- **App decisions** (`src/App.tsx`): the category filter, the click-to-focus
  target and zoom, the hexagon/points exclusivity, the trail length, and
  the trips layer stacked on the base layers.
- **Layers** (`src/layers.ts`): the category, cluster and choropleth
  colours; `buildBaseLayers` as an imperative list of layer descriptors
  (each descriptor holds the id and the parameters the code picks); the
  per-item accessors; and `buildTripsLayer`.
- **Legend** (`src/ui/Legend.tsx`): the evenly spaced sample values and
  their swatches.

Positions, colours, values and clock times are exact reals. `Math.round` is
round-half-up, `Floor(x + 1/2)`. Trip timestamps are integers. A fold over
nothing, which the source reports as `(+Infinity, -Infinity)`, is `None`.

Where the declared types and the code disagree, the model follows the data
and the code. `src/types.ts` declares a trip point as an object with
`coordinates` and `timestamp`. The sample data, `getTripTimeRange` and
`buildTripsLayer` all use `[lng, lat, time]` triples, so the model does too.

## Model

| member | source | states |
|---|---|---|
| Text.NatToString | src/App.tsx:259 | A tile index number prints as a non-empty run of decimal digits |
| Text.NatToStringInjective | src/App.tsx:259 | Different numbers print differently |
| Text.Utf16 | src/data.ts:159 | A character below U+10000 is one code unit; any other is a surrogate pair |
| Text.CodeUnits | src/data.ts:158-159 | A text has at least as many UTF-16 code units as characters |
| Text.CodeUnitsOfBasicText | src/data.ts:158-159 | For text without astral characters, `charCodeAt(i)` is character i's code |
| Data.FnvFoldAppend | src/data.ts:158-161 | Hashing `s + t` equals hashing `s`, then continuing over `t` |
| Data.PrimeInvertible | src/data.ts:160 | Multiplying by the FNV prime modulo 2^32 can be undone |
| Data.FnvStep | src/data.ts:159-160 | No contract of its own: one xor-then-multiply round modulo 2^32. Data.FnvStepInjective states its meaning |
| Data.Fnv1a | src/data.ts:156-163 | No contract of its own: the round folded over the code units from the offset basis. Data.FnvFoldAppend, Data.EmptyTextHash and Data.HashSeed state its properties |
| Data.FnvStepInjective | src/data.ts:159-160 | One xor-multiply round never maps two code units to the same hash |
| Data.LastUnitChangesHash | src/data.ts:154-164 | Texts that differ only in their last code unit hash differently |
| Data.EmptyTextHash | src/data.ts:154-164 | The empty text hashes to the offset basis 2166136261 |
| Data.HashSeed | src/data.ts:154-164 | The loop computes the FNV-1a hash of the text's UTF-16 code units |
| Data.UnitInterval | src/data.ts:173 | An unsigned 32-bit value divided by 2^32 lies in [0, 1) |
| Data.Mix | src/data.ts:170-173 | No contract of its own: the mulberry32 output mix of one 32-bit state. Data.DrawFrom states the range of the draw made from it |
| Data.DrawFrom | src/data.ts:169-173 | Every draw lies in [0, 1) |
| Data.Stream | src/data.ts:166-175 | The first n draws of a seed are n numbers, each in [0, 1) |
| Data.StreamAt | src/data.ts:169-173 | Draw k comes from the state `seed + (k+1) * 0x6d2b79f5` modulo 2^32 |
| Data.StreamPrefix | src/data.ts:166-175 | A shorter stream from the same seed is a prefix of a longer one |
| Data.SeededRandom.constructor | src/data.ts:166-167 | A new generator starts at its seed with nothing drawn |
| Data.SeededRandom.Next | src/data.ts:168-174 | Each call returns the next number of the seed's stream, in [0, 1) |
| Data.PointsFromDraws | src/data.ts:186-195 | Every three draws make one point |
| Data.Scale | src/data.ts:187-188 | No contract of its own: `r * (hi - lo) + lo`. Data.ScaleInRange states its range |
| Data.Intensity | src/data.ts:189 | No contract of its own: `Math.round(r * 100) / 100`. Data.IntensityInRange states its range |
| Data.TilePointAt | src/data.ts:186-194 | No contract of its own: point i from draws 3i, 3i+1 and 3i+2. Data.TilePointsInBox states where the points lie |
| Data.SeedOf | src/data.ts:183 | No contract of its own: the FNV-1a hash of the key's code units. Data.LastUnitChangesHash and Data.EmptyTextHash state properties of that hash |
| Data.TilePoints | src/data.ts:177-198 | The generator returns exactly `count` points |
| Data.DrawTilePoint | src/data.ts:187-194 | One iteration uses the next three draws for lng, lat and intensity, and appends one point |
| Data.GenerateTilePoints | src/data.ts:177-198 | The result depends only on (bbox, count, key): it is the stream of the key's hash turned into points |
| Data.TilePointsPrefix | src/data.ts:183-197 | For n <= m the n points of a key are a prefix of its m points |
| Data.ScaleInRange | src/data.ts:187-188 | A draw in [0, 1) scaled into [lo, hi) stays there |
| Data.IntensityInRange | src/data.ts:189 | Intensity is a whole number of hundredths in [0, 1] |
| Data.TilePointsInBox | src/data.ts:186-195 | Every generated position lies in the half-open box, and every intensity in [0, 1] |
| Data.GenerateRandomPoints | src/data.ts:129-152 | Exactly `count` points; point i has id "p"+i, category i mod the list's length, and its draws |
| Data.Rating | src/data.ts:141 | No contract of its own: `Math.round(r * 50) / 10`. Data.RandomPointInRange states its range |
| Data.RandomPointAt | src/data.ts:138-147 | No contract of its own: point i from draws 3i, 3i+1 and 3i+2. Data.RandomPointIdsDistinct and Data.RandomPointInRange state its properties |
| Data.RandomPointIdsDistinct | src/data.ts:144 | Generated ids are pairwise distinct |
| Data.RandomPointInRange | src/data.ts:138-147 | Ratings are whole tenths in [0, 5], and positions lie in the box |
| Data.TripTimeRange | src/data.ts:200-213 | No timestamps gives None; otherwise start and end are timestamps and bound all the others |
| Data.PolygonValueRange | src/data.ts:215-228 | No features gives None; otherwise min and max are feature values and bound all the others |
| Data.IsClusterFeature | src/data.ts:230-232 | True exactly when the `cluster` property is true |
| TileCache.TileCount | src/App.tsx:271-275 | A tile's point count always lies in [24, 100] |
| TileCache.TileCountMonotone | src/App.tsx:271-275 | A deeper zoom never gets fewer points |
| TileCache.TileCountSaturates | src/App.tsx:45-48 | 24 up to zoom 11, `(z-10)*18` from 12 to 15, and 100 from zoom 16 on |
| TileCache.TileKey | src/App.tsx:259 | No contract of its own: the `z/x/y` string. TileCache.TileKeyInjective states that distinct tiles get distinct keys |
| TileCache.SplitKey | src/App.tsx:259 | Three digit runs joined by "/" can be read back uniquely |
| TileCache.TileKeyInjective | src/App.tsx:259 | Distinct tiles never share a `z/x/y` key |
| TileCache.TileData | src/App.tsx:265-276 | A tile's generated list has between 24 and 100 points |
| TileCache.TileCache.constructor | src/App.tsx:193-194 | The cache starts empty with a published count of 0 |
| TileCache.TileCache.GetTileData | src/App.tsx:252-289 | A non-geographic tile gives [] and changes nothing. A hit returns the stored list and changes nothing. A miss returns the tile's data, adds exactly that entry and publishes the map size |
| TileCache.TileCache.Store | src/App.tsx:277 | Adds the entry under the tile's key and leaves every other entry as it was |
| TileCache.TileCache.Publish | src/App.tsx:278-281 | The published count becomes the number of entries |
| TileCache.TileCache.OnTileLoad | src/App.tsx:291-293 | Publishes the number of entries and leaves the map as it is |
| TileCache.CachedEntryIsTileData | src/App.tsx:259-263 | A hit returns what generating the tile afresh would give |
| TileCache.MissThenHit | src/App.tsx:259-288 | After a miss stores a tile, a second request for it hits and returns the same list, the tile's own data |
| TileCache.CachedEntrySizes | src/App.tsx:271-277 | Every cached list holds between 24 and 100 points |
| Animation.JsRem | src/App.tsx:221 | JavaScript's `%` on a non-negative number and a positive divisor lies in [0, d) |
| Animation.JsRemUnique | src/App.tsx:221 | The remainder is the only value in [0, d) that differs from x by whole d's |
| Animation.Advance | src/App.tsx:216-222 | A frame that passes `end` wraps to a cursor in [start, end). Its other properties are in the lemmas below |
| Animation.BackwardFrameDips | src/App.tsx:211-222 | A frame with a negative delta, from the start of the range, puts the cursor below `start`, and the wrap test does not catch it |
| Animation.AdvanceInRange | src/App.tsx:216-223 | From inside the range and with a non-negative delta, the cursor stays in [start, end] |
| Animation.AdvanceKeepsEnd | src/App.tsx:220 | A frame that reaches `end` exactly keeps it, because the wrap test is strict |
| Animation.FullLoopLandsOnEnd | src/App.tsx:213-222 | One 18000 ms frame from `start` lands on `end`, not on `start` |
| Animation.AdvanceWraps | src/App.tsx:219-222 | Past `end`, the cursor moves back by the whole number of durations that puts it in [start, end) |
| Animation.AdvanceAdditive | src/App.tsx:216-219 | Two frames that stay within the range move as far as one frame covering both |
| Animation.AnimationClock.constructor | src/App.tsx:191-192 | Playback starts paused at the start of the range |
| Animation.AnimationClock.SetPlaying | src/App.tsx:201-212 | Starting playback restarts the frame timer; the cursor is untouched |
| Animation.AnimationClock.Seek | src/App.tsx:197-199 | The slider sets the cursor to its value and changes nothing else |
| Animation.AnimationClock.Step | src/App.tsx:201-226 | Paused or with an empty range, nothing changes. Otherwise `last` becomes `now`, the cursor advances by the time since the last frame, and it stays in range |
| App.FilterByCategory | src/App.tsx:137 | A point is kept exactly when it is in the list and has the category |
| App.FilterAppend | src/App.tsx:137 | Filtering a concatenation filters each part and keeps their order |
| App.FilterSingle | src/App.tsx:137 | A single point is kept exactly when it has the category |
| App.FilterIdempotent | src/App.tsx:132-138 | Filtering again by the same category changes nothing |
| App.ActivePoints | src/App.tsx:132-138 | "all" gives the chosen dataset unchanged; any other filter gives exactly its points of that category |
| App.Middle | src/App.tsx:93 | `floor(n/2)` is a valid index of a non-empty list |
| App.DrawingLayer | src/App.tsx:72-106 | No contract of its own: the layer id each item kind is drawn under, which is the id `getFocusPosition` tests for that kind |
| App.FocusPosition | src/App.tsx:72-106 | No object or layer id gives no target. A target comes only from the layer that draws the item and is one of the item's own coordinates. An item with a coordinate, clicked on its own layer, always gives a target. An item with one coordinate is focused on that coordinate |
| App.FocusOnClickedItem | src/App.tsx:77-103 | A point, a cluster, a polygon and a hexagon bin each focus their own position on the layer that draws them |
| App.FocusPositionAsWritten | src/App.tsx:97-99 | As written, a trip never gives a target. This is latent, because the trips layer is not pickable |
| App.TripFocusLost | src/App.tsx:97-99 | A trip with a path has a first point to focus, but the code as written returns null. No click reaches this today (App.ClickedLayersAgree) |
| App.RouteFocusIsMiddle | src/App.tsx:90-95 | A non-empty route focuses its middle coordinate, which is in bounds |
| App.NoFocusWithoutTarget | src/App.tsx:72-106 | An unknown layer id or an empty route gives no target |
| App.HandleClick | src/App.tsx:361-381 | With a target, the view centres on it and zooms to max(previous, 14) with an 800 ms transition; without one, it is unchanged |
| App.HandleClickIdempotent | src/App.tsx:372-378 | Clicking the same target again changes nothing more |
| App.EffectiveShowPoints | src/App.tsx:123 | Points are drawn exactly when they are on and the hexagons are off |
| App.SyncShowPoints | src/App.tsx:125-129 | After the effect, the points toggle and the hexagons are never both on |
| App.SyncKeepsEffective | src/App.tsx:123-129 | The effect never changes what is drawn |
| App.TrailLength | src/App.tsx:326 | The trail is the larger of 20000 ms and 35% of the duration |
| App.TrailLengthMonotone | src/App.tsx:326 | A longer duration never gets a shorter trail |
| App.ComposeLayers | src/App.tsx:340-345 | The base layers come first, unchanged, with the trips layer on top when present |
| App.ComposeKeepsOrder | src/App.tsx:340-345 | The composed list stays in drawing order and has a trips layer exactly when trips are shown |
| App.ClickedLayersAgree | src/layers.ts:224-236 | Every layer deck.gl can report a click on is not the trips layer, so the as-written focus code and the corrected one agree on every click that can happen |
| Layers.CategoryColorAsWritten | src/layers.ts:27-30 | As written, the lookup fails exactly on names inherited from Object.prototype |
| Layers.CategoryColorThrowsOnInheritedName | src/layers.ts:28-29 | "toString" is a category the code as written cannot colour |
| Layers.CategoryColor | src/layers.ts:19-30 | A known category gets its palette colour and any other gets slate grey, always with alpha 200 |
| Layers.CategoryColorAgrees | src/layers.ts:27-30 | Wherever the code as written does not throw, it gives the intended colour |
| Layers.ClusterColor | src/layers.ts:32-43 | Each of the four colours is used on exactly one interval of counts |
| Layers.ClusterColorMonotone | src/layers.ts:32-43 | A larger cluster never falls in a smaller bucket |
| Layers.RampPosition | src/layers.ts:54 | The ramp position is clamped to [0, 1] |
| Layers.LerpBetween | src/layers.ts:58-60 | Interpolating at t in [0, 1] stays between the two ends |
| Layers.Channel | src/layers.ts:58-60 | A rounded channel lies between its start and end values |
| Layers.ChoroplethColor | src/layers.ts:45-63 | A one-point range gives the flat colour; otherwise every channel is on the ramp; alpha is 200 |
| Layers.ChoroplethAtOrBelowMin | src/layers.ts:54-62 | On an increasing range, a value at or below min gets the ramp's start colour |
| Layers.ChoroplethAtOrAboveMax | src/layers.ts:54-62 | On an increasing range, a value at or above max gets the ramp's end colour |
| Layers.ChannelDescending | src/layers.ts:58-60 | A channel that falls along the ramp never rises with t |
| Layers.ChoroplethMonotone | src/layers.ts:45-63 | On an increasing range, a larger value is never lighter in any channel |
| Layers.Pickable | src/layers.ts:88-236 | No contract of its own: the polygons, routes, points and hexagon layers are pickable, and the tile and trips layers are not. App.ClickedLayersAgree uses it |
| Layers.PolygonsLayerOf | src/layers.ts:91-104 | No contract of its own: the polygons descriptor. Layers.BaseLayersMembers places it |
| Layers.RoutesLayerOf | src/layers.ts:107-123 | No contract of its own: the arcs descriptor. Layers.BaseLayersMembers places it |
| Layers.PointsLayerOf | src/layers.ts:125-164 | No contract of its own: the scatter descriptor. Layers.HexagonModeDimsPoints and Layers.PointsLayerData state its properties |
| Layers.HexagonLayerOf | src/layers.ts:180-217 | No contract of its own: the hexagon descriptor. Layers.BaseLayersMembers places it |
| Layers.HexagonModeDimsPoints | src/layers.ts:125-130 | With hexagons on, the points keep their data and get lower opacity, cluster scale and radius |
| Layers.PointsLayerData | src/layers.ts:126 | The points layer draws clusters exactly when clustering is shown |
| Layers.PushInOrder | src/layers.ts:88-217 | Pushing a layer that ranks above everything already there keeps the drawing order |
| Layers.BaseLayersInOrder | src/layers.ts:88-217 | The base layers come out as polygons, routes, points, tiles, hexagon |
| Layers.BaseLayersMembers | src/layers.ts:88-217 | Each optional layer is present exactly when its flag is set, and the tile layer always |
| Layers.BaseLayersNothingElse | src/layers.ts:88-217 | No layer other than the five descriptors appears |
| Layers.BuildBaseLayers | src/layers.ts:88-217 | Layers are in the order polygons, routes, points, tiles, hexagon. The tile layer is always present, each other layer exactly when its flag is set, and nothing else appears |
| Layers.RouteWidth | src/layers.ts:117 | The arc width is the larger of 2 and volume/15 |
| Layers.PolygonFill | src/layers.ts:99-100 | No contract of its own: the choropleth colour of the feature's value over the layer's range. Layers.ChoroplethColor states its properties |
| Layers.RouteSource | src/layers.ts:114 | An arc starts at the route's first coordinate |
| Layers.RouteTarget | src/layers.ts:115-116 | An arc ends at the route's last coordinate |
| Layers.ItemRadius | src/layers.ts:144-150 | A cluster's radius is at least 10 and at least root(count) * scale; any other item gets the point radius |
| Layers.ItemPosition | src/layers.ts:138-143 | No contract of its own: a feature's geometry coordinates, or a point's position |
| Layers.ItemCount | src/layers.ts:146 | No contract of its own: `point_count ?? 1` |
| Layers.ItemCategory | src/layers.ts:156-159 | No contract of its own: the point's category, or the feature's property, or "". Layers.ItemFill uses it |
| Layers.IsClusterItem | src/layers.ts:145 | No contract of its own: a clustering-library feature whose `cluster` property is true, the test `getRadius` and `getFillColor` make. Layers.ItemRadius and Layers.ItemFill are stated through it |
| Layers.ItemFill | src/layers.ts:151-160 | Clusters get the cluster colour of their count; other items get their category colour |
| Layers.PathPositions | src/layers.ts:227 | A trip's path is the [lng, lat] of every point, in order |
| Layers.ShiftedTimes | src/layers.ts:228 | Every timestamp is moved back by the offset |
| Layers.BuildTripsLayer | src/layers.ts:219-237 | No layer exactly when trips are hidden; otherwise a "trips" layer with the trips as data, one path and one timestamp list per trip, the given trail length, and the current time moved back by the offset |
| Layers.TripsLayerKeepsTiming | src/layers.ts:228-233 | Shifting timestamps and the current time by the same offset keeps which points have been reached |
| Legend.LegendValues | src/ui/Legend.tsx:10-15 | The legend has exactly `steps` values |
| Legend.LegendValue | src/ui/Legend.tsx:11-14 | No contract of its own: sample `index` of `steps`. Legend.LegendEndpoints, Legend.LegendEvenlySpaced and Legend.LegendValueOrdered state its properties |
| Legend.LegendSingleStep | src/ui/Legend.tsx:11-13 | One step shows `min` alone |
| Legend.LegendEndpoints | src/ui/Legend.tsx:14 | With two or more steps, the first value is min and the last is max |
| Legend.ValueStep | src/ui/Legend.tsx:14 | Neighbouring samples of two or more differ by (max - min)/(steps - 1), stated on the formula |
| Legend.LegendEvenlySpaced | src/ui/Legend.tsx:14 | With two or more steps, neighbouring samples are exactly (max - min)/(steps - 1) apart |
| Legend.LegendValueOrdered | src/ui/Legend.tsx:10-15 | If min <= max, a later sample is never smaller, and every sample lies in [min, max] |
| Legend.LegendOrdered | src/ui/Legend.tsx:14 | If min <= max, the values never decrease and stay within [min, max] |
| Legend.SwatchOf | src/ui/Legend.tsx:22-28 | A swatch has the value's choropleth colour, alpha 200/255, and the value rounded as its caption |
| Legend.Swatches | src/ui/Legend.tsx:21-31 | There is one swatch per value |
| Legend.LegendRampEnds | src/ui/Legend.tsx:21-28 | On an increasing range, the first swatch is the ramp's start and the last is its end |
| Legend.SwatchesDarken | src/ui/Legend.tsx:21-28 | On an increasing range, later swatches are never lighter in any channel |
| Legend.DefaultLegend | src/ui/Legend.tsx:9 | The legend App renders has the default five swatches. On an increasing range it runs from the ramp's start to its end, and the middle swatch is captioned with the midpoint of the range, rounded |

## Left out

- Point clustering: it is the `supercluster` package, which is not part of this model. Its output is an input (`BaseLayersParams.clusters`).
- Viewport bounds: `WebMercatorViewport.getBounds` is floating-point projection in deck.gl, which is not part of this model.
- React state, effects, memoisation, `requestAnimationFrame` scheduling and window resizing. A frame is an explicit `Step(now)` call, and a render is a call of the pure functions.
- The FPS counter: it is a wall-clock diagnostic.
- The `try`/`catch` guards in `getTileData` and the clustering memo. The only modelled failure is the as-written colour lookup (`Layers.CategoryColorAsWritten`). It would throw inside a deck.gl colour accessor, outside any `try`.
- `Layers.ItemFill`: uses the corrected `Layers.CategoryColor`, not the as-written lookup. The two differ only on the inherited names in the Findings table, which no category list contains.
- `App.HandleClick`: uses the corrected `App.FocusPosition`, not the as-written one. The two differ only on the trips layer, which is not pickable (`App.ClickedLayersAgree`).
- deck.gl layer construction and rendering. Layers are descriptors, and accessor styling constants such as line colours and material are not recorded.
- The tooltip, the focus summary text, the control panel and the legend markup.
- IEEE-754 rounding: arithmetic is on exact reals, so nothing here claims bit-exact double results.
- `Data.SeededRandom`: the JavaScript `state` is a double that grows without wrapping. Every read of it goes through 32-bit operations, so only its low 32 bits are kept. A state past 2^53, which needs about 2^22 draws, is not modelled.
- `Data.HashSeed`: takes a string. The `String(value)` conversion of a numeric seed is not modelled.
- `Data.GenerateTilePoints`: takes `count` and `seedKey` explicitly. The defaults `count = 120` and `seedKey = 'tile-seed'` are not modelled, because the only caller passes both.
- `Layers.PolygonFill`: a feature always has a value. The `properties?.value ?? 0` default is not modelled.
- `Data.GenerateRandomPoints`: the `Math.random()` results are passed in as a sequence. The default bbox and category list are not modelled.
- `Layers.ItemRadius`: `Math.sqrt(point_count ?? 1)` is a parameter `root`, because square roots are not exact on reals.
- `Legend.LegendValues`: `steps` is a natural number. Fractional or negative `steps` are not modelled.
- `App.FocusPosition`: a picked object is one of the item kinds the layers draw. An object under a layer id that never draws it gives no target, and JavaScript duck typing of other shapes is not modelled.
- `Animation.AnimationClock.Step`: requires `now >= last`. Later frames compare two animation-frame timestamps, which never go backwards. The first frame after Play is measured against `last = performance.now()`, which the effect reads itself, and an animation frame's timestamp can be earlier than that read. The source applies `delta = now - last` unchecked, so that first delta can be negative. From the initial cursor the frame then dips below `start` (`Animation.BackwardFrameDips`). That dip is the case the model excludes. The clock's range is given, and `Seek` takes values within the slider's range.
- `TileCache.TileCache.GetTileData`: the points are generated from the tile's `index.z`. The `?? 0` default for a missing index is not modelled, because the key is built from the same index first.
- The `onTileLoad` callback that `App` passes to `buildBaseLayers`: `buildBaseLayers` never reads it, so the tile layer never calls it. `TileCache.TileCache.OnTileLoad` models the handler on its own.
- The 180-tile `maxCacheSize` belongs to deck.gl's tile layer. The application's own cache never evicts, and the model does not either.

## Findings

| source | as written | input that shows it | evidently intended | confidence | as-written member | corrected member |
|---|---|---|---|---|---|---|
| src/layers.ts:27-30 | `CATEGORY_COLORS[category] ?? grey` then `[...rgb, 200]` | category "toString": the lookup finds `Object.prototype.toString`, which is not nullish, and spreading a function throws a TypeError | slate grey [148, 163, 184, 200] for every unknown category | not executed; real categories come from a fixed list | Layers.CategoryColorAsWritten, Layers.CategoryColorThrowsOnInheritedName | Layers.CategoryColor |
| src/App.tsx:97-99 | `object.path?.[0]?.coordinates ?? null` on the `trips` layer | any trip with a path, e.g. path `[[-122.406417, 37.785834, 1672531200000]]`: the entry is a triple, so `.coordinates` is undefined and `getFocusPosition` returns null. The defect is latent at the function level: `buildTripsLayer` (src/layers.ts:224-236) does not set `pickable`, so deck.gl never reports a click on a trip (App.ClickedLayersAgree) | the first path point's [lng, lat]. The "Click any layer to focus the camera" hint (src/ui/ControlPanel.tsx:171) needs the trips layer made pickable as well | not executed | App.FocusPositionAsWritten, App.TripFocusLost | App.FocusPosition |
