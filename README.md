# osgEarth altitude filter

A Dafny model of osgEarth's `AltitudeFilter`, the feature filter that resolves the Z of every
vertex of a batch of vector features according to the style's altitude symbol, and that
records two per-feature statistics as attributes: the height-above-terrain range
(`__min_hat` / `__max_hat`) and the terrain-elevation range (`__min_terrain_z` /
`__max_terrain_z`).

`push` picks one path for the whole batch:
- the clamp path needs a clamping symbol, a session and a profile;
- otherwise the no-clamp path scales and offsets every Z and records the HAT range of the new Z values.

The clamp path works on each geometry part in turn and branches on the mode:
- ABSOLUTE only measures. The HAT of a vertex is its Z minus its elevation.
- RELATIVE_TO_TERRAIN adds the elevation to Z. The HAT of a vertex is its Z from before that update.
- TO_TERRAIN (and any other mode) lets the elevation query write the terrain height into Z.
  It then scales and offsets Z. Nothing is recorded.

Layout:
- `optional.dfy`: the `Option` type.
- `extrema.dfy`: the running minimum/maximum.
  - The `DBL_MAX` sentinel becomes `None`; `Fold` is the loop that updates it.
  - The lemmas cover least/greatest, concatenation, order independence and folding over several parts.
- `features.dfy`: the `Feature` class.
  - Each part is an `array<Point>` that the filter rewrites in place; the attributes are a `map`.
  - `Separate` states that the features of a batch share no buffer.
- `altitude.dfy`: the functions that say what the filter computes.
  - `ClampPart` covers one part; `ClampFeature` and `DontClampFeature` cover one feature.
  - `ClampState`, `DontClampState` and `Resolve` give a feature's state after the call.
  - Each foreign collaborator is a parameter:
    - the elevation queries and the spatial-reference transforms are fields of `Terrain`;
    - the expression engine is an `Evaluator`.
- `filter.dfy`: the imperative filter.
  - Per-part loops rewrite vertices in place and carry invariants.
  - The `AltitudeFilter` class holds `Push` and its two paths.
  - Each method is proved against the functions of `altitude.dfy`.
- `properties.dfy`: what the filter promises about one feature, proved of those functions.

The model follows the code literally, including where it does less than one might expect:
- When the elevation query fails for a part, the whole part is skipped. There is no per-vertex no-data check.
- Under ABSOLUTE and RELATIVE_TO_TERRAIN the two statistic pairs are not independent.
  - A part feeds a HAT exactly when it feeds an elevation, so both pairs are written or neither is (`CollectedStatistics`).
  - Under TO_TERRAIN neither pair is written.
- Scale and offset are applied on the clamp path only where no HAT is collected.
- Without an altitude symbol, `setPropertiesFromStyle` leaves the sampling resolution as it was. It is not reset to 0.
- In ABSOLUTE mode with differing vertical datums, the transform's boolean result is taken as an input.
  - The geographic Z replaces the vertex Z only when that result is false.
  - The modelled source does not show which result means success. osgEarth documents `transform` as returning true on success, so this branch would use the geographic Z only when the transform fails.

## Model

| member | source | states |
|---|---|---|
| Filter.AltitudeFilter.constructor | src/osgEarthFeatures/AltitudeFilter.cpp:31-35 | a new filter has no altitude symbol and a sampling resolution of 0 |
| Filter.AltitudeFilter.SetPropertiesFromStyle | src/osgEarthFeatures/AltitudeFilter.cpp:37-45 | the filter takes the style's altitude symbol; the resolution becomes the symbol's clamping resolution when a symbol is present and is otherwise kept |
| Filter.AltitudeFilter.Push | src/osgEarthFeatures/AltitudeFilter.cpp:47-62 | the context is returned unchanged; every feature ends in the clamp-path state exactly when a symbol is present, its mode is not NONE, and the session and profile are present; otherwise it ends in the no-clamp state |
| Filter.AltitudeFilter.PushAndDontClamp | src/osgEarthFeatures/AltitudeFilter.cpp:64-112 | every feature of the batch ends in its no-clamp state, computed from its own state before the call |
| Filter.AltitudeFilter.DontClampFeatureInPlace | src/osgEarthFeatures/AltitudeFilter.cpp:77-110 | one feature's vertices and attributes become its no-clamp state, with scale and offset evaluated against its own attributes |
| Filter.AltitudeFilter.DontClampAt | src/osgEarthFeatures/AltitudeFilter.cpp:75-111 | one iteration of the feature loop: feature k takes its no-clamp state and every other feature keeps its state |
| Filter.AltitudeFilter.PushAndClamp | src/osgEarthFeatures/AltitudeFilter.cpp:114-288 | every feature of the batch ends in its clamp-path state, computed from its own state before the call |
| Filter.AltitudeFilter.ClampFeatureInPlace | src/osgEarthFeatures/AltitudeFilter.cpp:148-286 | one feature's vertices and attributes become its clamp-path state, with scale and offset evaluated against its own attributes |
| Filter.AltitudeFilter.ClampAt | src/osgEarthFeatures/AltitudeFilter.cpp:146-287 | one iteration of the feature loop: feature k takes its clamp-path state and every other feature keeps its state |
| Filter.RescaleAndMeasure | src/osgEarthFeatures/AltitudeFilter.cpp:94-103 | every Z of the part becomes z * scale + offset; the HAT range is the running one extended by the new Z values |
| Filter.DontClampPartInPlace | src/osgEarthFeatures/AltitudeFilter.cpp:93-103 | only part k is rescaled; the other parts keep their vertices |
| Filter.DontClampParts | src/osgEarthFeatures/AltitudeFilter.cpp:90-104 | every part of a feature whose geometry was g is rescaled in turn, and the HAT range carried across the parts is that of the no-clamp path on g |
| Filter.DontClampGeometry | src/osgEarthFeatures/AltitudeFilter.cpp:79-104 | the feature's geometry and HAT range are those of the no-clamp path, starting from no range |
| Filter.MeasureVertices | src/osgEarthFeatures/AltitudeFilter.cpp:178-201 | the part is only read; the HAT range is extended by each vertex's measured Z minus its elevation, and the terrain range by the elevations, in vertex order |
| Filter.MeasureAbsolute | src/osgEarthFeatures/AltitudeFilter.cpp:171-203 | the ranges are extended by what ABSOLUTE makes the part feed them; a failed query leaves both unchanged |
| Filter.LiftVertices | src/osgEarthFeatures/AltitudeFilter.cpp:217-240 | each vertex is lifted by its elevation and brought back to the features' datum when the datums differ; the HAT range is extended by the original Z values and the terrain range by the elevations |
| Filter.ResolveRelative | src/osgEarthFeatures/AltitudeFilter.cpp:207-243 | the part and both ranges become what RELATIVE_TO_TERRAIN makes of the part; a failed query leaves all three unchanged |
| Filter.DrapeToTerrain | src/osgEarthFeatures/AltitudeFilter.cpp:246-264 | every Z becomes the written-back elevation, transformed back to the features' datum when the datums differ |
| Filter.RescalePart | src/osgEarthFeatures/AltitudeFilter.cpp:266-273 | every Z of the part becomes z * scale + offset; X and Y are kept |
| Filter.ClampPartInPlace | src/osgEarthFeatures/AltitudeFilter.cpp:167-273 | part k goes through its mode branch and, where no HAT is collected, the post-scale step; the ranges move from the parts before k to the parts up to k; only part k changes |
| Filter.ClampStep | src/osgEarthFeatures/AltitudeFilter.cpp:164-274 | one iteration of the part loop: from "the parts before k are clamped, the rest untouched, the ranges those of the parts before k" to the same with k + 1 |
| Filter.ClampParts | src/osgEarthFeatures/AltitudeFilter.cpp:164-274 | every part of a feature whose geometry was g goes through the mode branch and the post-scale step, and the two ranges carried across the parts are those of the clamp path on g |
| Filter.ClampGeometry | src/osgEarthFeatures/AltitudeFilter.cpp:151-274 | the feature's geometry and both ranges are those of the clamp path, starting from no range |
| Filter.WriteStats | src/osgEarthFeatures/AltitudeFilter.cpp:276-286 | each min/max pair is written exactly when its statistic recorded something; nothing else changes |
| Extrema.Include | src/osgEarthFeatures/AltitudeFilter.cpp:99-102 | one step of the running min/max: the range includes the value, each end is the value or the previous end, and the range only widens |
| Extrema.FoldExtrema | src/osgEarthFeatures/AltitudeFilter.cpp:79-102 | starting from the sentinel, something is recorded exactly when some value was seen; then the minimum is the least and the maximum the greatest of the values |
| Extrema.FoldAppend | src/osgEarthFeatures/AltitudeFilter.cpp:151-154 | one accumulator carried across parts equals one fold over the parts' values laid end to end |
| Extrema.FoldPermutation | src/osgEarthFeatures/AltitudeFilter.cpp:192-200 | the recorded range does not depend on the order of the values |
| Extrema.FoldFlatten | src/osgEarthFeatures/AltitudeFilter.cpp:276-286 | over all parts: something is recorded exactly when some part fed a value, and the range then has min <= max, bounds every value and attains both ends |
| Altitude.SampledPart | src/osgEarthFeatures/AltitudeFilter.cpp:215-240 | a sampled part feeds its elevations and one HAT per vertex; under RELATIVE_TO_TERRAIN the HATs are the original Z values and each vertex is lifted |
| Altitude.DontClampGeometryParts | src/osgEarthFeatures/AltitudeFilter.cpp:90-104 | on the no-clamp path each part is rescaled independently of the others |
| Altitude.DontClampStatsParts | src/osgEarthFeatures/AltitudeFilter.cpp:79-104 | the no-clamp HAT range is the fold of every new Z of every part; no terrain range is recorded |
| Altitude.ClampGeometryParts | src/osgEarthFeatures/AltitudeFilter.cpp:164-274 | on the clamp path each part goes through its mode branch and the post-scale step independently of the others |
| Altitude.ClampStatsParts | src/osgEarthFeatures/AltitudeFilter.cpp:151-274 | the two clamp ranges are the folds of everything the parts fed them, in order |
| Properties.DontClampPoints | src/osgEarthFeatures/AltitudeFilter.cpp:90-97 | no-clamp, for any scale and offset: same shape; every vertex keeps X and Y and gets Z * scale + offset |
| Properties.DontClampHat | src/osgEarthFeatures/AltitudeFilter.cpp:79-104 | no-clamp: a HAT range exists exactly when the geometry has a vertex; it spans the new Z values; no terrain range |
| Properties.DontClampVertices | src/osgEarthFeatures/AltitudeFilter.cpp:82-97 | no-clamp state: scale is the evaluated expression or 1.0 when unset, offset the evaluated expression or 0.0; every vertex gets z * scale + offset with X and Y kept |
| Properties.DontClampStatistics | src/osgEarthFeatures/AltitudeFilter.cpp:106-110 | no-clamp state: `__min_hat`/`__max_hat` are written exactly when the feature has a vertex, as the least and greatest new Z; an empty geometry leaves the attributes as they were; no other attribute changes |
| Properties.NoSymbolKeepsGeometry | src/osgEarthFeatures/AltitudeFilter.cpp:82-97 | without an altitude symbol the no-clamp path leaves the geometry as it was |
| Properties.PartStatistics | src/osgEarthFeatures/AltitudeFilter.cpp:176-240 | ABSOLUTE / RELATIVE_TO_TERRAIN, one part: no HAT exactly when the part is empty or its query failed; otherwise every elevation and one HAT per vertex; RELATIVE HATs are the pre-update Z; ABSOLUTE with equal datums gives z - elevation |
| Properties.SampledParts | src/osgEarthFeatures/AltitudeFilter.cpp:176-240 | ABSOLUTE / RELATIVE_TO_TERRAIN: some part feeds a HAT exactly when some non-empty part was sampled, and the same holds for elevations |
| Properties.CollectedOutcome | src/osgEarthFeatures/AltitudeFilter.cpp:164-243 | ABSOLUTE / RELATIVE_TO_TERRAIN: each range is recorded exactly when some non-empty part was sampled, and it spans what the parts fed it |
| Properties.WithBothStats | src/osgEarthFeatures/AltitudeFilter.cpp:276-286 | writing both ranges stores their four bounds under the four keys and changes no other attribute |
| Properties.CollectedStatistics | src/osgEarthFeatures/AltitudeFilter.cpp:276-286 | ABSOLUTE / RELATIVE_TO_TERRAIN state: with no sampled part the attributes are unchanged; otherwise both pairs hold the least and greatest HAT and elevation, with min <= max, and nothing else changes |
| Properties.AbsoluteKeepsGeometry | src/osgEarthFeatures/AltitudeFilter.cpp:171-203 | ABSOLUTE never changes the geometry: no vertex is written and the post-scale step is skipped |
| Properties.RelativeLiftsGeometry | src/osgEarthFeatures/AltitudeFilter.cpp:207-243 | RELATIVE_TO_TERRAIN: a part whose query failed is unchanged; in a sampled part each vertex is lifted, with equal datums to elevation + old Z; no scale or offset follows |
| Properties.NothingRecorded | src/osgEarthFeatures/AltitudeFilter.cpp:246-264 | a mode that collects no HAT records neither range |
| Properties.DrapedPart | src/osgEarthFeatures/AltitudeFilter.cpp:246-273 | TO_TERRAIN on one part: each vertex takes the written-back elevation, is brought back to the features' datum when the datums differ, and is then scaled and offset; with equal datums X and Y are kept and Z is elevation * scale + offset |
| Properties.DrapedPoints | src/osgEarthFeatures/AltitudeFilter.cpp:246-273 | TO_TERRAIN, for any scale and offset: every part of the feature is draped and rescaled as above |
| Properties.ToTerrainDrapes | src/osgEarthFeatures/AltitudeFilter.cpp:246-286 | TO_TERRAIN state: none of the four attributes is written and no attribute changes; every part is draped and rescaled as above, with the feature's evaluated scale and offset |
| Properties.ScaleIgnored | src/osgEarthFeatures/AltitudeFilter.cpp:266 | where HATs are collected, the scale and offset have no effect on the outcome |
| Properties.WithStatsTwice | src/osgEarthFeatures/AltitudeFilter.cpp:276-286 | writing the same statistics twice is writing them once |
| Properties.AbsoluteIdempotent | src/osgEarthFeatures/AltitudeFilter.cpp:171-203 | running ABSOLUTE on its own output changes nothing |
| Properties.OrderIndependent | src/osgEarthFeatures/AltitudeFilter.cpp:178-240 | ABSOLUTE / RELATIVE_TO_TERRAIN, one feature: visiting the vertices of any one part in another order (any permutation of the HATs and elevations it feeds) leaves both recorded ranges as they are |

## Left out

- `src/osgEarth/ModelLayer.cpp` is not part of this model. It holds a constructor, a plugin factory call and a node accessor, and none of them has logic to state.
- The elevation query (`ElevationQuery` over a `MapFrame` of the terrain layers) is foreign code with I/O and caching. It becomes two functions in `Terrain`:
  - `sample` gives one elevation per vertex or a failure;
  - `drape` gives the Z the write-back query leaves in each vertex.
- The write-back query's own success flag is ignored, as the source ignores it.
- Creating spatial references and reprojecting points is left out; the transforms are uninterpreted functions.
  - `isVertEquivalentTo` becomes the boolean `vertEquiv`.
  - The ABSOLUTE transform's boolean result is an input.
- Attributes are modelled as reals only. Attributes of other types (string, integer, boolean), which an expression may read, are not modelled.
- The `NumericExpression` engine is foreign code. `feature->eval` becomes an `Evaluator` applied to the feature's attributes.
  - The extra filter-context argument of the clamp path's `eval` is not modelled.
- Z values, elevations and the resolution are `real`, not IEEE doubles or floats. Rounding, NaN and infinities are not modelled.
- The `DBL_MAX` sentinel becomes `None`. A running minimum that legitimately equals `DBL_MAX` (and so suppresses the write in the source) is not modelled.
- Aliasing is left out. `Push` requires that the features of a batch are distinct objects whose part buffers are all distinct; the source does not check this.
- The style lookup `style.get<AltitudeSymbol>()` is a library call. The style is modelled as holding an optional symbol.
- The geometry iterator becomes the feature's ordered sequence of parts. Nested collections are not modelled separately.
- The session, the profile and the logging prefix are opaque. The filter only asks whether the session and the profile are present.
