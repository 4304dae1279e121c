/**
  What the altitude filter computes, as functions of the features' state before the call.

  The clamping policy comes from the style's altitude symbol. Everything the filter asks
  of foreign code is a parameter: the elevation query over the map's terrain layers, the
  spatial-reference transforms, the vertical-equivalence test and the expression engine
  that evaluates the vertical scale and offset against a feature.
*/
module Altitude {
  import opened Optional
  import opened Extrema
  import opened Features

  datatype ClampMode = ClampNone | ClampToTerrain | ClampRelativeToTerrain | ClampAbsolute

  /** A numeric expression of the styling language; only the expression engine interprets it. */
  datatype NumericExpression = NumericExpression(text: string)

  datatype AltitudeSymbol = AltitudeSymbol(
    clamping: ClampMode,
    verticalScale: Option<NumericExpression>,
    verticalOffset: Option<NumericExpression>,
    clampingResolution: real)

  datatype Style = Style(altitude: Option<AltitudeSymbol>)

  /** A reference to a foreign object of which the filter only asks whether it is there. */
  datatype Handle = Handle(id: nat)

  /** The filter context: the session (map access) and the features' profile. */
  datatype FilterContext = FilterContext(session: Option<Handle>, profile: Option<Handle>)

  /** The expression engine: evaluates an expression against a feature's attributes. */
  type Evaluator = (map<string, real>, NumericExpression) -> real

  /** What a point transform hands back: its boolean result and the output point. */
  datatype Transformed = Transformed(returned: bool, out: Point)

  /**
    What the clamp path consults. `sample` is the elevation query for one part at a maximum
    resolution (None when it fails); `drape` is the elevation query that writes back, giving
    the Z it leaves in each vertex; `toGeographic` is the transform from the features' reference
    to the map's geographic reference; `toFeatureSrs` is the transform from the features'
    horizontal reference with the map's vertical datum back to the features' reference;
    `vertEquiv` says whether the features' and the map's references share a vertical datum.
  */
  datatype Terrain = Terrain(
    sample: (seq<Point>, real) -> Option<seq<real>>,
    drape: (seq<Point>, real) -> seq<real>,
    toGeographic: Point -> Transformed,
    toFeatureSrs: Point -> Point,
    vertEquiv: bool)

  /** The elevation query answers with one elevation per vertex. */
  ghost predicate WellFormed(t: Terrain)
  {
    && (forall pts, res :: t.sample(pts, res).Some? ==> |t.sample(pts, res).value| == |pts|)
    && (forall pts, res :: |t.drape(pts, res)| == |pts|)
  }

  const MinHat: string := "__min_hat"
  const MaxHat: string := "__max_hat"
  const MinTerrainZ: string := "__min_terrain_z"
  const MaxTerrainZ: string := "__max_terrain_z"

  /** The clamp path runs only for a clamping symbol, a session and a profile. */
  predicate ClampActive(altitude: Option<AltitudeSymbol>, cx: FilterContext)
  {
    altitude.Some? && altitude.value.clamping != ClampNone && cx.session.Some? && cx.profile.Some?
  }

  /** Only ABSOLUTE and RELATIVE_TO_TERRAIN record heights above terrain. */
  predicate CollectsHats(mode: ClampMode)
  {
    mode == ClampRelativeToTerrain || mode == ClampAbsolute
  }

  function ScaleOf(altitude: Option<AltitudeSymbol>, eval: Evaluator, attrs: map<string, real>): real
  {
    if altitude.Some? && altitude.value.verticalScale.Some?
    then eval(attrs, altitude.value.verticalScale.value)
    else 1.0
  }

  function OffsetOf(altitude: Option<AltitudeSymbol>, eval: Evaluator, attrs: map<string, real>): real
  {
    if altitude.Some? && altitude.value.verticalOffset.Some?
    then eval(attrs, altitude.value.verticalOffset.value)
    else 0.0
  }

  /** z * scale + offset, X and Y kept. */
  function Rescale(p: Point, scale: real, offset: real): Point
  {
    p.(z := p.z * scale + offset)
  }

  function RescalePoints(pts: seq<Point>, scale: real, offset: real): (r: seq<Point>)
    ensures |r| == |pts|
  {
    seq(|pts|, i requires 0 <= i < |pts| => Rescale(pts[i], scale, offset))
  }

  /** The Z that ABSOLUTE mode measures: when the vertical datums differ, the Z of the
      geographic transform replaces the vertex's Z only if that transform returned false. */
  function AbsoluteZ(t: Terrain, p: Point): real
  {
    if !t.vertEquiv && !t.toGeographic(p).returned then t.toGeographic(p).out.z else p.z
  }

  /** RELATIVE_TO_TERRAIN: the elevation is added to Z, then brought back to the features' datum. */
  function Lift(t: Terrain, p: Point, elevation: real): Point
  {
    var q := p.(z := elevation + p.z);
    if t.vertEquiv then q else t.toFeatureSrs(q)
  }

  /** TO_TERRAIN: Z is what the query wrote back, then brought back to the features' datum. */
  function Drape(t: Terrain, p: Point, written: real): Point
  {
    var q := p.(z := written);
    if t.vertEquiv then q else t.toFeatureSrs(q)
  }

  /** The height above terrain recorded for one sampled vertex. */
  function VertexHat(t: Terrain, mode: ClampMode, p: Point, elevation: real): real
  {
    if mode == ClampAbsolute then AbsoluteZ(t, p) - elevation else p.z
  }

  /** The heights above terrain that a sampled part feeds to the statistics, in vertex order. */
  function SampledHats(t: Terrain, mode: ClampMode, pts: seq<Point>, e: seq<real>): (r: seq<real>)
    requires |e| == |pts|
    ensures |r| == |pts| && forall i :: 0 <= i < |pts| ==> r[i] == VertexHat(t, mode, pts[i], e[i])
  {
    seq(|pts|, i requires 0 <= i < |pts| => VertexHat(t, mode, pts[i], e[i]))
  }

  /** The effect of one mode branch on one part: its new vertices, and the heights above
      terrain and terrain elevations it feeds to the running statistics, in order. */
  datatype PartOutcome = PartOutcome(points: seq<Point>, hats: seq<real>, elevations: seq<real>)

  function ClampPart(t: Terrain, mode: ClampMode, maxRes: real, pts: seq<Point>): (r: PartOutcome)
    requires WellFormed(t)
    ensures |r.points| == |pts|
    ensures |r.hats| == |r.elevations| && (r.hats == [] || |r.hats| == |pts|)
  {
    if mode == ClampAbsolute || mode == ClampRelativeToTerrain then
      match t.sample(pts, maxRes)
      case None => PartOutcome(pts, [], [])
      case Some(e) =>
        var hats := SampledHats(t, mode, pts, e);
        if mode == ClampAbsolute then PartOutcome(pts, hats, e)
        else PartOutcome(seq(|pts|, i requires 0 <= i < |pts| => Lift(t, pts[i], e[i])), hats, e)
    else
      var d := t.drape(pts, maxRes);
      PartOutcome(seq(|pts|, i requires 0 <= i < |pts| => Drape(t, pts[i], d[i])), [], [])
  }

  /** What one sampled part feeds to the statistics and, under RELATIVE_TO_TERRAIN, its new vertices. */
  lemma SampledPart(t: Terrain, mode: ClampMode, maxRes: real, pts: seq<Point>)
    requires WellFormed(t) && CollectsHats(mode) && t.sample(pts, maxRes).Some?
    ensures var out, e := ClampPart(t, mode, maxRes, pts), t.sample(pts, maxRes).value;
      && |e| == |pts| && out.elevations == e && |out.hats| == |pts|
      && (forall k :: 0 <= k < |pts| ==> out.hats[k] == VertexHat(t, mode, pts[k], e[k]))
      && (mode == ClampRelativeToTerrain ==>
            && out.hats == Heights(pts)
            && forall k :: 0 <= k < |pts| ==> out.points[k] == Lift(t, pts[k], e[k]))
  {
  }

  /** The scale and offset are applied after the mode branch only where no HAT is collected. */
  function PostScale(mode: ClampMode, scale: real, offset: real, pts: seq<Point>): (r: seq<Point>)
    ensures |r| == |pts|
  {
    if CollectsHats(mode) then pts else RescalePoints(pts, scale, offset)
  }

  function Outcomes(t: Terrain, mode: ClampMode, maxRes: real, g: seq<seq<Point>>): (r: seq<PartOutcome>)
    requires WellFormed(t)
    ensures |r| == |g| && forall j :: 0 <= j < |g| ==> r[j] == ClampPart(t, mode, maxRes, g[j])
  {
    seq(|g|, j requires 0 <= j < |g| => ClampPart(t, mode, maxRes, g[j]))
  }

  function HatsOf(outs: seq<PartOutcome>): (r: seq<seq<real>>)
    ensures |r| == |outs| && forall j :: 0 <= j < |outs| ==> r[j] == outs[j].hats
  {
    seq(|outs|, j requires 0 <= j < |outs| => outs[j].hats)
  }

  function ElevationsOf(outs: seq<PartOutcome>): (r: seq<seq<real>>)
    ensures |r| == |outs| && forall j :: 0 <= j < |outs| ==> r[j] == outs[j].elevations
  {
    seq(|outs|, j requires 0 <= j < |outs| => outs[j].elevations)
  }

  /** The Z of every vertex of a part, in order. */
  function Heights(pts: seq<Point>): (r: seq<real>)
    ensures |r| == |pts| && forall i :: 0 <= i < |pts| ==> r[i] == pts[i].z
  {
    seq(|pts|, i requires 0 <= i < |pts| => pts[i].z)
  }

  function HeightsOf(g: seq<seq<Point>>): (r: seq<seq<real>>)
    ensures |r| == |g| && forall j :: 0 <= j < |g| ==> r[j] == Heights(g[j])
  {
    seq(|g|, j requires 0 <= j < |g| => Heights(g[j]))
  }

  /** A feature's new geometry and its two running statistics (None: nothing was recorded). */
  datatype FeatureOutcome = FeatureOutcome(geometry: seq<seq<Point>>, hat: Option<Range>, terrain: Option<Range>)

  /** The no-clamp path on one feature: every part in turn, the running HAT range carried across parts. */
  function DontClampFeature(scale: real, offset: real, g: seq<seq<Point>>): (r: FeatureOutcome)
    ensures |r.geometry| == |g| && r.terrain == None
  {
    if g == [] then FeatureOutcome([], None, None)
    else
      var prev := DontClampFeature(scale, offset, g[..|g| - 1]);
      var pts := RescalePoints(g[|g| - 1], scale, offset);
      FeatureOutcome(prev.geometry + [pts], Fold(prev.hat, Heights(pts)), None)
  }

  /** The clamp path on one feature: every part in turn, both running ranges carried across parts. */
  function ClampFeature(t: Terrain, mode: ClampMode, maxRes: real, scale: real, offset: real, g: seq<seq<Point>>): (r: FeatureOutcome)
    requires WellFormed(t)
    ensures |r.geometry| == |g|
  {
    if g == [] then FeatureOutcome([], None, None)
    else
      var prev := ClampFeature(t, mode, maxRes, scale, offset, g[..|g| - 1]);
      var part := ClampPart(t, mode, maxRes, g[|g| - 1]);
      FeatureOutcome(prev.geometry + [PostScale(mode, scale, offset, part.points)],
                     Fold(prev.hat, part.hats), Fold(prev.terrain, part.elevations))
  }

  /** The clamp ranges after one more part. */
  lemma ClampFeatureStep(t: Terrain, mode: ClampMode, maxRes: real, scale: real, offset: real, g: seq<seq<Point>>, k: nat)
    requires WellFormed(t) && k < |g|
    ensures var prev, next, part := ClampFeature(t, mode, maxRes, scale, offset, g[..k]),
                                    ClampFeature(t, mode, maxRes, scale, offset, g[..k + 1]),
                                    ClampPart(t, mode, maxRes, g[k]);
      next.hat == Fold(prev.hat, part.hats) && next.terrain == Fold(prev.terrain, part.elevations)
  {
    assert g[..k + 1][..k] == g[..k];
  }

  /** Writes a min/max pair of attributes when the statistic recorded something. */
  function Record(attrs: map<string, real>, minKey: string, maxKey: string, r: Option<Range>): map<string, real>
  {
    match r
    case None => attrs
    case Some(rg) => attrs[minKey := rg.lo][maxKey := rg.hi]
  }

  function WithStats(attrs: map<string, real>, hat: Option<Range>, terrain: Option<Range>): map<string, real>
  {
    Record(Record(attrs, MinHat, MaxHat, hat), MinTerrainZ, MaxTerrainZ, terrain)
  }

  function DontClampState(altitude: Option<AltitudeSymbol>, eval: Evaluator, st: FeatureState): FeatureState
  {
    var out := DontClampFeature(ScaleOf(altitude, eval, st.attrs), OffsetOf(altitude, eval, st.attrs), st.geometry);
    FeatureState(out.geometry, WithStats(st.attrs, out.hat, out.terrain))
  }

  function ClampState(sym: AltitudeSymbol, t: Terrain, maxRes: real, eval: Evaluator, st: FeatureState): FeatureState
    requires WellFormed(t)
  {
    var altitude := Some(sym);
    var out := ClampFeature(t, sym.clamping, maxRes,
                            ScaleOf(altitude, eval, st.attrs), OffsetOf(altitude, eval, st.attrs), st.geometry);
    FeatureState(out.geometry, WithStats(st.attrs, out.hat, out.terrain))
  }

  /** The whole filter on one feature: the path is chosen once for the batch. */
  function Resolve(altitude: Option<AltitudeSymbol>, maxRes: real, cx: FilterContext, t: Terrain,
                   eval: Evaluator, st: FeatureState): FeatureState
    requires WellFormed(t)
  {
    if ClampActive(altitude, cx) then ClampState(altitude.value, t, maxRes, eval, st)
    else DontClampState(altitude, eval, st)
  }

  /** The no-clamp geometry part by part: each part is rescaled. */
  lemma {:induction false} DontClampGeometryParts(scale: real, offset: real, g: seq<seq<Point>>)
    ensures var out := DontClampFeature(scale, offset, g);
      forall j :: 0 <= j < |g| ==> out.geometry[j] == RescalePoints(g[j], scale, offset)
  {
    if g != [] {
      var n := |g| - 1;
      DontClampGeometryParts(scale, offset, g[..n]);
      var out := DontClampFeature(scale, offset, g);
      forall j | 0 <= j < n ensures out.geometry[j] == RescalePoints(g[j], scale, offset) {
        assert g[j] == g[..n][j];
      }
    }
  }

  /** The no-clamp HAT range is the fold of every new Z of every part, in order; nothing is
      recorded for the terrain. */
  lemma {:induction false} DontClampStatsParts(scale: real, offset: real, g: seq<seq<Point>>)
    ensures var out := DontClampFeature(scale, offset, g);
      out.hat == Fold(None, Flatten(HeightsOf(out.geometry))) && out.terrain == None
  {
    if g != [] {
      var n := |g| - 1;
      DontClampStatsParts(scale, offset, g[..n]);
      var prev, out := DontClampFeature(scale, offset, g[..n]), DontClampFeature(scale, offset, g);
      assert out.geometry[..n] == prev.geometry;
      assert HeightsOf(out.geometry)[..n] == HeightsOf(prev.geometry);
      FlattenStep(HeightsOf(out.geometry), n);
      assert HeightsOf(out.geometry)[..n + 1] == HeightsOf(out.geometry);
      FoldAppend(None, Flatten(HeightsOf(prev.geometry)), Heights(out.geometry[n]));
    }
  }

  /** The clamp geometry part by part: each part goes through its mode branch and the post-scale step. */
  lemma {:induction false} ClampGeometryParts(t: Terrain, mode: ClampMode, maxRes: real, scale: real, offset: real, g: seq<seq<Point>>)
    requires WellFormed(t)
    ensures var out := ClampFeature(t, mode, maxRes, scale, offset, g);
      forall j :: 0 <= j < |g| ==> out.geometry[j] == PostScale(mode, scale, offset, ClampPart(t, mode, maxRes, g[j]).points)
  {
    if g != [] {
      var n := |g| - 1;
      ClampGeometryParts(t, mode, maxRes, scale, offset, g[..n]);
      var out := ClampFeature(t, mode, maxRes, scale, offset, g);
      forall j | 0 <= j < n
        ensures out.geometry[j] == PostScale(mode, scale, offset, ClampPart(t, mode, maxRes, g[j]).points)
      {
        assert g[j] == g[..n][j];
      }
    }
  }

  /** What the first n parts fed the statistics. */
  lemma OutcomesPrefix(t: Terrain, mode: ClampMode, maxRes: real, g: seq<seq<Point>>, n: nat)
    requires WellFormed(t) && n <= |g|
    ensures HatsOf(Outcomes(t, mode, maxRes, g))[..n] == HatsOf(Outcomes(t, mode, maxRes, g[..n]))
    ensures ElevationsOf(Outcomes(t, mode, maxRes, g))[..n] == ElevationsOf(Outcomes(t, mode, maxRes, g[..n]))
  {
  }

  /** The two clamp ranges are folds of what every part fed them, in order. */
  lemma {:induction false} ClampStatsParts(t: Terrain, mode: ClampMode, maxRes: real, scale: real, offset: real, g: seq<seq<Point>>)
    requires WellFormed(t)
    ensures var out, outs := ClampFeature(t, mode, maxRes, scale, offset, g), Outcomes(t, mode, maxRes, g);
      && out.hat == Fold(None, Flatten(HatsOf(outs)))
      && out.terrain == Fold(None, Flatten(ElevationsOf(outs)))
  {
    if g != [] {
      var n := |g| - 1;
      ClampStatsParts(t, mode, maxRes, scale, offset, g[..n]);
      var outs := Outcomes(t, mode, maxRes, g);
      OutcomesPrefix(t, mode, maxRes, g, n);
      FoldFlattenStep(HatsOf(outs), n);
      FoldFlattenStep(ElevationsOf(outs), n);
    }
  }
}
