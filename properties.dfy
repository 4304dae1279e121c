/**
  What the filter promises about one feature, proved of the functions of module Altitude
  that the filter's methods are verified against.
*/
module Properties {
  import opened Optional
  import opened Extrema
  import opened Features
  import opened Altitude

  /** Some part of the geometry has a vertex. */
  predicate HasVertex(g: seq<seq<Point>>)
  {
    exists j :: 0 <= j < |g| && g[j] != []
  }

  /** Some part with a vertex got its elevations from the query. */
  predicate Sampled(t: Terrain, maxRes: real, g: seq<seq<Point>>)
  {
    exists j :: 0 <= j < |g| && g[j] != [] && t.sample(g[j], maxRes).Some?
  }

  /** The pair minKey/maxKey holds the least and the greatest of the values of every run. */
  predicate Summarises(attrs: map<string, real>, minKey: string, maxKey: string, vss: seq<seq<real>>)
  {
    minKey in attrs && maxKey in attrs && Spans(Range(attrs[minKey], attrs[maxKey]), vss)
  }

  /** Writing a recorded range stores its bounds under the two keys and changes nothing else. */
  lemma RecordSome(attrs: map<string, real>, minKey: string, maxKey: string, rg: Range)
    requires minKey != maxKey
    ensures var a := Record(attrs, minKey, maxKey, Some(rg));
      minKey in a && maxKey in a && a[minKey] == rg.lo && a[maxKey] == rg.hi
      && a == attrs[minKey := a[minKey]][maxKey := a[maxKey]]
  {
  }

  /** One feature down the no-clamp path, for a given scale and offset: X and Y kept, Z scaled
      and offset. */
  lemma DontClampPoints(s: real, o: real, g: seq<seq<Point>>)
    ensures var out := DontClampFeature(s, o, g);
      && |out.geometry| == |g|
      && (forall j :: 0 <= j < |g| ==> |out.geometry[j]| == |g[j]|)
      && (forall j, i :: 0 <= j < |g| && 0 <= i < |g[j]| ==>
            out.geometry[j][i] == Point(g[j][i].x, g[j][i].y, g[j][i].z * s + o))
  {
    DontClampGeometryParts(s, o, g);
  }

  /** One feature down the no-clamp path: a HAT range exactly when there is a vertex, spanning
      the new Z values, and no terrain range. */
  lemma DontClampHat(s: real, o: real, g: seq<seq<Point>>)
    ensures var out := DontClampFeature(s, o, g);
      && (out.hat.Some? <==> HasVertex(g))
      && (out.hat.Some? ==> Spans(out.hat.value, HeightsOf(out.geometry)))
      && out.terrain == None
  {
    var out := DontClampFeature(s, o, g);
    DontClampGeometryParts(s, o, g);
    DontClampStatsParts(s, o, g);
    var zss := HeightsOf(out.geometry);
    FoldFlatten(zss);
    if HasVertex(g) {
      var j :| 0 <= j < |g| && g[j] != [];
      assert |zss[j]| == |g[j]|;
    }
    if out.hat.Some? {
      var j :| 0 <= j < |zss| && zss[j] != [];
      assert |zss[j]| == |g[j]|;
    }
  }

  /** The no-clamp path moves vertices only in Z: every vertex keeps X and Y and gets
      Z * scale + offset, where scale defaults to 1 and offset to 0 when the symbol leaves them
      unset. */
  lemma DontClampVertices(altitude: Option<AltitudeSymbol>, eval: Evaluator, st: FeatureState)
    ensures var s, o, g, r := ScaleOf(altitude, eval, st.attrs), OffsetOf(altitude, eval, st.attrs),
                              st.geometry, DontClampState(altitude, eval, st).geometry;
      && (s == if altitude.Some? && altitude.value.verticalScale.Some?
               then eval(st.attrs, altitude.value.verticalScale.value) else 1.0)
      && (o == if altitude.Some? && altitude.value.verticalOffset.Some?
               then eval(st.attrs, altitude.value.verticalOffset.value) else 0.0)
      && |r| == |g|
      && (forall j :: 0 <= j < |g| ==> |r[j]| == |g[j]|)
      && (forall j, i :: 0 <= j < |g| && 0 <= i < |g[j]| ==> r[j][i] == Point(g[j][i].x, g[j][i].y, g[j][i].z * s + o))
  {
    var s, o, g := ScaleOf(altitude, eval, st.attrs), OffsetOf(altitude, eval, st.attrs), st.geometry;
    var out := DontClampFeature(s, o, g);
    assert DontClampState(altitude, eval, st).geometry == out.geometry;
    DontClampPoints(s, o, g);
  }

  /** The no-clamp path writes the HAT pair exactly when the feature has a vertex, as the least
      and the greatest of the new Z values; no other attribute changes. */
  lemma DontClampStatistics(altitude: Option<AltitudeSymbol>, eval: Evaluator, st: FeatureState)
    ensures var g, r := st.geometry, DontClampState(altitude, eval, st);
      && (!HasVertex(g) ==> r.attrs == st.attrs)
      && (HasVertex(g) ==>
            && Summarises(r.attrs, MinHat, MaxHat, HeightsOf(r.geometry))
            && r.attrs == st.attrs[MinHat := r.attrs[MinHat]][MaxHat := r.attrs[MaxHat]])
  {
    var s, o, g := ScaleOf(altitude, eval, st.attrs), OffsetOf(altitude, eval, st.attrs), st.geometry;
    var out := DontClampFeature(s, o, g);
    assert DontClampState(altitude, eval, st) == FeatureState(out.geometry, WithStats(st.attrs, out.hat, out.terrain));
    DontClampHat(s, o, g);
    if out.hat.Some? {
      RecordSome(st.attrs, MinHat, MaxHat, out.hat.value);
    }
  }

  /** Without an altitude symbol the no-clamp path leaves every vertex where it is. */
  lemma NoSymbolKeepsGeometry(eval: Evaluator, st: FeatureState)
    ensures DontClampState(None, eval, st).geometry == st.geometry
  {
    var g, r := st.geometry, DontClampState(None, eval, st);
    DontClampVertices(None, eval, st);
    forall j | 0 <= j < |g| ensures r.geometry[j] == g[j] {
      assert |r.geometry[j]| == |g[j]|;
    }
  }

  /** What one part feeds to the statistics under ABSOLUTE and RELATIVE_TO_TERRAIN: nothing when
      the query fails or the part is empty; otherwise every elevation, and one HAT per vertex:
      the vertex's Z before the update under RELATIVE_TO_TERRAIN, and under ABSOLUTE with a
      shared vertical datum the vertex's Z minus its elevation. */
  lemma PartStatistics(t: Terrain, mode: ClampMode, maxRes: real, pts: seq<Point>)
    requires WellFormed(t) && CollectsHats(mode)
    ensures var out := ClampPart(t, mode, maxRes, pts);
      && (out.hats == [] <==> pts == [] || t.sample(pts, maxRes).None?)
      && (t.sample(pts, maxRes).None? ==> out.elevations == [])
      && (t.sample(pts, maxRes).Some? ==>
            var e := t.sample(pts, maxRes).value;
            && out.elevations == e
            && |out.hats| == |pts|
            && (forall i :: 0 <= i < |pts| ==> out.hats[i] == VertexHat(t, mode, pts[i], e[i]))
            && (mode == ClampRelativeToTerrain ==> forall i :: 0 <= i < |pts| ==> out.hats[i] == pts[i].z)
            && (mode == ClampAbsolute && t.vertEquiv ==>
                  forall i :: 0 <= i < |pts| ==> out.hats[i] == pts[i].z - e[i]))
  {
    if t.sample(pts, maxRes).Some? {
      SampledPart(t, mode, maxRes, pts);
    }
  }

  /** ABSOLUTE and RELATIVE_TO_TERRAIN: a part feeds some HAT, and equally some elevation, exactly
      when it has a vertex and its query succeeded. */
  lemma SampledParts(t: Terrain, mode: ClampMode, maxRes: real, g: seq<seq<Point>>)
    requires WellFormed(t) && CollectsHats(mode)
    ensures var outs := Outcomes(t, mode, maxRes, g);
      && (Sampled(t, maxRes, g) <==> exists j :: 0 <= j < |outs| && HatsOf(outs)[j] != [])
      && (Sampled(t, maxRes, g) <==> exists j :: 0 <= j < |outs| && ElevationsOf(outs)[j] != [])
  {
    var outs := Outcomes(t, mode, maxRes, g);
    forall j | 0 <= j < |g|
      ensures HatsOf(outs)[j] != [] <==> g[j] != [] && t.sample(g[j], maxRes).Some?
      ensures ElevationsOf(outs)[j] != [] <==> g[j] != [] && t.sample(g[j], maxRes).Some?
    {
      PartStatistics(t, mode, maxRes, g[j]);
    }
  }

  /** ABSOLUTE and RELATIVE_TO_TERRAIN, for a given scale and offset: both ranges record something
      exactly when some non-empty part was sampled, and each spans what the parts fed it. */
  lemma CollectedOutcome(t: Terrain, mode: ClampMode, maxRes: real, s: real, o: real, g: seq<seq<Point>>)
    requires WellFormed(t) && CollectsHats(mode)
    ensures var out, outs := ClampFeature(t, mode, maxRes, s, o, g), Outcomes(t, mode, maxRes, g);
      && (out.hat.Some? <==> Sampled(t, maxRes, g))
      && (out.terrain.Some? <==> Sampled(t, maxRes, g))
      && (out.hat.Some? ==> Spans(out.hat.value, HatsOf(outs)))
      && (out.terrain.Some? ==> Spans(out.terrain.value, ElevationsOf(outs)))
  {
    var outs := Outcomes(t, mode, maxRes, g);
    ClampStatsParts(t, mode, maxRes, s, o, g);
    FoldFlatten(HatsOf(outs));
    FoldFlatten(ElevationsOf(outs));
    SampledParts(t, mode, maxRes, g);
  }

  /** Writing both recorded ranges stores their bounds under the four keys and changes nothing else. */
  lemma WithBothStats(attrs: map<string, real>, hat: Range, terrain: Range)
    ensures var a := WithStats(attrs, Some(hat), Some(terrain));
      && MinHat in a && MaxHat in a && MinTerrainZ in a && MaxTerrainZ in a
      && a[MinHat] == hat.lo && a[MaxHat] == hat.hi && a[MinTerrainZ] == terrain.lo && a[MaxTerrainZ] == terrain.hi
      && a == attrs[MinHat := a[MinHat]][MaxHat := a[MaxHat]][MinTerrainZ := a[MinTerrainZ]][MaxTerrainZ := a[MaxTerrainZ]]
  {
    RecordSome(attrs, MinHat, MaxHat, hat);
    RecordSome(Record(attrs, MinHat, MaxHat, Some(hat)), MinTerrainZ, MaxTerrainZ, terrain);
  }

  /** ABSOLUTE and RELATIVE_TO_TERRAIN: both statistic pairs are written exactly when some
      non-empty part was sampled, each as the least and greatest of what the parts fed it;
      no other attribute changes. */
  lemma CollectedStatistics(sym: AltitudeSymbol, t: Terrain, maxRes: real, eval: Evaluator, st: FeatureState)
    requires WellFormed(t) && CollectsHats(sym.clamping)
    ensures var g, r, outs := st.geometry, ClampState(sym, t, maxRes, eval, st),
                              Outcomes(t, sym.clamping, maxRes, st.geometry);
      && (!Sampled(t, maxRes, g) ==> r.attrs == st.attrs)
      && (Sampled(t, maxRes, g) ==>
            && Summarises(r.attrs, MinHat, MaxHat, HatsOf(outs))
            && Summarises(r.attrs, MinTerrainZ, MaxTerrainZ, ElevationsOf(outs))
            && r.attrs == st.attrs[MinHat := r.attrs[MinHat]][MaxHat := r.attrs[MaxHat]]
                                  [MinTerrainZ := r.attrs[MinTerrainZ]][MaxTerrainZ := r.attrs[MaxTerrainZ]])
  {
    var mode, g := sym.clamping, st.geometry;
    var s, o := ScaleOf(Some(sym), eval, st.attrs), OffsetOf(Some(sym), eval, st.attrs);
    var out := ClampFeature(t, mode, maxRes, s, o, g);
    assert ClampState(sym, t, maxRes, eval, st).attrs == WithStats(st.attrs, out.hat, out.terrain);
    CollectedOutcome(t, mode, maxRes, s, o, g);
    if Sampled(t, maxRes, g) {
      WithBothStats(st.attrs, out.hat.value, out.terrain.value);
    }
  }

  /** ABSOLUTE never moves a vertex: no vertex is written and the post-scale step is skipped. */
  lemma AbsoluteKeepsGeometry(sym: AltitudeSymbol, t: Terrain, maxRes: real, eval: Evaluator, st: FeatureState)
    requires WellFormed(t) && sym.clamping == ClampAbsolute
    ensures ClampState(sym, t, maxRes, eval, st).geometry == st.geometry
  {
    var g := st.geometry;
    var s, o := ScaleOf(Some(sym), eval, st.attrs), OffsetOf(Some(sym), eval, st.attrs);
    var r := ClampFeature(t, ClampAbsolute, maxRes, s, o, g);
    assert ClampState(sym, t, maxRes, eval, st) == FeatureState(r.geometry, WithStats(st.attrs, r.hat, r.terrain));
    ClampGeometryParts(t, ClampAbsolute, maxRes, s, o, g);
    assert forall j :: 0 <= j < |g| ==> r.geometry[j] == g[j];
  }

  /** RELATIVE_TO_TERRAIN: every vertex of a sampled part gets its elevation added to Z (and is
      brought back to the features' datum when the datums differ); a part whose query failed is
      left as it is; no scale or offset follows. */
  lemma RelativeLiftsGeometry(sym: AltitudeSymbol, t: Terrain, maxRes: real, eval: Evaluator, st: FeatureState)
    requires WellFormed(t) && sym.clamping == ClampRelativeToTerrain
    ensures var g, r := st.geometry, ClampState(sym, t, maxRes, eval, st).geometry;
      && |r| == |g|
      && (forall j :: 0 <= j < |g| && t.sample(g[j], maxRes).None? ==> r[j] == g[j])
      && (forall j :: 0 <= j < |g| && t.sample(g[j], maxRes).Some? ==>
            var e := t.sample(g[j], maxRes).value;
            && |r[j]| == |g[j]|
            && (forall i :: 0 <= i < |g[j]| ==> r[j][i] == Lift(t, g[j][i], e[i]))
            && (t.vertEquiv ==> forall i :: 0 <= i < |g[j]| ==> r[j][i] == g[j][i].(z := e[i] + g[j][i].z)))
  {
    var mode, g := sym.clamping, st.geometry;
    var s, o := ScaleOf(Some(sym), eval, st.attrs), OffsetOf(Some(sym), eval, st.attrs);
    var out := ClampFeature(t, mode, maxRes, s, o, g);
    assert ClampState(sym, t, maxRes, eval, st) == FeatureState(out.geometry, WithStats(st.attrs, out.hat, out.terrain));
    ClampGeometryParts(t, mode, maxRes, s, o, g);
    forall j | 0 <= j < |g| && t.sample(g[j], maxRes).Some?
      ensures forall i :: 0 <= i < |g[j]| ==> ClampPart(t, mode, maxRes, g[j]).points[i] == Lift(t, g[j][i], t.sample(g[j], maxRes).value[i])
    {
      SampledPart(t, mode, maxRes, g[j]);
    }
  }

  /** A mode that records no HAT records nothing at all, on any geometry. */
  lemma {:induction false} NothingRecorded(t: Terrain, mode: ClampMode, maxRes: real, s: real, o: real, g: seq<seq<Point>>)
    requires WellFormed(t) && !CollectsHats(mode)
    ensures var out := ClampFeature(t, mode, maxRes, s, o, g);
      out.hat == None && out.terrain == None
  {
    if g != [] {
      NothingRecorded(t, mode, maxRes, s, o, g[..|g| - 1]);
    }
  }

  /** TO_TERRAIN on one part: each vertex r[i] is vertex i of pts draped on the terrain (Z is
      the written-back elevation, brought back to the features' datum when the datums differ) and
      then scaled and offset; with an equivalent vertical datum X and Y are kept and Z is the
      written elevation times the scale plus the offset. */
  ghost predicate DrapedAs(t: Terrain, maxRes: real, s: real, o: real, pts: seq<Point>, r: seq<Point>)
    requires WellFormed(t)
  {
    var d := t.drape(pts, maxRes);
    && |r| == |pts|
    && (forall i :: 0 <= i < |pts| ==> r[i] == Rescale(Drape(t, pts[i], d[i]), s, o))
    && (t.vertEquiv ==> forall i :: 0 <= i < |pts| ==> r[i] == pts[i].(z := d[i] * s + o))
  }

  /** TO_TERRAIN on one part, for a given scale and offset. */
  lemma DrapedPart(t: Terrain, mode: ClampMode, maxRes: real, s: real, o: real, pts: seq<Point>)
    requires WellFormed(t) && !CollectsHats(mode)
    ensures DrapedAs(t, maxRes, s, o, pts, PostScale(mode, s, o, ClampPart(t, mode, maxRes, pts).points))
  {
  }

  /** TO_TERRAIN, for a given scale and offset: every part is draped and then rescaled. */
  lemma DrapedPoints(t: Terrain, mode: ClampMode, maxRes: real, s: real, o: real, g: seq<seq<Point>>)
    requires WellFormed(t) && !CollectsHats(mode)
    ensures var r := ClampFeature(t, mode, maxRes, s, o, g).geometry;
      |r| == |g| && forall j :: 0 <= j < |g| ==> DrapedAs(t, maxRes, s, o, g[j], r[j])
  {
    ClampGeometryParts(t, mode, maxRes, s, o, g);
    forall j | 0 <= j < |g| {
      DrapedPart(t, mode, maxRes, s, o, g[j]);
    }
  }

  /** TO_TERRAIN (and every mode that records no HAT): every part is draped and then scaled and
      offset; none of the four statistics is written and no attribute changes. */
  lemma ToTerrainDrapes(sym: AltitudeSymbol, t: Terrain, maxRes: real, eval: Evaluator, st: FeatureState)
    requires WellFormed(t) && !CollectsHats(sym.clamping)
    ensures var g, r := st.geometry, ClampState(sym, t, maxRes, eval, st);
      var s, o := ScaleOf(Some(sym), eval, st.attrs), OffsetOf(Some(sym), eval, st.attrs);
      && r.attrs == st.attrs
      && |r.geometry| == |g|
      && forall j :: 0 <= j < |g| ==> DrapedAs(t, maxRes, s, o, g[j], r.geometry[j])
  {
    var mode, g := sym.clamping, st.geometry;
    var s, o := ScaleOf(Some(sym), eval, st.attrs), OffsetOf(Some(sym), eval, st.attrs);
    var out := ClampFeature(t, mode, maxRes, s, o, g);
    assert ClampState(sym, t, maxRes, eval, st) == FeatureState(out.geometry, WithStats(st.attrs, out.hat, out.terrain));
    NothingRecorded(t, mode, maxRes, s, o, g);
    DrapedPoints(t, mode, maxRes, s, o, g);
  }

  /** Where HATs are collected the scale and offset play no part. */
  lemma {:induction false} ScaleIgnored(t: Terrain, mode: ClampMode, maxRes: real, s: real, o: real, s': real, o': real,
                                        g: seq<seq<Point>>)
    requires WellFormed(t) && CollectsHats(mode)
    ensures ClampFeature(t, mode, maxRes, s, o, g) == ClampFeature(t, mode, maxRes, s', o', g)
  {
    if g != [] {
      ScaleIgnored(t, mode, maxRes, s, o, s', o', g[..|g| - 1]);
    }
  }

  /** Writing the same statistics twice is writing them once. */
  lemma WithStatsTwice(attrs: map<string, real>, hat: Option<Range>, terrain: Option<Range>)
    ensures WithStats(WithStats(attrs, hat, terrain), hat, terrain) == WithStats(attrs, hat, terrain)
  {
  }

  /** Running the ABSOLUTE filter a second time changes nothing: the geometry is the same, so the
      same statistics are written again over themselves. */
  lemma AbsoluteIdempotent(sym: AltitudeSymbol, t: Terrain, maxRes: real, eval: Evaluator, st: FeatureState)
    requires WellFormed(t) && sym.clamping == ClampAbsolute
    ensures var once := ClampState(sym, t, maxRes, eval, st);
      ClampState(sym, t, maxRes, eval, once) == once
  {
    var once := ClampState(sym, t, maxRes, eval, st);
    AbsoluteKeepsGeometry(sym, t, maxRes, eval, st);
    var g := st.geometry;
    var s, o := ScaleOf(Some(sym), eval, st.attrs), OffsetOf(Some(sym), eval, st.attrs);
    var s', o' := ScaleOf(Some(sym), eval, once.attrs), OffsetOf(Some(sym), eval, once.attrs);
    ScaleIgnored(t, ClampAbsolute, maxRes, s, o, s', o', g);
    var out := ClampFeature(t, ClampAbsolute, maxRes, s, o, g);
    assert ClampState(sym, t, maxRes, eval, st) == FeatureState(out.geometry, WithStats(st.attrs, out.hat, out.terrain));
    assert ClampState(sym, t, maxRes, eval, once) == FeatureState(out.geometry, WithStats(once.attrs, out.hat, out.terrain));
    WithStatsTwice(st.attrs, out.hat, out.terrain);
  }

  /** ABSOLUTE and RELATIVE_TO_TERRAIN: the recorded ranges do not depend on the order in which
      the vertices of a part are visited; any permutation of what part j feeds gives the same ranges. */
  lemma OrderIndependent(t: Terrain, mode: ClampMode, maxRes: real, s: real, o: real, g: seq<seq<Point>>,
                         j: nat, hats: seq<real>, elevations: seq<real>)
    requires WellFormed(t) && j < |g|
    requires multiset(hats) == multiset(ClampPart(t, mode, maxRes, g[j]).hats)
    requires multiset(elevations) == multiset(ClampPart(t, mode, maxRes, g[j]).elevations)
    ensures var out, outs := ClampFeature(t, mode, maxRes, s, o, g), Outcomes(t, mode, maxRes, g);
      && out.hat == Fold(None, Flatten(HatsOf(outs)[j := hats]))
      && out.terrain == Fold(None, Flatten(ElevationsOf(outs)[j := elevations]))
  {
    var outs := Outcomes(t, mode, maxRes, g);
    ClampStatsParts(t, mode, maxRes, s, o, g);
    FlattenReorder(HatsOf(outs), j, hats);
    FlattenReorder(ElevationsOf(outs), j, elevations);
    FoldPermutation(Flatten(HatsOf(outs)[j := hats]), Flatten(HatsOf(outs)));
    FoldPermutation(Flatten(ElevationsOf(outs)[j := elevations]), Flatten(ElevationsOf(outs)));
  }
}
