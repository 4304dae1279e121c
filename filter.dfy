/**
  The altitude filter itself: per-part loops that rewrite vertex Z in place and fold the
  running statistics, and the class whose `Push` runs them over a batch of features.
  Each method is proved against the functions of module Altitude.
*/
module Filter {
  import opened Optional
  import opened Extrema
  import opened Features
  import opened Altitude

  /** No-clamp path, one part: scale and offset every Z, folding the new Z into the HAT range. */
  method RescaleAndMeasure(part: array<Point>, scale: real, offset: real, hat0: Option<Range>)
    returns (hat: Option<Range>)
    modifies part
    ensures part[..] == RescalePoints(old(part[..]), scale, offset)
    ensures hat == Fold(hat0, Heights(part[..]))
  {
    ghost var orig := part[..];
    ghost var zs := Heights(RescalePoints(orig, scale, offset));
    hat := hat0;
    for i := 0 to part.Length
      invariant forall k :: 0 <= k < i ==> part[k] == Rescale(orig[k], scale, offset)
      invariant forall k :: i <= k < part.Length ==> part[k] == orig[k]
      invariant hat == Fold(hat0, zs[..i])
    {
      var p := part[i];
      p := p.(z := p.z * scale);
      p := p.(z := p.z + offset);
      part[i] := p;
      assert zs[i] == p.z;
      FoldStep(hat0, zs, i);
      hat := Include(hat, p.z);
    }
    assert part[..] == RescalePoints(orig, scale, offset);
    assert zs[..part.Length] == zs;
  }

  /** ABSOLUTE on one part once its elevations are known: the vertices are only read; each
      vertex's measured Z minus its elevation feeds the HAT range, its elevation the terrain range. */
  method MeasureVertices(part: array<Point>, t: Terrain, e: seq<real>, hat0: Option<Range>, terrain0: Option<Range>)
    returns (hat: Option<Range>, terrain: Option<Range>)
    requires |e| == part.Length
    ensures hat == Fold(hat0, SampledHats(t, ClampAbsolute, part[..], e)) && terrain == Fold(terrain0, e)
  {
    ghost var hats := SampledHats(t, ClampAbsolute, part[..], e);
    hat, terrain := hat0, terrain0;
    for i := 0 to part.Length
      invariant hat == Fold(hat0, hats[..i])
      invariant terrain == Fold(terrain0, e[..i])
    {
      var h := AbsoluteZ(t, part[i]) - e[i];
      assert hats[i] == h;
      FoldStep(hat0, hats, i);
      FoldStep(terrain0, e, i);
      hat := Include(hat, h);
      terrain := Include(terrain, e[i]);
    }
    assert hats[..part.Length] == hats;
    assert e[..part.Length] == e;
  }

  /** ABSOLUTE on one part: sample the part's elevations; when the query fails the part feeds nothing. */
  method MeasureAbsolute(part: array<Point>, t: Terrain, maxRes: real, hat0: Option<Range>, terrain0: Option<Range>)
    returns (hat: Option<Range>, terrain: Option<Range>)
    requires WellFormed(t)
    ensures var out := ClampPart(t, ClampAbsolute, maxRes, part[..]);
      hat == Fold(hat0, out.hats) && terrain == Fold(terrain0, out.elevations)
  {
    hat, terrain := hat0, terrain0;
    var elevations := t.sample(part[..], maxRes);
    if elevations.Some? {
      hat, terrain := MeasureVertices(part, t, elevations.value, hat, terrain);
    }
  }

  /** RELATIVE_TO_TERRAIN on one part once its elevations are known: each vertex is lifted by
      its elevation and its original Z feeds the HAT range, its elevation the terrain range. */
  method LiftVertices(part: array<Point>, t: Terrain, e: seq<real>, hat0: Option<Range>, terrain0: Option<Range>)
    returns (hat: Option<Range>, terrain: Option<Range>)
    requires |e| == part.Length
    modifies part
    ensures forall k :: 0 <= k < part.Length ==> part[k] == Lift(t, old(part[k]), e[k])
    ensures hat == Fold(hat0, Heights(old(part[..]))) && terrain == Fold(terrain0, e)
  {
    ghost var orig := part[..];
    ghost var zs := Heights(orig);
    hat, terrain := hat0, terrain0;
    for i := 0 to part.Length
      invariant forall k :: 0 <= k < i ==> part[k] == Lift(t, orig[k], e[k])
      invariant forall k :: i <= k < part.Length ==> part[k] == orig[k]
      invariant hat == Fold(hat0, zs[..i])
      invariant terrain == Fold(terrain0, e[..i])
    {
      var h := part[i].z;
      part[i] := Lift(t, part[i], e[i]);
      FoldStep(hat0, zs, i);
      FoldStep(terrain0, e, i);
      hat := Include(hat, h);
      terrain := Include(terrain, e[i]);
    }
    assert zs[..part.Length] == zs;
    assert e[..part.Length] == e;
  }

  /** RELATIVE_TO_TERRAIN on one part: sample the part's elevations; when the query fails the
      part is left as it is and feeds nothing. */
  method ResolveRelative(part: array<Point>, t: Terrain, maxRes: real, hat0: Option<Range>, terrain0: Option<Range>)
    returns (hat: Option<Range>, terrain: Option<Range>)
    requires WellFormed(t)
    modifies part
    ensures var out := ClampPart(t, ClampRelativeToTerrain, maxRes, old(part[..]));
      part[..] == out.points && hat == Fold(hat0, out.hats) && terrain == Fold(terrain0, out.elevations)
  {
    hat, terrain := hat0, terrain0;
    var elevations := t.sample(part[..], maxRes);
    if elevations.Some? {
      SampledPart(t, ClampRelativeToTerrain, maxRes, part[..]);
      hat, terrain := LiftVertices(part, t, elevations.value, hat, terrain);
    }
  }

  /** TO_TERRAIN branch (and any mode other than ABSOLUTE and RELATIVE_TO_TERRAIN), one part. */
  method DrapeToTerrain(part: array<Point>, t: Terrain, mode: ClampMode, maxRes: real)
    requires WellFormed(t) && !CollectsHats(mode)
    modifies part
    ensures part[..] == ClampPart(t, mode, maxRes, old(part[..])).points
  {
    ghost var orig := part[..];
    // the elevation query writes the sampled elevation into every vertex
    var written := t.drape(part[..], maxRes);
    forall i | 0 <= i < part.Length {
      part[i] := part[i].(z := written[i]);
    }
    if !t.vertEquiv {
      for i := 0 to part.Length
        invariant forall k :: 0 <= k < i ==> part[k] == Drape(t, orig[k], written[k])
        invariant forall k :: i <= k < part.Length ==> part[k] == orig[k].(z := written[k])
      {
        part[i] := t.toFeatureSrs(part[i]);
      }
    }
  }

  /** The scale/offset loop that follows the mode branch when no HAT is collected. */
  method RescalePart(part: array<Point>, scale: real, offset: real)
    modifies part
    ensures part[..] == RescalePoints(old(part[..]), scale, offset)
  {
    ghost var orig := part[..];
    for i := 0 to part.Length
      invariant forall k :: 0 <= k < i ==> part[k] == Rescale(orig[k], scale, offset)
      invariant forall k :: i <= k < part.Length ==> part[k] == orig[k]
    {
      var p := part[i];
      p := p.(z := p.z * scale);
      p := p.(z := p.z + offset);
      part[i] := p;
    }
  }

  /** No-clamp path, part k of a feature: only that part changes. */
  method DontClampPartInPlace(f: Feature, k: nat, scale: real, offset: real, hat0: Option<Range>)
    returns (hat: Option<Range>)
    requires f.Valid() && k < |f.parts|
    modifies f.parts[k]
    ensures f.parts[k][..] == RescalePoints(old(f.parts[k][..]), scale, offset)
    ensures hat == Fold(hat0, Heights(f.parts[k][..]))
    ensures forall j :: 0 <= j < |f.parts| && j != k ==> f.parts[j][..] == old(f.parts[j][..])
  {
    hat := RescaleAndMeasure(f.parts[k], scale, offset, hat0);
  }

  /** No-clamp path, one feature whose geometry is g: every part in turn, with the running HAT
      range across parts. */
  method DontClampParts(f: Feature, ghost g: seq<seq<Point>>, scale: real, offset: real) returns (hat: Option<Range>)
    requires f.Valid()
    requires |g| == |f.parts| && forall j :: 0 <= j < |g| ==> f.parts[j][..] == g[j]
    modifies f.parts
    ensures forall j :: 0 <= j < |g| ==> f.parts[j][..] == RescalePoints(g[j], scale, offset)
    ensures hat == DontClampFeature(scale, offset, g).hat
  {
    hat := None;
    for k := 0 to |f.parts|
      invariant forall j :: 0 <= j < k ==> f.parts[j][..] == RescalePoints(g[j], scale, offset)
      invariant forall j :: k <= j < |g| ==> f.parts[j][..] == g[j]
      invariant hat == DontClampFeature(scale, offset, g[..k]).hat
    {
      hat := DontClampPartInPlace(f, k, scale, offset, hat);
      assert g[..k + 1][..k] == g[..k];
    }
    assert g[..|g|] == g;
  }

  /** No-clamp path, one feature: its new geometry and HAT range are those of the no-clamp path. */
  method DontClampGeometry(f: Feature, scale: real, offset: real) returns (hat: Option<Range>)
    requires f.Valid()
    modifies f.parts
    ensures var out := DontClampFeature(scale, offset, old(f.Geometry()));
      f.Geometry() == out.geometry && hat == out.hat
  {
    ghost var orig := f.Geometry();
    hat := DontClampParts(f, orig, scale, offset);
    DontClampGeometryParts(scale, offset, orig);
  }

  /** Clamp path, part k of a feature whose geometry was g: the mode branch, then the post-scale
      step where no HAT is collected; the running ranges move on from the parts before k to the
      parts up to k, and only part k changes. */
  method ClampPartInPlace(f: Feature, k: nat, ghost g: seq<seq<Point>>, t: Terrain, mode: ClampMode, maxRes: real,
                          scale: real, offset: real, hat0: Option<Range>, terrain0: Option<Range>)
    returns (hat: Option<Range>, terrain: Option<Range>)
    requires f.Valid() && k < |f.parts| && k < |g| && f.parts[k][..] == g[k] && WellFormed(t)
    requires hat0 == ClampFeature(t, mode, maxRes, scale, offset, g[..k]).hat
    requires terrain0 == ClampFeature(t, mode, maxRes, scale, offset, g[..k]).terrain
    modifies f.parts[k]
    ensures f.parts[k][..] == PostScale(mode, scale, offset, ClampPart(t, mode, maxRes, g[k]).points)
    ensures hat == ClampFeature(t, mode, maxRes, scale, offset, g[..k + 1]).hat
    ensures terrain == ClampFeature(t, mode, maxRes, scale, offset, g[..k + 1]).terrain
    ensures forall j :: 0 <= j < |f.parts| && j != k ==> f.parts[j][..] == old(f.parts[j][..])
  {
    ClampFeatureStep(t, mode, maxRes, scale, offset, g, k);
    var part := f.parts[k];
    var collectHats := mode == ClampRelativeToTerrain || mode == ClampAbsolute;
    hat, terrain := hat0, terrain0;
    if mode == ClampAbsolute {
      hat, terrain := MeasureAbsolute(part, t, maxRes, hat, terrain);
    } else if mode == ClampRelativeToTerrain {
      hat, terrain := ResolveRelative(part, t, maxRes, hat, terrain);
    } else {
      DrapeToTerrain(part, t, mode, maxRes);
    }
    if !collectHats {
      RescalePart(part, scale, offset);
    }
  }

  /** The parts before k have been through the clamp path, the others are as in g, and the ranges
      are those of the parts before k. */
  ghost predicate ClampedUpTo(f: Feature, g: seq<seq<Point>>, k: nat, t: Terrain, mode: ClampMode, maxRes: real,
                              scale: real, offset: real, hat: Option<Range>, terrain: Option<Range>)
    requires WellFormed(t) && k <= |g|
    reads f.parts
  {
    && |g| == |f.parts|
    && (forall j :: 0 <= j < k ==>
          f.parts[j][..] == PostScale(mode, scale, offset, ClampPart(t, mode, maxRes, g[j]).points))
    && (forall j :: k <= j < |g| ==> f.parts[j][..] == g[j])
    && hat == ClampFeature(t, mode, maxRes, scale, offset, g[..k]).hat
    && terrain == ClampFeature(t, mode, maxRes, scale, offset, g[..k]).terrain
  }

  /** One iteration of the clamp path's part loop. */
  method ClampStep(f: Feature, k: nat, ghost g: seq<seq<Point>>, t: Terrain, mode: ClampMode, maxRes: real,
                   scale: real, offset: real, hat0: Option<Range>, terrain0: Option<Range>)
    returns (hat: Option<Range>, terrain: Option<Range>)
    requires f.Valid() && WellFormed(t) && k < |g|
    requires ClampedUpTo(f, g, k, t, mode, maxRes, scale, offset, hat0, terrain0)
    modifies f.parts
    ensures ClampedUpTo(f, g, k + 1, t, mode, maxRes, scale, offset, hat, terrain)
  {
    hat, terrain := ClampPartInPlace(f, k, g, t, mode, maxRes, scale, offset, hat0, terrain0);
  }

  /** Clamp path, one feature whose geometry is g: the mode branch and the post-scale step on every
      part in turn, with the running HAT and terrain ranges across parts. */
  method ClampParts(f: Feature, ghost g: seq<seq<Point>>, t: Terrain, mode: ClampMode, maxRes: real,
                    scale: real, offset: real)
    returns (hat: Option<Range>, terrain: Option<Range>)
    requires f.Valid() && WellFormed(t)
    requires |g| == |f.parts| && forall j :: 0 <= j < |g| ==> f.parts[j][..] == g[j]
    modifies f.parts
    ensures forall j :: 0 <= j < |g| ==>
      f.parts[j][..] == PostScale(mode, scale, offset, ClampPart(t, mode, maxRes, g[j]).points)
    ensures hat == ClampFeature(t, mode, maxRes, scale, offset, g).hat
    ensures terrain == ClampFeature(t, mode, maxRes, scale, offset, g).terrain
  {
    hat, terrain := None, None;
    for k := 0 to |f.parts|
      invariant ClampedUpTo(f, g, k, t, mode, maxRes, scale, offset, hat, terrain)
    {
      hat, terrain := ClampStep(f, k, g, t, mode, maxRes, scale, offset, hat, terrain);
    }
    assert g[..|g|] == g;
  }

  /** Clamp path, one feature: its new geometry and both ranges are those of the clamp path. */
  method ClampGeometry(f: Feature, t: Terrain, mode: ClampMode, maxRes: real, scale: real, offset: real)
    returns (hat: Option<Range>, terrain: Option<Range>)
    requires f.Valid() && WellFormed(t)
    modifies f.parts
    ensures var out := ClampFeature(t, mode, maxRes, scale, offset, old(f.Geometry()));
      f.Geometry() == out.geometry && hat == out.hat && terrain == out.terrain
  {
    ghost var orig := f.Geometry();
    hat, terrain := ClampParts(f, orig, t, mode, maxRes, scale, offset);
    ClampGeometryParts(t, mode, maxRes, scale, offset, orig);
  }

  /** Writes the HAT pair, then the terrain pair, each only when its statistic recorded something. */
  method WriteStats(feature: Feature, hat: Option<Range>, terrain: Option<Range>)
    modifies feature
    ensures feature.attrs == WithStats(old(feature.attrs), hat, terrain)
  {
    if hat.Some? {
      feature.attrs := feature.attrs[MinHat := hat.value.lo][MaxHat := hat.value.hi];
    }
    if terrain.Some? {
      feature.attrs := feature.attrs[MinTerrainZ := terrain.value.lo][MaxTerrainZ := terrain.value.hi];
    }
  }

  class AltitudeFilter {
    var altitude: Option<AltitudeSymbol>
    var maxRes: real

    constructor ()
      ensures altitude == None && maxRes == 0.0
    {
      altitude := None;
      maxRes := 0.0;
    }

    /** Takes the style's altitude symbol; its clamping resolution becomes the sampling resolution. */
    method SetPropertiesFromStyle(style: Style)
      modifies this
      ensures altitude == style.altitude
      ensures maxRes == if style.altitude.Some? then style.altitude.value.clampingResolution else old(maxRes)
    {
      altitude := style.altitude;
      if altitude.Some? {
        maxRes := altitude.value.clampingResolution;
      }
    }

    /** Chooses the path once for the whole batch and hands back the context it was given. */
    method Push(features: seq<Feature>, cx: FilterContext, t: Terrain, eval: Evaluator) returns (r: FilterContext)
      requires Separate(features) && WellFormed(t)
      modifies features, Buffers(features)
      ensures r == cx
      ensures forall k :: 0 <= k < |features| ==>
        features[k].State() == Resolve(altitude, maxRes, cx, t, eval, old(features[k].State()))
    {
      var clamp :=
        altitude.Some? &&
        altitude.value.clamping != ClampNone &&
        cx.session.Some? &&
        cx.profile.Some?;
      if clamp {
        PushAndClamp(features, t, eval);
      } else {
        PushAndDontClamp(features, eval);
      }
      r := cx;
    }

    /** The no-clamp path: every feature in turn, each scaled and offset and given its HAT range. */
    method PushAndDontClamp(features: seq<Feature>, eval: Evaluator)
      requires Separate(features)
      modifies features, Buffers(features)
      ensures forall k :: 0 <= k < |features| ==>
        features[k].State() == DontClampState(altitude, eval, old(features[k].State()))
    {
      for k := 0 to |features|
        invariant forall j :: 0 <= j < k ==>
          features[j].State() == DontClampState(altitude, eval, old(features[j].State()))
        invariant forall j :: k <= j < |features| ==> features[j].State() == old(features[j].State())
      {
        DontClampAt(features, k, eval);
      }
    }

    /** One feature through the no-clamp path. */
    method DontClampFeatureInPlace(feature: Feature, eval: Evaluator)
      requires feature.Valid()
      modifies feature, feature.parts
      ensures feature.State() == DontClampState(altitude, eval, old(feature.State()))
    {
      ghost var st := feature.State();
      var scaleZ := ScaleOf(altitude, eval, feature.attrs);
      var offsetZ := OffsetOf(altitude, eval, feature.attrs);
      ghost var out := DontClampFeature(scaleZ, offsetZ, st.geometry);
      assert DontClampState(altitude, eval, st) == FeatureState(out.geometry, WithStats(st.attrs, out.hat, None));
      var minMaxHat := DontClampGeometry(feature, scaleZ, offsetZ);
      ghost var geometry := feature.Geometry();
      WriteStats(feature, minMaxHat, None);
      assert feature.Geometry() == geometry;
    }

    /** The body of the no-clamp loop: feature k takes its new state, every other feature keeps its own. */
    method DontClampAt(features: seq<Feature>, k: nat, eval: Evaluator)
      requires Separate(features) && k < |features|
      modifies features[k], features[k].parts
      ensures features[k].State() == DontClampState(altitude, eval, old(features[k].State()))
      ensures forall j :: 0 <= j < |features| && j != k ==> features[j].State() == old(features[j].State())
    {
      SeparateFrames(features, k);
      DontClampFeatureInPlace(features[k], eval);
      forall j | 0 <= j < |features| && j != k
        ensures features[j].State() == old(features[j].State())
      {
        StateUnchanged(features[j]);
      }
    }

    /** The clamp path: every feature in turn through the mode branch, the post-scale step and the
        statistics. */
    method PushAndClamp(features: seq<Feature>, t: Terrain, eval: Evaluator)
      requires altitude.Some? && Separate(features) && WellFormed(t)
      modifies features, Buffers(features)
      ensures forall k :: 0 <= k < |features| ==>
        features[k].State() == ClampState(altitude.value, t, maxRes, eval, old(features[k].State()))
    {
      for k := 0 to |features|
        invariant forall j :: 0 <= j < k ==>
          features[j].State() == ClampState(altitude.value, t, maxRes, eval, old(features[j].State()))
        invariant forall j :: k <= j < |features| ==> features[j].State() == old(features[j].State())
      {
        ClampAt(features, k, t, eval);
      }
    }

    /** One feature through the clamp path. */
    method ClampFeatureInPlace(feature: Feature, t: Terrain, eval: Evaluator)
      requires altitude.Some? && feature.Valid() && WellFormed(t)
      modifies feature, feature.parts
      ensures feature.State() == ClampState(altitude.value, t, maxRes, eval, old(feature.State()))
    {
      ghost var st := feature.State();
      var scaleZ := ScaleOf(altitude, eval, feature.attrs);
      var offsetZ := OffsetOf(altitude, eval, feature.attrs);
      ghost var out := ClampFeature(t, altitude.value.clamping, maxRes, scaleZ, offsetZ, st.geometry);
      assert ClampState(altitude.value, t, maxRes, eval, st) == FeatureState(out.geometry, WithStats(st.attrs, out.hat, out.terrain));
      var minMaxHat, minMaxTerrain := ClampGeometry(feature, t, altitude.value.clamping, maxRes, scaleZ, offsetZ);
      ghost var geometry := feature.Geometry();
      WriteStats(feature, minMaxHat, minMaxTerrain);
      assert feature.Geometry() == geometry;
    }

    /** The body of the clamp loop: feature k takes its new state, every other feature keeps its own. */
    method ClampAt(features: seq<Feature>, k: nat, t: Terrain, eval: Evaluator)
      requires altitude.Some? && Separate(features) && k < |features| && WellFormed(t)
      modifies features[k], features[k].parts
      ensures features[k].State() == ClampState(altitude.value, t, maxRes, eval, old(features[k].State()))
      ensures forall j :: 0 <= j < |features| && j != k ==> features[j].State() == old(features[j].State())
    {
      SeparateFrames(features, k);
      ClampFeatureInPlace(features[k], t, eval);
      forall j | 0 <= j < |features| && j != k
        ensures features[j].State() == old(features[j].State())
      {
        StateUnchanged(features[j]);
      }
    }
  }
}
