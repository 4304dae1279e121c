/**
  Features as the filter sees them: a geometry made of parts, each part a fixed-size
  buffer of 3-D vertices that the filter rewrites in place, and a string-keyed table of
  numeric attributes that receives the statistics.
*/
module Features {
  /** A vertex (osg::Vec3d); coordinates are reals, not IEEE doubles. */
  datatype Point = Point(x: real, y: real, z: real)

  /** The observable state of one feature: the vertices of every part and the attributes. */
  datatype FeatureState = FeatureState(geometry: seq<seq<Point>>, attrs: map<string, real>)

  class Feature {
    /** The parts visited by the geometry iterator, in order. The filter never replaces a part. */
    const parts: seq<array<Point>>
    var attrs: map<string, real>

    constructor (parts: seq<array<Point>>, attrs: map<string, real>)
      ensures this.parts == parts && this.attrs == attrs
    {
      this.parts := parts;
      this.attrs := attrs;
    }

    /** No part buffer is shared between two parts. */
    predicate Valid()
    {
      forall i, j :: 0 <= i < j < |parts| ==> parts[i] != parts[j]
    }

    function Geometry(): (g: seq<seq<Point>>)
      reads parts
      ensures |g| == |parts| && forall j :: 0 <= j < |parts| ==> g[j] == parts[j][..]
    {
      seq(|parts|, j requires 0 <= j < |parts| reads parts => parts[j][..])
    }

    function State(): FeatureState
      reads this, parts
    {
      FeatureState(Geometry(), attrs)
    }
  }

  predicate Disjoint(a: seq<array<Point>>, b: seq<array<Point>>)
  {
    forall i, j :: 0 <= i < |a| && 0 <= j < |b| ==> a[i] != b[j]
  }

  /** The features of a batch are distinct objects whose part buffers are all distinct. */
  predicate Separate(features: seq<Feature>)
  {
    && (forall k :: 0 <= k < |features| ==> features[k].Valid())
    && (forall k, l :: 0 <= k < l < |features| ==>
          features[k] != features[l] && Disjoint(features[k].parts, features[l].parts))
  }

  /** Every part buffer of every feature of the batch. */
  ghost function Buffers(features: seq<Feature>): set<array<Point>>
  {
    set k, j | 0 <= k < |features| && 0 <= j < |features[k].parts| :: features[k].parts[j]
  }

  /** Working on feature k leaves every other feature of a separate batch alone. */
  lemma SeparateFrames(features: seq<Feature>, k: nat)
    requires Separate(features) && k < |features|
    ensures forall j, i :: 0 <= j < |features| && j != k && 0 <= i < |features[j].parts| ==>
      features[j].parts[i] !in features[k].parts
    ensures forall j :: 0 <= j < |features| && j != k ==> features[j] != features[k]
  {
    forall j, i | 0 <= j < |features| && j != k && 0 <= i < |features[j].parts|
      ensures features[j].parts[i] !in features[k].parts
    {
      if j < k {
        assert Disjoint(features[j].parts, features[k].parts);
      } else {
        assert Disjoint(features[k].parts, features[j].parts);
      }
    }
  }

  /** A feature none of whose storage was touched keeps its state. */
  twostate lemma StateUnchanged(f: Feature)
    requires unchanged(f) && forall i :: 0 <= i < |f.parts| ==> unchanged(f.parts[i])
    ensures f.State() == old(f.State())
  {
    assert f.Geometry() == old(f.Geometry());
  }
}
