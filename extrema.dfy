/**
  Running minimum/maximum over a stream of values.

  The filter starts every accumulator at the sentinel pair (DBL_MAX, -DBL_MAX) and
  updates it with `if (v < min) min = v; if (v > max) max = v;`; a statistic is written
  only if the minimum is no longer the sentinel. Here the sentinel is `None` and an
  accumulator that has seen at least one value is `Some(Range(min, max))`.
*/
module Extrema {
  import opened Optional

  /** The smallest and the largest value seen so far. */
  datatype Range = Range(lo: real, hi: real)

  predicate IsLeast(m: real, vs: seq<real>)
  {
    m in vs && forall i :: 0 <= i < |vs| ==> m <= vs[i]
  }

  predicate IsGreatest(m: real, vs: seq<real>)
  {
    m in vs && forall i :: 0 <= i < |vs| ==> vs[i] <= m
  }

  /** One step of the running min/max: the value lowers the minimum or raises the maximum, if it can. */
  function Include(acc: Option<Range>, v: real): (r: Option<Range>)
    ensures r.Some? && r.value.lo <= v <= r.value.hi
    ensures r.value.lo == v || (acc.Some? && r.value.lo == acc.value.lo)
    ensures r.value.hi == v || (acc.Some? && r.value.hi == acc.value.hi)
    ensures acc.Some? ==> r.value.lo <= acc.value.lo && acc.value.hi <= r.value.hi
  {
    match acc
    case None => Some(Range(v, v))
    case Some(rg) => Some(Range(if v < rg.lo then v else rg.lo, if v > rg.hi then v else rg.hi))
  }

  /** The accumulator after visiting `vs` from first to last. */
  function Fold(acc: Option<Range>, vs: seq<real>): Option<Range>
  {
    if vs == [] then acc else Include(Fold(acc, vs[..|vs| - 1]), vs[|vs| - 1])
  }

  /** One more value folded in. */
  lemma FoldStep(acc: Option<Range>, vs: seq<real>, i: nat)
    requires i < |vs|
    ensures Fold(acc, vs[..i + 1]) == Include(Fold(acc, vs[..i]), vs[i])
  {
    assert vs[..i + 1][..i] == vs[..i];
  }

  /** Starting from the sentinel, the fold records something exactly when it saw a value,
      and then it holds the least and the greatest value seen. */
  lemma {:induction false} FoldExtrema(vs: seq<real>)
    ensures Fold(None, vs).None? <==> vs == []
    ensures vs != [] ==> IsLeast(Fold(None, vs).value.lo, vs) && IsGreatest(Fold(None, vs).value.hi, vs)
  {
    if vs != [] {
      var init, last := vs[..|vs| - 1], vs[|vs| - 1];
      assert vs == init + [last];
      FoldExtrema(init);
      var r := Fold(None, vs).value;
      assert r.lo in vs by {
        if r.lo != last {
          assert r.lo == Fold(None, init).value.lo;
          assert r.lo in init;
        }
      }
      assert r.hi in vs by {
        if r.hi != last {
          assert r.hi == Fold(None, init).value.hi;
          assert r.hi in init;
        }
      }
      forall i | 0 <= i < |vs| ensures r.lo <= vs[i] <= r.hi {
        if i < |init| {
          assert vs[i] == init[i];
        }
      }
    }
  }

  /** Visiting two runs of values one after the other is the same as visiting their concatenation. */
  lemma {:induction false} FoldAppend(acc: Option<Range>, a: seq<real>, b: seq<real>)
    ensures Fold(acc, a + b) == Fold(Fold(acc, a), b)
  {
    if b == [] {
      assert a + b == a;
    } else {
      var b' := b[..|b| - 1];
      assert (a + b)[..|a + b| - 1] == a + b';
      FoldAppend(acc, a, b');
    }
  }

  /** The statistics do not depend on the order in which the values are visited. */
  lemma FoldPermutation(vs: seq<real>, ws: seq<real>)
    requires multiset(vs) == multiset(ws)
    ensures Fold(None, vs) == Fold(None, ws)
  {
    FoldExtrema(vs);
    FoldExtrema(ws);
    if vs != [] {
      assert |ws| == |multiset(ws)| == |multiset(vs)| == |vs|;
      var r, s := Fold(None, vs).value, Fold(None, ws).value;
      assert r.lo in multiset(ws) && s.lo in multiset(vs);
      assert r.hi in multiset(ws) && s.hi in multiset(vs);
      var i :| 0 <= i < |ws| && ws[i] == r.lo;
      var i' :| 0 <= i' < |vs| && vs[i'] == s.lo;
      var k :| 0 <= k < |ws| && ws[k] == r.hi;
      var k' :| 0 <= k' < |vs| && vs[k'] == s.hi;
    } else {
      assert |ws| == |multiset(ws)| == 0;
    }
  }

  /** The values of several runs, one run after the other. */
  function Flatten<T>(vss: seq<seq<T>>): seq<T>
  {
    if vss == [] then [] else Flatten(vss[..|vss| - 1]) + vss[|vss| - 1]
  }

  lemma FlattenStep<T>(vss: seq<seq<T>>, k: nat)
    requires k < |vss|
    ensures Flatten(vss[..k + 1]) == Flatten(vss[..k]) + vss[k]
  {
    assert vss[..k + 1][..k] == vss[..k];
  }

  /** Folding several runs from the sentinel is folding all but the last, then the last. */
  lemma FoldFlattenStep(vss: seq<seq<real>>, n: nat)
    requires |vss| == n + 1
    ensures Fold(None, Flatten(vss)) == Fold(Fold(None, Flatten(vss[..n])), vss[n])
  {
    FoldAppend(None, Flatten(vss[..n]), vss[n]);
  }

  lemma {:induction false} FlattenMembers<T>(vss: seq<seq<T>>, v: T)
    ensures v in Flatten(vss) <==> exists j :: 0 <= j < |vss| && v in vss[j]
  {
    if vss != [] {
      var init := vss[..|vss| - 1];
      FlattenMembers(init, v);
      if v in Flatten(init) {
        var j :| 0 <= j < |init| && v in init[j];
        assert vss[j] == init[j];
      }
      if j :| 0 <= j < |vss| && v in vss[j] {
        if j < |init| {
          assert init[j] == vss[j];
        }
      }
    }
  }

  lemma {:induction false} FlattenEmpty<T>(vss: seq<seq<T>>)
    ensures Flatten(vss) == [] <==> forall j :: 0 <= j < |vss| ==> vss[j] == []
  {
    if vss != [] {
      var init := vss[..|vss| - 1];
      FlattenEmpty(init);
      if Flatten(vss) == [] {
        assert Flatten(init) == [];
        forall j | 0 <= j < |vss| ensures vss[j] == [] {
          if j < |init| {
            assert vss[j] == init[j];
          }
        }
      }
    }
  }

  /** Reordering the values of one run leaves the values of all runs the same as a multiset. */
  lemma {:induction false} FlattenReorder(vss: seq<seq<real>>, j: nat, w: seq<real>)
    requires j < |vss| && multiset(w) == multiset(vss[j])
    ensures multiset(Flatten(vss[j := w])) == multiset(Flatten(vss))
  {
    var n := |vss| - 1;
    var uss := vss[j := w];
    assert uss[..n] == if j == n then vss[..n] else vss[..n][j := w];
    if j < n {
      FlattenReorder(vss[..n], j, w);
    }
  }

  /** The range bounds every value of every run and both its ends are attained. */
  predicate Spans(rg: Range, vss: seq<seq<real>>)
  {
    && rg.lo <= rg.hi
    && (forall j, i :: 0 <= j < |vss| && 0 <= i < |vss[j]| ==> rg.lo <= vss[j][i] <= rg.hi)
    && (exists j, i :: 0 <= j < |vss| && 0 <= i < |vss[j]| && vss[j][i] == rg.lo)
    && (exists j, i :: 0 <= j < |vss| && 0 <= i < |vss[j]| && vss[j][i] == rg.hi)
  }

  /** Folding the values of several runs (the parts of a geometry) from the sentinel: something is
      recorded exactly when some run is non-empty, and then it spans the values. */
  lemma FoldFlatten(vss: seq<seq<real>>)
    ensures Fold(None, Flatten(vss)).Some? <==> exists j :: 0 <= j < |vss| && vss[j] != []
    ensures Fold(None, Flatten(vss)).Some? ==> Spans(Fold(None, Flatten(vss)).value, vss)
  {
    var all := Flatten(vss);
    FoldExtrema(all);
    FlattenEmpty(vss);
    if all != [] {
      var r := Fold(None, all).value;
      assert r.lo <= all[0] <= r.hi;
      forall j, i | 0 <= j < |vss| && 0 <= i < |vss[j]| ensures r.lo <= vss[j][i] <= r.hi {
        FlattenMembers(vss, vss[j][i]);
        var n :| 0 <= n < |all| && all[n] == vss[j][i];
      }
      FlattenMembers(vss, r.lo);
      var j :| 0 <= j < |vss| && r.lo in vss[j];
      var i :| 0 <= i < |vss[j]| && vss[j][i] == r.lo;
      FlattenMembers(vss, r.hi);
      var j' :| 0 <= j' < |vss| && r.hi in vss[j'];
      var i' :| 0 <= i' < |vss[j']| && vss[j'][i'] == r.hi;
    }
  }
}
