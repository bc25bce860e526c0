/** UV metrics: wrapping a UV coordinate into the unit tile (`clamp01`), the
    area of a UV triangle (`tri_area_uv`) and the fan-triangulated area that
    `compute_uv_area_fraction_object` adds up. */
module UvGeometry {
  import opened Common

  /** One face-corner's texture coordinate. */
  datatype UV = UV(u: real, v: real)

  predicate IsWhole(x: real) { x == x.Floor as real }

  /** `x - floor(x)`. */
  function Frac(x: real): (r: real)
    ensures 0.0 <= r < 1.0
    ensures IsWhole(x - r)
  {
    var n := x.Floor;
    assert (n as real).Floor == n;
    x - n as real
  }

  /** `clamp01`: each component reduced to its fractional part, so a
      coordinate in any UDIM tile lands in the unit tile [0,1)x[0,1). */
  function Clamp01(p: UV): (r: UV)
    ensures 0.0 <= r.u < 1.0 && 0.0 <= r.v < 1.0
    ensures IsWhole(p.u - r.u) && IsWhole(p.v - r.v)
  {
    UV(Frac(p.u), Frac(p.v))
  }

  lemma FracShift(x: real, k: int)
    ensures Frac(x + k as real) == Frac(x)
  {
    assert (x + k as real).Floor == x.Floor + k;
  }

  /** Moving a coordinate by whole tiles does not change where it wraps to;
      wrapping twice is the same as wrapping once. */
  lemma Clamp01TileInvariant(p: UV, q: UV)
    requires IsWhole(p.u - q.u) && IsWhole(p.v - q.v)
    ensures Clamp01(p) == Clamp01(q)
  {
    FracShift(q.u, (p.u - q.u).Floor);
    assert p.u == q.u + (p.u - q.u).Floor as real;
    FracShift(q.v, (p.v - q.v).Floor);
    assert p.v == q.v + (p.v - q.v).Floor as real;
  }

  lemma Clamp01Idempotent(p: UV)
    ensures Clamp01(Clamp01(p)) == Clamp01(p)
  {
    assert Frac(Frac(p.u)) == Frac(p.u) by { assert Frac(p.u).Floor == 0; }
    assert Frac(Frac(p.v)) == Frac(p.v) by { assert Frac(p.v).Floor == 0; }
  }

  /** `tri_area_uv`: half the absolute cross product (shoelace formula). */
  function TriArea(a: UV, b: UV, c: UV): (r: real)
    ensures r >= 0.0
  {
    AbsR((b.u - a.u) * (c.v - a.v) - (c.u - a.u) * (b.v - a.v)) * 0.5
  }

  /** The area does not depend on which corner the fan starts from. */
  lemma TriAreaRotate(a: UV, b: UV, c: UV)
    ensures TriArea(a, b, c) == TriArea(b, c, a)
  {
    var x := (b.u - a.u) * (c.v - a.v) - (c.u - a.u) * (b.v - a.v);
    var y := (c.u - b.u) * (a.v - b.v) - (a.u - b.u) * (c.v - b.v);
    assert x == y;
  }

  /** The first `k` fan triangles (corner 0, corner i, corner i+1 for
      i = 1..k) of a face, all on wrapped coordinates. */
  function FanArea(face: seq<UV>, k: nat): (r: real)
    requires k + 2 <= |face|
    ensures r >= 0.0
  {
    if k == 0 then 0.0
    else FanArea(face, k - 1) + TriArea(Clamp01(face[0]), Clamp01(face[k]), Clamp01(face[k + 1]))
  }

  /** A face's contribution: faces with fewer than three corners add nothing. */
  function FaceArea(face: seq<UV>): (r: real)
    ensures r >= 0.0
  {
    if |face| < 3 then 0.0 else FanArea(face, |face| - 2)
  }

  /** The un-clamped sum over the faces (`used` at the end of the loops). */
  function AreaSum(faces: seq<seq<UV>>): real
  {
    if faces == [] then 0.0 else AreaSum(faces[..|faces| - 1]) + FaceArea(faces[|faces| - 1])
  }

  /** The returned fraction: `max(0.0, min(1.0, used))`. */
  function ClampFraction(used: real): (r: real)
    ensures 0.0 <= r <= 1.0
    ensures 0.0 <= used <= 1.0 ==> r == used
  {
    MaxR(0.0, MinR(1.0, used))
  }

  /** The sum is never negative, so only the upper clamp can ever bite. */
  lemma {:induction false} AreaSumNonNegative(faces: seq<seq<UV>>)
    ensures AreaSum(faces) >= 0.0
    ensures ClampFraction(AreaSum(faces)) == MinR(1.0, AreaSum(faces))
    decreases |faces|
  {
    if faces != [] {
      AreaSumNonNegative(faces[..|faces| - 1]);
    }
  }

  /** Only faces with at least three corners count: dropping the others
      leaves the sum unchanged. */
  function ProperFaces(faces: seq<seq<UV>>): (r: seq<seq<UV>>)
    ensures forall i :: 0 <= i < |r| ==> |r[i]| >= 3
  {
    if faces == [] then []
    else
      var last := faces[|faces| - 1];
      ProperFaces(faces[..|faces| - 1]) + (if |last| >= 3 then [last] else [])
  }

  lemma {:induction false} AreaSumSkipsDegenerate(faces: seq<seq<UV>>)
    ensures AreaSum(ProperFaces(faces)) == AreaSum(faces)
    decreases |faces|
  {
    if faces != [] {
      var init := faces[..|faces| - 1];
      var last := faces[|faces| - 1];
      AreaSumSkipsDegenerate(init);
      var p := ProperFaces(init);
      if |last| >= 3 {
        assert (p + [last])[..|p + [last]| - 1] == p;
      } else {
        assert p + [] == p;
      }
    }
  }

  /** Two meshes whose corners differ only by whole-tile offsets (islands in
      different UDIM tiles, each corner moved on its own). */
  ghost predicate TileEquivalent(a: seq<seq<UV>>, b: seq<seq<UV>>) {
    && |a| == |b|
    && (forall f :: 0 <= f < |a| ==> |a[f]| == |b[f]|)
    && (forall f, k :: 0 <= f < |a| && 0 <= k < |a[f]| ==>
          IsWhole(a[f][k].u - b[f][k].u) && IsWhole(a[f][k].v - b[f][k].v))
  }

  lemma {:induction false} FanAreaTileInvariant(a: seq<UV>, b: seq<UV>, k: nat)
    requires |a| == |b| && k + 2 <= |a|
    requires forall i :: 0 <= i < |a| ==> Clamp01(a[i]) == Clamp01(b[i])
    ensures FanArea(a, k) == FanArea(b, k)
  {
    if k > 0 {
      FanAreaTileInvariant(a, b, k - 1);
    }
  }

  /** Wrapping makes the area independent of which tile each corner sits in. */
  lemma {:induction false} AreaSumTileInvariant(a: seq<seq<UV>>, b: seq<seq<UV>>)
    requires TileEquivalent(a, b)
    ensures AreaSum(a) == AreaSum(b)
    decreases |a|
  {
    if a != [] {
      var n := |a| - 1;
      assert TileEquivalent(a[..n], b[..n]);
      AreaSumTileInvariant(a[..n], b[..n]);
      forall i | 0 <= i < |a[n]| ensures Clamp01(a[n][i]) == Clamp01(b[n][i]) {
        Clamp01TileInvariant(a[n][i], b[n][i]);
      }
      if |a[n]| >= 3 {
        FanAreaTileInvariant(a[n], b[n], |a[n]| - 2);
      }
    }
  }

  /** The nested face / fan-triangle loops of `compute_uv_area_fraction_object`
      that accumulate `used`. */
  method AccumulateArea(faces: seq<seq<UV>>) returns (used: real)
    ensures used == AreaSum(faces)
    ensures used >= 0.0
  {
    used := 0.0;
    var f := 0;
    while f < |faces|
      invariant 0 <= f <= |faces|
      invariant used == AreaSum(faces[..f])
    {
      var face := faces[f];
      assert faces[..f + 1][..f] == faces[..f];
      if |face| >= 3 {
        var uv0 := Clamp01(face[0]);
        var start := used;
        var i := 1;
        while i < |face| - 1
          invariant 1 <= i <= |face| - 1
          invariant used == start + FanArea(face, i - 1)
        {
          var uvi := Clamp01(face[i]);
          var uvj := Clamp01(face[i + 1]);
          used := used + TriArea(uv0, uvi, uvj);
          i := i + 1;
        }
      }
      f := f + 1;
    }
    assert faces[..f] == faces;
    AreaSumNonNegative(faces);
  }
}
