/** The RESCALE layout of `make_new_uv`: one pass finds the bounding box of
    the wrapped source coordinates, a second pass maps every corner through
    one uniform scale and a translation into [margin, 1 - margin]. */
module Rescale {
  import opened Common
  import opened UvGeometry

  /** Bounding box `umin, vmin, umax, vmax`. */
  datatype Box = Box(umin: real, vmin: real, umax: real, vmax: real)

  /** The loop's starting values `1e9` / `-1e9`. */
  const Sentinel: real := 1000000000.0
  /** The smallest extent used for the scale, `1e-6`. */
  const MinExtent: real := 0.000001

  const EmptyBox: Box := Box(Sentinel, Sentinel, -Sentinel, -Sentinel)

  /** All corners of all faces, face by face (the order of `bm.faces` /
      `f.loops`). */
  function Corners(faces: seq<seq<UV>>): seq<UV> {
    if faces == [] then [] else Corners(faces[..|faces| - 1]) + faces[|faces| - 1]
  }

  lemma {:induction false} CornerInCorners(faces: seq<seq<UV>>, f: nat, k: nat)
    requires f < |faces| && k < |faces[f]|
    ensures faces[f][k] in Corners(faces)
    decreases |faces|
  {
    var n := |faces| - 1;
    if f < n {
      assert faces[..n][f] == faces[f];
      CornerInCorners(faces[..n], f, k);
    }
  }

  /** One step of the first loop: widen the box by a wrapped corner. */
  function Extend(b: Box, p: UV): Box {
    var q := Clamp01(p);
    Box(MinR(b.umin, q.u), MinR(b.vmin, q.v), MaxR(b.umax, q.u), MaxR(b.vmax, q.v))
  }

  /** The box after the first loop has visited `pts` in order. */
  function BoundsOf(pts: seq<UV>): Box {
    if pts == [] then EmptyBox else Extend(BoundsOf(pts[..|pts| - 1]), pts[|pts| - 1])
  }

  /** Once some corner was seen, the box is the exact box of the wrapped
      corners: it contains each of them and each side is touched by one. */
  lemma {:induction false} BoundsTight(pts: seq<UV>)
    requires |pts| > 0
    ensures var b := BoundsOf(pts);
      && 0.0 <= b.umin <= b.umax < 1.0 && 0.0 <= b.vmin <= b.vmax < 1.0
      && (forall p :: p in pts ==> b.umin <= Clamp01(p).u <= b.umax && b.vmin <= Clamp01(p).v <= b.vmax)
      && (exists p :: p in pts && Clamp01(p).u == b.umin)
      && (exists p :: p in pts && Clamp01(p).u == b.umax)
      && (exists p :: p in pts && Clamp01(p).v == b.vmin)
      && (exists p :: p in pts && Clamp01(p).v == b.vmax)
    decreases |pts|
  {
    var n := |pts| - 1;
    var last := pts[n];
    assert last in pts;
    assert pts == pts[..n] + [last];
    if n > 0 {
      BoundsTight(pts[..n]);
      forall p | p in pts[..n] ensures p in pts { }
    }
  }

  /** The common factor `scale * s2` applied to both axes. */
  function Factor(b: Box, margin: real): real {
    var w := MaxR(MinExtent, b.umax - b.umin);
    var h := MaxR(MinExtent, b.vmax - b.vmin);
    (1.0 / MaxR(w, h)) * (1.0 - margin * 2.0)
  }

  /** One corner of the second loop, applied to the wrapped coordinate `q`. */
  function RescalePoint(b: Box, margin: real, q: UV): UV {
    UV((q.u - b.umin) * Factor(b, margin) + margin, (q.v - b.vmin) * Factor(b, margin) + margin)
  }

  function RescaleFace(b: Box, margin: real, face: seq<UV>): (r: seq<UV>)
    ensures |r| == |face|
  {
    seq(|face|, k requires 0 <= k < |face| => RescalePoint(b, margin, Clamp01(face[k])))
  }

  /** The destination layer the RESCALE branch writes. */
  function Rescaled(faces: seq<seq<UV>>, margin: real): (r: seq<seq<UV>>)
    ensures |r| == |faces|
    ensures forall f :: 0 <= f < |faces| ==> |r[f]| == |faces[f]|
  {
    var b := BoundsOf(Corners(faces));
    seq(|faces|, f requires 0 <= f < |faces| => RescaleFace(b, margin, faces[f]))
  }

  /** First loop of the RESCALE branch: the box of the wrapped corners,
      starting from the +-1e9 sentinels. */
  method MeasureBounds(src: seq<seq<UV>>) returns (b: Box)
    ensures b == BoundsOf(Corners(src))
  {
    var umin, vmin := Sentinel, Sentinel;
    var umax, vmax := -Sentinel, -Sentinel;
    var f := 0;
    while f < |src|
      invariant 0 <= f <= |src|
      invariant Box(umin, vmin, umax, vmax) == BoundsOf(Corners(src[..f]))
    {
      assert src[..f + 1][..f] == src[..f];
      assert Corners(src[..f + 1]) == Corners(src[..f]) + src[f];
      umin, vmin, umax, vmax := WidenByFace(umin, vmin, umax, vmax, Corners(src[..f]), src[f]);
      f := f + 1;
    }
    assert src[..f] == src;
    b := Box(umin, vmin, umax, vmax);
  }

  /** The inner loop of the first pass: widen the box by the wrapped
      corners of one face, in loop order. */
  method WidenByFace(umin0: real, vmin0: real, umax0: real, vmax0: real, ghost seen: seq<UV>, face: seq<UV>)
    returns (umin: real, vmin: real, umax: real, vmax: real)
    requires Box(umin0, vmin0, umax0, vmax0) == BoundsOf(seen)
    ensures Box(umin, vmin, umax, vmax) == BoundsOf(seen + face)
  {
    umin, vmin, umax, vmax := umin0, vmin0, umax0, vmax0;
    var k := 0;
    assert seen + face[..0] == seen;
    while k < |face|
      invariant 0 <= k <= |face|
      invariant Box(umin, vmin, umax, vmax) == BoundsOf(seen + face[..k])
    {
      assert seen + face[..k + 1] == (seen + face[..k]) + [face[k]];
      var uv := Clamp01(face[k]);
      umin, vmin := MinR(umin, uv.u), MinR(vmin, uv.v);
      umax, vmax := MaxR(umax, uv.u), MaxR(vmax, uv.v);
      k := k + 1;
    }
    assert face[..k] == face;
  }

  /** The RESCALE branch: measure the box, then write every corner of the
      destination layer. */
  method RescaleLayer(src: seq<seq<UV>>, margin: real) returns (dst: seq<seq<UV>>)
    ensures dst == Rescaled(src, margin)
  {
    var b := MeasureBounds(src);
    dst := [];
    var f := 0;
    while f < |src|
      invariant 0 <= f <= |src|
      invariant |dst| == f
      invariant forall g :: 0 <= g < f ==> dst[g] == RescaleFace(b, margin, src[g])
    {
      var face := src[f];
      var row: seq<UV> := [];
      var k := 0;
      while k < |face|
        invariant 0 <= k <= |face|
        invariant |row| == k
        invariant forall j :: 0 <= j < k ==> row[j] == RescalePoint(b, margin, Clamp01(face[j]))
      {
        row := row + [RescalePoint(b, margin, Clamp01(face[k]))];
        k := k + 1;
      }
      dst := dst + [row];
      f := f + 1;
    }
  }

  /** A wrapped corner inside the box maps into [margin, 1 - margin]. */
  lemma PointWithinMargin(b: Box, margin: real, q: UV)
    requires 0.0 <= margin <= 0.5
    requires b.umin <= q.u <= b.umax && b.vmin <= q.v <= b.vmax
    ensures var r := RescalePoint(b, margin, q);
      margin <= r.u <= 1.0 - margin && margin <= r.v <= 1.0 - margin
  {
    var w := MaxR(MinExtent, b.umax - b.umin);
    var h := MaxR(MinExtent, b.vmax - b.vmin);
    var m := MaxR(w, h);
    var f := Factor(b, margin);
    var x, y := q.u - b.umin, q.v - b.vmin;
    assert x <= m && y <= m;
    AffineWithin(x, m, margin, f);
    AffineWithin(y, m, margin, f);
    var r := RescalePoint(b, margin, q);
    assert r == UV(x * f + margin, y * f + margin);
  }

  /** 0 <= x <= m and f == (1/m) * (1 - 2 margin) put x * f + margin
      into [margin, 1 - margin]. */
  lemma AffineWithin(x: real, m: real, margin: real, f: real)
    requires 0.0 <= x <= m && 0.0 < m && 0.0 <= margin <= 0.5
    requires f == (1.0 / m) * (1.0 - margin * 2.0)
    ensures margin <= x * f + margin <= 1.0 - margin
  {
    var s := 1.0 - margin * 2.0;
    var inv := 1.0 / m;
    assert m * inv == 1.0;
    MulMono(x, m, inv);
    assert 0.0 <= x * inv <= 1.0;
    MulMono(x * inv, 1.0, s);
    assert x * f == (x * inv) * s;
  }

  lemma MulMono(a: real, b: real, c: real)
    requires 0.0 <= a <= b && 0.0 <= c
    ensures 0.0 <= a * c <= b * c
  {
  }

  /** With 0 <= margin <= 0.5 every written coordinate lies in
      [margin, 1 - margin] on both axes. */
  lemma RescaleWithinMargin(faces: seq<seq<UV>>, margin: real, f: nat, k: nat)
    requires 0.0 <= margin <= 0.5
    requires f < |faces| && k < |faces[f]|
    ensures var p := Rescaled(faces, margin)[f][k];
      margin <= p.u <= 1.0 - margin && margin <= p.v <= 1.0 - margin
  {
    var pts := Corners(faces);
    var b := BoundsOf(pts);
    CornerInCorners(faces, f, k);
    BoundsTight(pts);
    var q := Clamp01(faces[f][k]);
    assert Rescaled(faces, margin)[f][k] == RescalePoint(b, margin, q);
    PointWithinMargin(b, margin, q);
  }

  /** The map is one uniform scale plus a translation: the difference of
      any two wrapped corners is multiplied by the same factor on both axes
      (positive when margin < 0.5), so shapes and relative placement are kept. */
  lemma RescaleUniform(b: Box, margin: real, q1: UV, q2: UV)
    ensures var s := Factor(b, margin);
      var r1, r2 := RescalePoint(b, margin, q1), RescalePoint(b, margin, q2);
      && (margin < 0.5 ==> s > 0.0)
      && r1.u - r2.u == s * (q1.u - q2.u) && r1.v - r2.v == s * (q1.v - q2.v)
  {
    var s := Factor(b, margin);
    var m := MaxR(MaxR(MinExtent, b.umax - b.umin), MaxR(MinExtent, b.vmax - b.vmin));
    var inv := 1.0 / m;
    assert inv > 0.0;
    if margin < 0.5 {
      var s2 := 1.0 - margin * 2.0;
      assert s2 > 0.0;
      assert s == inv * s2;
    }
    assert (q1.u - b.umin) * s - (q2.u - b.umin) * s == s * (q1.u - q2.u);
    assert (q1.v - b.vmin) * s - (q2.v - b.vmin) * s == s * (q1.v - q2.v);
  }

  /** x * ((1/x) * s) == s for positive x. */
  lemma CancelRatio(x: real, s: real)
    requires x > 0.0
    ensures x * ((1.0 / x) * s) == s
  {
    assert x * (1.0 / x) == 1.0;
    assert x * ((1.0 / x) * s) == (x * (1.0 / x)) * s;
  }

  /** The box's near sides land on `margin`; along the longer side (when it
      is at least 1e-6 long) the far side lands on `1 - margin`, so the
      longer extent spans the whole inner tile. */
  lemma BoxSidesMapToMargins(b: Box, margin: real)
    ensures RescalePoint(b, margin, UV(b.umin, b.vmin)) == UV(margin, margin)
    ensures var w, h := b.umax - b.umin, b.vmax - b.vmin;
      w >= MinExtent && w >= h ==> RescalePoint(b, margin, UV(b.umax, b.vmin)).u == 1.0 - margin
    ensures var w, h := b.umax - b.umin, b.vmax - b.vmin;
      h >= MinExtent && h >= w ==> RescalePoint(b, margin, UV(b.umin, b.vmax)).v == 1.0 - margin
  {
    var s := Factor(b, margin);
    assert RescalePoint(b, margin, UV(b.umin, b.vmin)) == UV(0.0 * s + margin, 0.0 * s + margin);
    var w := b.umax - b.umin;
    var h := b.vmax - b.vmin;
    if w >= MinExtent && w >= h {
      assert MaxR(MaxR(MinExtent, w), MaxR(MinExtent, h)) == w;
      SpanOfLonger(b.umin, b.umax, w, margin);
    }
    if h >= MinExtent && h >= w {
      assert MaxR(MaxR(MinExtent, w), MaxR(MinExtent, h)) == h;
      SpanOfLonger(b.vmin, b.vmax, h, margin);
    }
  }

  /** A side of length `m` scaled by `(1/m) * (1 - 2 margin)` and moved by
      `margin` ends at `1 - margin`. */
  lemma SpanOfLonger(lo: real, hi: real, m: real, margin: real)
    requires hi - lo == m && m > 0.0
    ensures (hi - lo) * ((1.0 / m) * (1.0 - margin * 2.0)) + margin == 1.0 - margin
  {
    CancelRatio(m, 1.0 - margin * 2.0);
  }
}
