/** The name shown beside the tree: the text is sampled on a 3-pixel grid,
    kept as a fixed base copy, and every frame each point floats a little in
    y and z around its base. */
module SideName {
  import opened Common
  import opened GlyphSampler

  /** The points of the side text: none when the canvas has no 2D context. */
  function SidePoints(raster: Option<seq<Byte>>): seq<Vec3>
    requires raster.Some? ==> IsRaster(raster.value)
  {
    match raster
    case None => []
    case Some(data) => GlyphPoints(data, SideLayout)
  }

  /** Some point is produced exactly when a context exists and some pixel of
      the 3-pixel grid has a red byte above 128. */
  lemma SidePointsIffInk(raster: Option<seq<Byte>>)
    requires raster.Some? ==> IsRaster(raster.value)
    ensures |SidePoints(raster)| > 0 <==>
      raster.Some? && exists p :: p in InkPixels(raster.value) && Sampled(p, SideLayout.step)
  {
    if raster.Some? {
      var ink := InkPixels(raster.value);
      HitsSound(ink, SideLayout.step);
      HitsComplete(ink, SideLayout.step);
      if |SidePoints(raster)| > 0 {
        var hits := Hits(ink, SideLayout.step);
        assert hits[0] in hits;
      }
    }
  }

  /** The side text is drawn with at most 171 * 342 points. */
  lemma SidePointsBound(raster: Option<seq<Byte>>)
    requires raster.Some? ==> IsRaster(raster.value)
    ensures |SidePoints(raster)| <= 171 * 342
  {
    if raster.Some? {
      SideHitsBound(InkPixels(raster.value));
    }
  }

  /** Point i of the side text is pixel i of the scan, re-centred and scaled
      by 0.04 with y flipped: ((x - 512) * 0.04, -(y - 256) * 0.04, 0). */
  lemma SidePointPlacement(data: seq<Byte>, i: nat)
    requires IsRaster(data) && i < |SidePoints(Some(data))|
    ensures var p := Hits(InkPixels(data), 3)[i];
      SidePoints(Some(data))[i] == Vec3((p.x as real - 512.0) * 0.04, -(p.y as real - 256.0) * 0.04, 0.0)
  {
  }

  /** One frame's position of a point with base b at time t:
      x stays b.x, y is b.y + sin(1.5 t + 0.5 b.x) * 0.1, and z is
      cos(1.2 t + 0.5 b.y) * 0.05. */
  function Shimmer(b: Vec3, t: real, sin: real -> real, cos: real -> real): Vec3
  {
    Vec3(b.x, b.y + sin(t * 1.5 + b.x * 0.5) * 0.1, cos(t * 1.2 + b.y * 0.5) * 0.05)
  }

  /** A shimmering point keeps its base x, stays within 0.1 of its base y and
      within 0.05 of the text plane. */
  lemma ShimmerBounds(b: Vec3, t: real, sin: real -> real, cos: real -> real)
    requires IsTrig(sin) && IsTrig(cos)
    ensures Shimmer(b, t, sin, cos).x == b.x
    ensures -0.1 <= Shimmer(b, t, sin, cos).y - b.y <= 0.1
    ensures -0.05 <= Shimmer(b, t, sin, cos).z <= 0.05
  {
    assert -1.0 <= sin(t * 1.5 + b.x * 0.5) <= 1.0;
    assert -1.0 <= cos(t * 1.2 + b.y * 0.5) <= 1.0;
  }

  /** A fresh buffer holding the given points, as new Float32Array(points) does. */
  method FromPoints(ps: seq<Vec3>) returns (a: array<real>)
    ensures fresh(a)
    ensures a[..] == Flatten(ps)
    ensures a.Length == 3 * |ps|
    ensures forall j :: 0 <= j < |ps| ==> PointAt(a[..], j) == ps[j]
  {
    a := new real[3 * |ps|](_ => 0.0);
    var i := 0;
    while i < |ps|
      invariant 0 <= i <= |ps|
      invariant forall j :: 0 <= j < i ==> PointAt(a[..], j) == ps[j]
    {
      WriteTriple(a, i, ps[i]);
      i := i + 1;
    }
    FlattenFromPoints(a[..], ps);
  }

  class SideName {
    /** The buffer the renderer shows. */
    const positions: array<real>
    /** The base copy the animation starts from every frame. */
    const initialPositions: array<real>
    /** The sampled text points. */
    ghost const points: seq<Vec3>

    ghost predicate Valid()
      reads this, initialPositions
    {
      positions != initialPositions &&
      positions.Length == 3 * |points| &&
      initialPositions.Length == 3 * |points| &&
      forall j :: 0 <= j < |points| ==> PointAt(initialPositions[..], j) == points[j]
    }

    /** Whether anything is drawn: an empty buffer renders nothing. */
    predicate Renders()
      reads this
    {
      positions.Length != 0
    }

    /** Samples the text (raster None: no 2D context) and makes the shown
        buffer and the base copy: equal contents, distinct arrays. */
    constructor (raster: Option<seq<Byte>>)
      requires raster.Some? ==> IsRaster(raster.value)
      ensures Valid()
      ensures points == SidePoints(raster)
      ensures positions[..] == initialPositions[..] == Flatten(points)
      ensures fresh(positions) && fresh(initialPositions)
    {
      var pts: seq<Vec3>;
      match raster {
        case None => pts := [];
        case Some(data) => pts := Scan(data, SideLayout);
      }
      var shown := FromPoints(pts);
      var base := FromPoints(pts);
      points := pts;
      positions := shown;
      initialPositions := base;
    }

    /** The text renders exactly when it has at least one point. */
    lemma RendersIffPoints()
      requires Valid()
      ensures Renders() <==> |points| > 0
    {
    }

    /** One frame: for every particle i < positions.Length / 3, recompute its
        position from its base point. The base copy is never written. */
    method Frame(t: real, sin: real -> real, cos: real -> real)
      requires Valid()
      modifies positions
      ensures Valid()
      ensures unchanged(initialPositions)
      ensures forall i :: 0 <= i < positions.Length / 3 ==>
        PointAt(positions[..], i) == Shimmer(points[i], t, sin, cos)
    {
      var n := positions.Length / 3;
      assert n == |points|;
      var i := 0;
      while i < n
        invariant 0 <= i <= n
        invariant forall j :: 0 <= j < i ==> PointAt(positions[..], j) == Shimmer(points[j], t, sin, cos)
      {
        var i3 := 3 * i;
        var ix := initialPositions[i3];
        var iy := initialPositions[i3 + 1];
        assert ix == points[i].x && iy == points[i].y by {
          assert PointAt(initialPositions[..], i) == points[i];
        }
        var waveY := sin(t * 1.5 + ix * 0.5) * 0.1;
        var waveZ := cos(t * 1.2 + iy * 0.5) * 0.05;
        assert Vec3(ix, iy + waveY, waveZ) == Shimmer(points[i], t, sin, cos);
        ghost var prev := positions[..];
        WriteTriple(positions, i, Vec3(ix, iy + waveY, waveZ));
        forall j | 0 <= j < i + 1 ensures PointAt(positions[..], j) == Shimmer(points[j], t, sin, cos) {
          if j < i {
            assert PointAt(positions[..], j) == PointAt(prev, j);
          }
        }
        i := i + 1;
      }
    }
  }
}
