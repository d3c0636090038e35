/** The glyph raster scan shared by the sky-formed name and the side-panel
    name: the text is drawn onto a 1024 x 512 RGBA canvas (host drawing, an
    input here), the canvas is walked on a fixed stride in row-major order,
    and every sampled pixel whose red byte is above 128 becomes one point. */
module GlyphSampler {
  import opened Common

  newtype Byte = b: int | 0 <= b < 256

  const Width: nat := 1024
  const Height: nat := 512
  const InkThreshold: Byte := 128

  /** Bytes in the canvas: four (RGBA) per pixel, 1024 * 512 * 4. */
  const RasterSize: nat := 2097152

  /** What getImageData returns for the whole canvas. */
  predicate IsRaster(data: seq<Byte>) { |data| == RasterSize }

  datatype Pixel = Pixel(x: nat, y: nat)

  predicate OnCanvas(p: Pixel) { p.x < Width && p.y < Height }

  /** Position of a pixel's red byte; it always lies inside the raster. */
  function RedIndex(p: Pixel): (i: nat)
    requires OnCanvas(p)
    ensures i + 3 < RasterSize
  {
    (p.y * 1024 + p.x) * 4
  }

  /** The pixels whose red byte is above the threshold. */
  function InkPixels(data: seq<Byte>): set<Pixel>
    requires IsRaster(data)
  {
    set x: nat, y: nat | x < Width && y < Height && data[(y * 1024 + x) * 4] > InkThreshold :: Pixel(x, y)
  }

  /** A pixel is inked exactly when it lies on the canvas and its red byte,
      at (y * 1024 + x) * 4, is above 128. */
  lemma InkPixelsMeans(data: seq<Byte>, p: Pixel)
    requires IsRaster(data)
    ensures p in InkPixels(data) <==> OnCanvas(p) && data[RedIndex(p)] > InkThreshold
  {
    if OnCanvas(p) && data[RedIndex(p)] > InkThreshold {
      assert Pixel(p.x, p.y) in InkPixels(data);
    }
  }

  /** v is a multiple of step (stated without division, which the prover
      cannot handle for a symbolic step). */
  predicate OnGrid(v: nat, step: nat)
    requires step > 0
    decreases v
  {
    if v < step then v == 0 else OnGrid(v - step, step)
  }

  /** A pixel the scan visits. */
  predicate Sampled(p: Pixel, step: nat)
    requires step > 0
  {
    OnCanvas(p) && OnGrid(p.x, step) && OnGrid(p.y, step)
  }

  /** Scan order: row-major position of a pixel. */
  function Key(p: Pixel): nat { p.y * 1024 + p.x }

  /** Inked pixels of row y from column x on, left to right, stepping by step. */
  function RowHits(ink: set<Pixel>, step: nat, y: nat, x: nat): seq<Pixel>
    requires step > 0
    decreases Width - x
  {
    if x >= Width then []
    else (if Pixel(x, y) in ink then [Pixel(x, y)] else []) + RowHits(ink, step, y, x + step)
  }

  /** Inked pixels of rows y, y + step, ... in scan order. */
  function GridHits(ink: set<Pixel>, step: nat, y: nat): seq<Pixel>
    requires step > 0
    decreases Height - y
  {
    if y >= Height then []
    else RowHits(ink, step, y, 0) + GridHits(ink, step, y + step)
  }

  /** All inked sampled pixels of the canvas, in scan order. */
  function Hits(ink: set<Pixel>, step: nat): seq<Pixel>
    requires step > 0
  {
    GridHits(ink, step, 0)
  }

  /** Stride, scale and vertical lift of one use of the sampler. */
  datatype Layout = Layout(step: nat, scale: real, lift: real)

  /** The sky-formed name: stride 4, 0.03 world units per pixel, 12 units up. */
  const FormationLayout: Layout := Layout(4, 0.03, 12.0)

  /** The side-panel name: stride 3, 0.04 world units per pixel, no lift. */
  const SideLayout: Layout := Layout(3, 0.04, 0.0)

  /** Pixel to world: re-centred on the canvas middle, scaled, y flipped, lifted, z = 0. */
  function ToWorld(p: Pixel, layout: Layout): Vec3
  {
    Vec3((p.x as real - (Width / 2) as real) * layout.scale,
         -(p.y as real - (Height / 2) as real) * layout.scale + layout.lift,
         0.0)
  }

  /** The points a scan yields: the world image of each hit, in scan order. */
  function GlyphPoints(data: seq<Byte>, layout: Layout): seq<Vec3>
    requires IsRaster(data) && layout.step > 0
  {
    var hits := Hits(InkPixels(data), layout.step);
    seq(|hits|, k requires 0 <= k < |hits| => ToWorld(hits[k], layout))
  }

  /** The scan loop: rows y = 0, step, 2 step, ... top to bottom; each row is
      scanned by ScanRow. Point k is the world image of the k-th inked pixel. */
  method Scan(data: seq<Byte>, layout: Layout) returns (points: seq<Vec3>)
    requires IsRaster(data) && layout.step > 0
    ensures |points| == |Hits(InkPixels(data), layout.step)|
    ensures forall k :: 0 <= k < |points| ==> points[k] == ToWorld(Hits(InkPixels(data), layout.step)[k], layout)
    ensures points == GlyphPoints(data, layout)
  {
    var step := layout.step;
    ghost var ink := InkPixels(data);
    ghost var whole := Hits(ink, step);
    ghost var hits: seq<Pixel> := [];
    points := [];
    var y: nat := 0;
    while y < Height
      invariant hits + GridHits(ink, step, y) == whole
      invariant |points| == |hits|
      invariant forall k :: 0 <= k < |points| ==> points[k] == ToWorld(hits[k], layout)
      decreases Height - y
    {
      ghost var before := hits;
      points, hits := ScanRow(data, layout, y, ink, points, hits);
      NextRow(ink, step, y, before, hits, whole);
      y := y + step;
    }
    ConcatEmpty(hits, GridHits(ink, step, y));
  }

  /** The inner loop of the scan: columns x = 0, step, ... of row y, pushing
      one point per pixel whose red byte is above the threshold. */
  method ScanRow(data: seq<Byte>, layout: Layout, y: nat, ghost ink: set<Pixel>,
                 points0: seq<Vec3>, ghost hits0: seq<Pixel>)
    returns (points: seq<Vec3>, ghost hits: seq<Pixel>)
    requires IsRaster(data) && layout.step > 0 && y < Height && ink == InkPixels(data)
    requires |points0| == |hits0|
    requires forall k :: 0 <= k < |points0| ==> points0[k] == ToWorld(hits0[k], layout)
    ensures hits == hits0 + RowHits(ink, layout.step, y, 0)
    ensures |points| == |hits|
    ensures forall k :: 0 <= k < |points| ==> points[k] == ToWorld(hits[k], layout)
  {
    var step := layout.step;
    points, hits := points0, hits0;
    var x: nat := 0;
    while x < Width
      invariant hits + RowHits(ink, step, y, x) == hits0 + RowHits(ink, step, y, 0)
      invariant |points| == |hits|
      invariant forall k :: 0 <= k < |points| ==> points[k] == ToWorld(hits[k], layout)
      decreases Width - x
    {
      var index := (y * 1024 + x) * 4;
      InkPixelsMeans(data, Pixel(x, y));
      if data[index] > InkThreshold {
        hits := hits + [Pixel(x, y)];
        points := points + [ToWorld(Pixel(x, y), layout)];
      }
      x := x + step;
    }
  }

  lemma NextRow(ink: set<Pixel>, step: nat, y: nat, before: seq<Pixel>, after: seq<Pixel>, whole: seq<Pixel>)
    requires step > 0 && y < Height
    requires before + GridHits(ink, step, y) == whole
    requires after == before + RowHits(ink, step, y, 0)
    ensures after + GridHits(ink, step, y + step) == whole
  {
    ConcatAssoc(before, RowHits(ink, step, y, 0), GridHits(ink, step, y + step));
  }

  // ---- What the scan emits ----

  /** A value one step above a grid value is on the grid. */
  lemma OnGridShift(v: nat, step: nat, base: nat)
    requires step > 0 && base + step <= v && OnGrid(v - (base + step), step)
    ensures OnGrid(v - base, step)
  {
    assert v - base >= step && v - base - step == v - (base + step);
  }

  lemma {:induction false} RowHitsSound(ink: set<Pixel>, step: nat, y: nat, x: nat)
    requires step > 0
    ensures forall p :: p in RowHits(ink, step, y, x) ==>
      p in ink && p.y == y && x <= p.x < Width && OnGrid(p.x - x, step)
    decreases Width - x
  {
    if x < Width {
      var head := if Pixel(x, y) in ink then [Pixel(x, y)] else [];
      var tail := RowHits(ink, step, y, x + step);
      RowHitsSound(ink, step, y, x + step);
      assert RowHits(ink, step, y, x) == head + tail;
      forall p | p in head + tail
        ensures p in ink && p.y == y && x <= p.x < Width && OnGrid(p.x - x, step)
      {
        if p in tail {
          OnGridShift(p.x, step, x);
        } else {
          assert p == Pixel(x, y);
        }
      }
    }
  }

  lemma {:induction false} GridHitsSound(ink: set<Pixel>, step: nat, y: nat)
    requires step > 0
    ensures forall p :: p in GridHits(ink, step, y) ==>
      p in ink && OnCanvas(p) && y <= p.y && OnGrid(p.y - y, step) && OnGrid(p.x, step)
    decreases Height - y
  {
    if y < Height {
      var row, rest := RowHits(ink, step, y, 0), GridHits(ink, step, y + step);
      RowHitsSound(ink, step, y, 0);
      GridHitsSound(ink, step, y + step);
      assert GridHits(ink, step, y) == row + rest;
      forall p | p in row + rest
        ensures p in ink && OnCanvas(p) && y <= p.y && OnGrid(p.y - y, step) && OnGrid(p.x, step)
      {
        if p in row {
          assert p.x - 0 == p.x && p.y - y == 0;
        } else {
          OnGridShift(p.y, step, y);
        }
      }
    }
  }

  /** Every point comes from an inked pixel the scan visits. */
  lemma HitsSound(ink: set<Pixel>, step: nat)
    requires step > 0
    ensures forall p :: p in Hits(ink, step) ==> p in ink && Sampled(p, step)
  {
    GridHitsSound(ink, step, 0);
    forall p | p in Hits(ink, step) ensures OnGrid(p.y, step) {
      assert p.y - 0 == p.y;
    }
  }

  lemma {:induction false} RowHitsComplete(ink: set<Pixel>, step: nat, y: nat, x: nat, p: Pixel)
    requires step > 0
    requires p in ink && p.y == y && x <= p.x < Width && OnGrid(p.x - x, step)
    ensures p in RowHits(ink, step, y, x)
    decreases p.x - x
  {
    if p.x != x {
      assert p.x - x - step == p.x - (x + step);
      RowHitsComplete(ink, step, y, x + step, p);
    }
  }

  lemma {:induction false} GridHitsComplete(ink: set<Pixel>, step: nat, y: nat, p: Pixel)
    requires step > 0
    requires p in ink && OnCanvas(p) && y <= p.y && OnGrid(p.y - y, step) && OnGrid(p.x, step)
    ensures p in GridHits(ink, step, y)
    decreases p.y - y
  {
    if p.y == y {
      RowHitsComplete(ink, step, y, 0, p);
    } else {
      assert p.y - y - step == p.y - (y + step);
      GridHitsComplete(ink, step, y + step, p);
    }
  }

  /** Every inked pixel the scan visits yields a point. */
  lemma HitsComplete(ink: set<Pixel>, step: nat)
    requires step > 0
    ensures forall p :: p in ink && Sampled(p, step) ==> p in Hits(ink, step)
  {
    forall p | p in ink && Sampled(p, step) ensures p in Hits(ink, step) {
      GridHitsComplete(ink, step, 0, p);
    }
  }

  // ---- Scan order ----

  /** Every pixel comes strictly before all later ones in scan order. */
  predicate RowMajor(ps: seq<Pixel>) {
    forall i, j :: 0 <= i < j < |ps| ==> Key(ps[i]) < Key(ps[j])
  }

  /** Each pixel comes strictly before the next one in scan order. */
  predicate Ascending(ps: seq<Pixel>)
    decreases |ps|
  {
    |ps| < 2 || (Key(ps[0]) < Key(ps[1]) && Ascending(ps[1..]))
  }

  /** The last key of a comes before the first key of b. */
  predicate Meets(a: seq<Pixel>, b: seq<Pixel>)
  {
    |a| == 0 || |b| == 0 || Key(a[|a| - 1]) < Key(b[0])
  }

  /** Neighbours in order give every pair in order. */
  lemma {:induction false} AscendingIsRowMajor(ps: seq<Pixel>)
    requires Ascending(ps)
    ensures RowMajor(ps)
    decreases |ps|
  {
    if |ps| >= 2 {
      var rest := ps[1..];
      AscendingIsRowMajor(rest);
      forall i, j | 0 <= i < j < |ps| ensures Key(ps[i]) < Key(ps[j]) {
        if i == 0 {
          if j > 1 {
            assert rest[0] == ps[1] && rest[j - 1] == ps[j];
          }
        } else {
          assert rest[i - 1] == ps[i] && rest[j - 1] == ps[j];
        }
      }
    }
  }

  /** Two ascending runs, the first ending before the second starts, join to one. */
  lemma {:induction false} AscendingConcat(a: seq<Pixel>, b: seq<Pixel>)
    requires Ascending(a) && Ascending(b) && Meets(a, b)
    ensures Ascending(a + b)
    decreases |a|
  {
    if |a| == 1 {
      assert (a + b)[1..] == b;
    } else if |a| > 1 {
      assert (a + b)[1..] == a[1..] + b;
      assert a[1..][|a| - 2] == a[|a| - 1];
      AscendingConcat(a[1..], b);
    } else {
      assert a + b == b;
    }
  }

  /** AscendingConcat, stated as an implication for callers whose facts are
      already at hand. */
  lemma AscendingJoin(a: seq<Pixel>, b: seq<Pixel>)
    ensures Ascending(a) && Ascending(b) && Meets(a, b) ==> Ascending(a + b)
  {
    if Ascending(a) && Ascending(b) && Meets(a, b) {
      AscendingConcat(a, b);
    }
  }

  lemma {:induction false} RowHitsOrdered(ink: set<Pixel>, step: nat, y: nat, x: nat)
    requires step > 0
    ensures Ascending(RowHits(ink, step, y, x))
    decreases Width - x
  {
    if x < Width {
      var head := if Pixel(x, y) in ink then [Pixel(x, y)] else [];
      var tail := RowHits(ink, step, y, x + step);
      RowHitsOrdered(ink, step, y, x + step);
      RowHitsSound(ink, step, y, x + step);
      if |tail| > 0 {
        assert tail[0] in tail;
      }
      assert RowHits(ink, step, y, x) == head + tail;
      AscendingConcat(head, tail);
    }
  }

  /** Rows from y on hold pixels of rows y and further down only. */
  lemma {:induction false} GridHitsRows(ink: set<Pixel>, step: nat, y: nat)
    requires step > 0
    ensures forall p :: p in GridHits(ink, step, y) ==> y <= p.y < Height && p.x < Width
    decreases Height - y
  {
    if y < Height {
      RowHitsSound(ink, step, y, 0);
      GridHitsRows(ink, step, y + step);
    }
  }

  /** Row y ends before row y + 1 begins. */
  lemma RowEndsBelow(ink: set<Pixel>, step: nat, y: nat)
    requires step > 0
    ensures var row := RowHits(ink, step, y, 0); |row| > 0 ==> Key(row[|row| - 1]) < y * 1024 + 1024
  {
    var row := RowHits(ink, step, y, 0);
    RowHitsSound(ink, step, y, 0);
    if |row| > 0 {
      assert row[|row| - 1] in row;
    }
  }

  /** The rows from y on start at or after row y. */
  lemma GridStartsFrom(ink: set<Pixel>, step: nat, y: nat)
    requires step > 0
    ensures var rest := GridHits(ink, step, y); |rest| > 0 ==> y * 1024 <= Key(rest[0])
  {
    var rest := GridHits(ink, step, y);
    GridHitsRows(ink, step, y);
    if |rest| > 0 {
      assert rest[0] in rest;
    }
  }

  lemma {:induction false} GridHitsOrdered(ink: set<Pixel>, step: nat, y: nat)
    requires step > 0
    ensures Ascending(GridHits(ink, step, y))
    decreases Height - y
  {
    if y < Height {
      var row, rest := RowHits(ink, step, y, 0), GridHits(ink, step, y + step);
      RowHitsOrdered(ink, step, y, 0);
      GridHitsOrdered(ink, step, y + step);
      RowEndsBelow(ink, step, y);
      GridStartsFrom(ink, step, y + step);
      assert y * 1024 + 1024 <= (y + step) * 1024;
      AscendingJoin(row, rest);
      assert GridHits(ink, step, y) == row + rest;
    }
  }

  /** Points come out in row-major order (y outer, x inner), each pixel at most once. */
  lemma HitsOrdered(ink: set<Pixel>, step: nat)
    requires step > 0
    ensures RowMajor(Hits(ink, step))
  {
    GridHitsOrdered(ink, step, 0);
    AscendingIsRowMajor(Hits(ink, step));
  }

  // ---- How many points ----

  /** Columns the scan visits from x on. */
  function ColumnSlots(x: nat, step: nat): nat
    requires step > 0
    decreases Width - x
  {
    if x >= Width then 0 else 1 + ColumnSlots(x + step, step)
  }

  /** Rows the scan visits from y on. */
  function RowSlots(y: nat, step: nat): nat
    requires step > 0
    decreases Height - y
  {
    if y >= Height then 0 else 1 + RowSlots(y + step, step)
  }

  lemma {:induction false} RowHitsBound(ink: set<Pixel>, step: nat, y: nat, x: nat)
    requires step > 0
    ensures |RowHits(ink, step, y, x)| <= ColumnSlots(x, step)
    decreases Width - x
  {
    if x < Width {
      RowHitsBound(ink, step, y, x + step);
    }
  }

  /** Pixels the scan visits from row y on. */
  function ScanSlots(y: nat, step: nat): nat
    requires step > 0
    decreases Height - y
  {
    if y >= Height then 0 else ColumnSlots(0, step) + ScanSlots(y + step, step)
  }

  lemma {:induction false} GridHitsBound(ink: set<Pixel>, step: nat, y: nat)
    requires step > 0
    ensures |GridHits(ink, step, y)| <= ScanSlots(y, step)
    decreases Height - y
  {
    if y < Height {
      RowHitsBound(ink, step, y, 0);
      GridHitsBound(ink, step, y + step);
    }
  }

  lemma {:induction false} ScanSlotsClosed(y: nat, step: nat, cols: nat)
    requires step > 0 && ColumnSlots(0, step) == cols
    ensures ScanSlots(y, step) == RowSlots(y, step) * cols
    decreases Height - y
  {
    if y < Height {
      ScanSlotsClosed(y + step, step, cols);
      var rows := RowSlots(y + step, step);
      assert (1 + rows) * cols == cols + rows * cols;
    }
  }

  lemma {:induction false} ColumnSlotsClosed(x: nat, step: nat)
    requires step == 3 || step == 4
    requires x < Width + step
    ensures ColumnSlots(x, step) == (Width + step - 1 - x) / step
    decreases Width - x
  {
    if x < Width {
      ColumnSlotsClosed(x + step, step);
    }
  }

  lemma {:induction false} RowSlotsClosed(y: nat, step: nat)
    requires step == 3 || step == 4
    requires y < Height + step
    ensures RowSlots(y, step) == (Height + step - 1 - y) / step
    decreases Height - y
  {
    if y < Height {
      RowSlotsClosed(y + step, step);
    }
  }

  /** A scan emits at most one point per visited pixel. */
  lemma StrideHitsBound(ink: set<Pixel>, step: nat, rows: nat, cols: nat)
    requires step > 0 && RowSlots(0, step) == rows && ColumnSlots(0, step) == cols
    ensures |Hits(ink, step)| <= rows * cols
  {
    GridHitsBound(ink, step, 0);
    ScanSlotsClosed(0, step, cols);
  }

  /** The sky-name scan visits 128 rows of 256 pixels, so it emits at most 128 * 256 points. */
  lemma FormationHitsBound(ink: set<Pixel>)
    ensures |Hits(ink, FormationLayout.step)| <= 128 * 256
  {
    var step := FormationLayout.step;
    ColumnSlotsClosed(0, step);
    RowSlotsClosed(0, step);
    StrideHitsBound(ink, step, 128, 256);
  }

  /** The side-name scan visits 171 rows of 342 pixels. */
  lemma SideHitsBound(ink: set<Pixel>)
    ensures |Hits(ink, SideLayout.step)| <= 171 * 342
  {
    var step := SideLayout.step;
    ColumnSlotsClosed(0, step);
    RowSlotsClosed(0, step);
    StrideHitsBound(ink, step, 171, 342);
  }

  /** For the two strides in use, OnGrid is divisibility. */
  lemma {:induction false} OnGridIsDivisibility(v: nat, step: nat)
    requires step == 3 || step == 4
    ensures OnGrid(v, step) <==> v % step == 0
    decreases v
  {
    if v >= step {
      OnGridIsDivisibility(v - step, step);
    }
  }

  lemma {:induction false} RowHitsBlank(step: nat, y: nat, x: nat)
    requires step > 0
    ensures RowHits({}, step, y, x) == []
    decreases Width - x
  {
    if x < Width {
      RowHitsBlank(step, y, x + step);
    }
  }

  lemma {:induction false} GridHitsBlank(step: nat, y: nat)
    requires step > 0
    ensures GridHits({}, step, y) == []
    decreases Height - y
  {
    if y < Height {
      RowHitsBlank(step, y, 0);
      GridHitsBlank(step, y + step);
    }
  }

  /** A canvas on which no pixel's red byte is above 128 (an empty or blank
      text) yields no points. */
  lemma BlankRasterHasNoPoints(data: seq<Byte>, step: nat)
    requires IsRaster(data) && step > 0
    requires forall p :: OnCanvas(p) ==> data[RedIndex(p)] <= InkThreshold
    ensures Hits(InkPixels(data), step) == []
  {
    forall p | p in InkPixels(data) ensures false {
      InkPixelsMeans(data, p);
    }
    assert InkPixels(data) == {};
    GridHitsBlank(step, 0);
  }

  /** The canvas as painted black, whatever its alpha bytes hold, yields no
      points: only the red bytes are read. */
  lemma BlackCanvasHasNoPoints(data: seq<Byte>, step: nat)
    requires IsRaster(data) && step > 0
    requires forall k :: 0 <= k < |data| && k % 4 != 3 ==> data[k] == 0
    ensures Hits(InkPixels(data), step) == []
  {
    forall p | OnCanvas(p) ensures data[RedIndex(p)] <= InkThreshold {
      var i := RedIndex(p);
      assert i % 4 == 0;
    }
    BlankRasterHasNoPoints(data, step);
  }
}
