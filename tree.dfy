/** The particle tree: a pine of 32000 foliage points in eight drooping
    layers, two sets of ornaments on the branch tips, and a beating heart of
    1200 points on top, placed by rejection sampling. */
module Tree {
  import opened Common

  // ---- Shared branch geometry ----

  // The tree is 12 high, 7.5 in radius at its foot, in 8 layers; the
  // functions below use these numbers as literals.
  const MaxBaseRadius: real := 7.5

  /** x truncated toward zero, as JavaScript's % by 1 uses it. */
  function Trunc(x: real): int
  {
    if x >= 0.0 then x.Floor else -((-x).Floor)
  }

  /** x % 1 in JavaScript: the part of x after its integer part, with x's sign. */
  function FracPart(x: real): real { x - Trunc(x) as real }

  /** For x >= 0, x % 1 lies in [0, 1). */
  lemma FracPartBounds(x: real)
    requires x >= 0.0
    ensures 0.0 <= FracPart(x) < 1.0
  {
  }

  /** (relY * layers) % 1: how far into its layer a height lies. */
  function LayerPhase(relY: real): real { FracPart(relY * 8.0) }

  /** (1 - relY) * maxBaseRadius: the cone's radius at a relative height. */
  function ConeRadius(relY: real): real { (1.0 - relY) * 7.5 }

  /** 0.6 + 0.4 * pow(1 - layerPhase, 1.5): branches bulge at the foot of each layer. */
  function BranchExtension(phase: real, pow: (real, real) -> real): real
  {
    0.6 + 0.4 * pow(1.0 - phase, 1.5)
  }

  /** (radius / maxBaseRadius) * 1.5: outer points hang lower. */
  function Droop(radius: real): real { radius / 7.5 * 1.5 }

  /** A point at height y on a branch at distance radius and angle theta:
      (cos theta * radius, y - 2.5 - droop, sin theta * radius). */
  function BranchPoint(y: real, radius: real, theta: real, cos: real -> real, sin: real -> real): Vec3
  {
    Vec3(cos(theta) * radius, y - 2.5 - Droop(radius), sin(theta) * radius)
  }

  /** A relative height in [0, 1) lies in [0, 1) of its layer. */
  lemma LayerPhaseBounds(relY: real)
    requires 0.0 <= relY
    ensures 0.0 <= LayerPhase(relY) < 1.0
  {
    FracPartBounds(relY * 8.0);
  }

  /** Inside a layer the extension factor lies in (0.6, 1]. */
  lemma BranchExtensionBounds(phase: real, pow: (real, real) -> real)
    requires IsPow(pow) && 0.0 <= phase < 1.0
    ensures 0.6 < BranchExtension(phase, pow) <= 1.0
  {
    assert 0.0 < pow(1.0 - phase, 1.5) <= 1.0;
  }

  /** Multiplying by a non-negative factor keeps an ordering. */
  lemma Widens(a: real, b: real, f: real)
    requires a <= b && 0.0 <= f
    ensures a * f <= b * f
  {
    assert b * f - a * f == (b - a) * f;
  }

  /** Droop lies in [0, 1.5] for a radius in [0, 7.5]. */
  lemma DroopBounds(radius: real)
    requires 0.0 <= radius <= MaxBaseRadius
    ensures 0.0 <= Droop(radius) <= 1.5
  {
  }

  /** A branch point is within radius of the trunk in x and z, and lies
      2.5 + droop below its height. */
  lemma BranchPointBounds(y: real, radius: real, theta: real, cos: real -> real, sin: real -> real)
    requires IsTrig(cos) && IsTrig(sin) && 0.0 <= radius
    ensures -radius <= BranchPoint(y, radius, theta, cos, sin).x <= radius
    ensures -radius <= BranchPoint(y, radius, theta, cos, sin).z <= radius
    ensures BranchPoint(y, radius, theta, cos, sin).y == y - 2.5 - Droop(radius)
  {
    var c, s := cos(theta), sin(theta);
    assert -1.0 <= c <= 1.0 && -1.0 <= s <= 1.0;
    ScaleBound(radius, c);
    ScaleBound(radius, s);
    assert BranchPoint(y, radius, theta, cos, sin).x == radius * c;
    assert BranchPoint(y, radius, theta, cos, sin).z == radius * s;
  }

  // ---- Foliage ----

  const FoliageCount: nat := 32000

  /** Draws per foliage point: height, radial depth, angle, colour bucket,
      saturation and lightness jitter. */
  const FoliageDrawsPerPoint: nat := 6
  const FoliageDraws: nat := 192000

  function FoliageY(ry: real): real { ry * 12.0 }

  /** coneRadius * branchExtension * pow(r, 0.35): points fill the branch volume. */
  function FoliageRadius(y: real, rr: real, pow: (real, real) -> real): real
  {
    var relY := y / 12.0;
    ConeRadius(relY) * BranchExtension(LayerPhase(relY), pow) * pow(rr, 0.35)
  }

  function FoliagePoint(ry: real, rr: real, rt: real, cos: real -> real, sin: real -> real, pow: (real, real) -> real): Vec3
  {
    var y := FoliageY(ry);
    BranchPoint(y, FoliageRadius(y, rr, pow), rt * Pi * 2.0, cos, sin)
  }

  /** A foliage height lies in [0, 12) and its layer phase in [0, 1); the
      extension lies in (0.6, 1], and the radius between 0 and
      coneRadius * branchExtension, which is at most 7.5. */
  lemma FoliageRadiusBounds(ry: real, rr: real, pow: (real, real) -> real)
    requires Unit(ry) && Unit(rr) && IsPow(pow)
    ensures 0.0 <= FoliageY(ry) < 12.0
    ensures 0.0 <= LayerPhase(FoliageY(ry) / 12.0) < 1.0
    ensures 0.6 < BranchExtension(LayerPhase(FoliageY(ry) / 12.0), pow) <= 1.0
    ensures 0.0 <= FoliageRadius(FoliageY(ry), rr, pow)
    ensures FoliageRadius(FoliageY(ry), rr, pow) <= ConeRadius(FoliageY(ry) / 12.0) * BranchExtension(LayerPhase(FoliageY(ry) / 12.0), pow)
    ensures ConeRadius(FoliageY(ry) / 12.0) * BranchExtension(LayerPhase(FoliageY(ry) / 12.0), pow) <= MaxBaseRadius
  {
    var y := FoliageY(ry);
    var relY := y / 12.0;
    assert 0.0 <= relY < 1.0;
    LayerPhaseBounds(relY);
    var ext := BranchExtension(LayerPhase(relY), pow);
    BranchExtensionBounds(LayerPhase(relY), pow);
    var cone := ConeRadius(relY);
    var depth := pow(rr, 0.35);
    assert 0.0 <= depth <= 1.0;
    RadiusChain(cone, ext, depth);
    var r := FoliageRadius(y, rr, pow);
    assert r == cone * ext * depth;
    assert 0.0 <= r <= cone * ext;
  }

  /** Two factors in [0, 1] applied to a cone radius <= 7.5 keep it in [0, 7.5]. */
  lemma RadiusChain(cone: real, ext: real, depth: real)
    requires 0.0 <= cone <= 7.5 && 0.0 <= ext <= 1.0 && 0.0 <= depth <= 1.0
    ensures 0.0 <= cone * ext * depth <= cone * ext <= 7.5
  {
    Shrinks(cone, ext);
    Shrinks(cone * ext, depth);
  }

  /** A foliage point lies within its radius of the trunk in x and z and
      2.5 + droop below its height, with droop in [0, 1.5]. */
  lemma FoliagePointBounds(ry: real, rr: real, rt: real, cos: real -> real, sin: real -> real, pow: (real, real) -> real)
    requires Unit(ry) && Unit(rr) && IsTrig(cos) && IsTrig(sin) && IsPow(pow)
    ensures var r := FoliageRadius(FoliageY(ry), rr, pow);
      0.0 <= Droop(r) <= 1.5 &&
      FoliagePoint(ry, rr, rt, cos, sin, pow).y == FoliageY(ry) - 2.5 - Droop(r) &&
      -r <= FoliagePoint(ry, rr, rt, cos, sin, pow).x <= r &&
      -r <= FoliagePoint(ry, rr, rt, cos, sin, pow).z <= r
  {
    var r := FoliageRadius(FoliageY(ry), rr, pow);
    FoliageRadiusBounds(ry, rr, pow);
    DroopBounds(r);
    BranchPointBounds(FoliageY(ry), r, rt * Pi * 2.0, cos, sin);
  }

  /** The three colour groups of the foliage. */
  datatype Bucket = Primary | Secondary | Highlight

  /** rand > 0.4: primary; otherwise rand > 0.15: secondary; otherwise highlight. */
  function BucketOf(rand: real): Bucket
  {
    if rand > 0.4 then Primary else if rand > 0.15 then Secondary else Highlight
  }

  /** The buckets split [0, 1) at 0.15 and 0.4. */
  lemma BucketBands(rand: real)
    ensures BucketOf(rand) == Primary <==> rand > 0.4
    ensures BucketOf(rand) == Secondary <==> 0.15 < rand <= 0.4
    ensures BucketOf(rand) == Highlight <==> rand <= 0.15
  {
  }

  function BucketHex(b: Bucket): string
  {
    match b
    case Primary => TreePrimary
    case Secondary => TreeSecondary
    case Highlight => TreeHighlight
  }

  /** A foliage colour: the bucket's colour, and for the primary bucket only
      shifted in HSL by (0, (rs - 0.5) * 0.05, (rl - 0.5) * 0.2).
      decode stands for THREE.Color's hex parsing, offset for offsetHSL. */
  function FoliageColor(rb: real, rs: real, rl: real, decode: string -> Color,
                        offset: (Color, real, real, real) -> Color): Color
  {
    var b := BucketOf(rb);
    var c := decode(BucketHex(b));
    if b == Primary then offset(c, 0.0, (rs - 0.5) * 0.05, (rl - 0.5) * 0.2) else c
  }

  /** Only primary points are jittered: the others get their bucket's colour
      exactly, whatever the jitter draws. */
  lemma OnlyPrimaryJittered(rb: real, rs: real, rl: real, rs': real, rl': real,
                            decode: string -> Color, offset: (Color, real, real, real) -> Color)
    requires BucketOf(rb) != Primary
    ensures FoliageColor(rb, rs, rl, decode, offset) == decode(BucketHex(BucketOf(rb)))
    ensures FoliageColor(rb, rs, rl, decode, offset) == FoliageColor(rb, rs', rl', decode, offset)
  {
  }

  /** The jitter of a primary point: saturation by at most 0.025, lightness by at most 0.1. */
  lemma JitterBounds(rs: real, rl: real)
    requires Unit(rs) && Unit(rl)
    ensures -0.025 <= (rs - 0.5) * 0.05 < 0.025
    ensures -0.1 <= (rl - 0.5) * 0.2 < 0.1
  {
  }

  /** The colour step of the generating loop: pick the bucket from rand and
      jitter a copy of the primary colour only. */
  method BucketColor(rand: real, rs: real, rl: real, decode: string -> Color,
                     offset: (Color, real, real, real) -> Color) returns (c: Color)
    ensures c == FoliageColor(rand, rs, rl, decode, offset)
  {
    if rand > 0.4 {
      c := decode(TreePrimary);
      c := offset(c, 0.0, (rs - 0.5) * 0.05, (rl - 0.5) * 0.2);
    } else if rand > 0.15 {
      c := decode(TreeSecondary);
    } else {
      c := decode(TreeHighlight);
    }
  }

  /** Draw j of foliage point i. */
  function FDraw(draws: seq<real>, i: nat, j: nat): real
    requires j < FoliageDrawsPerPoint && i < FoliageCount && |draws| == FoliageDraws
  {
    draws[6 * i + j]
  }

  /** The material settings of the foliage. */
  datatype Material = Material(size: real, opacity: real)

  /** Activated: size 0.14, opacity 0.95; otherwise 0.12 and 0.8. */
  function Preset(isActivated: bool): (m: Material)
    ensures m == Material(0.14, 0.95) || m == Material(0.12, 0.8)
    ensures isActivated <==> m.size > 0.12
  {
    if isActivated then Material(0.14, 0.95) else Material(0.12, 0.8)
  }

  /** Switching the tree on makes its points larger and more opaque; there
      is no value in between. */
  lemma PresetBrighter()
    ensures Preset(true).size > Preset(false).size && Preset(true).opacity > Preset(false).opacity
  {
  }

  class Tree {
    const isActivated: bool
    const positions: array<real>
    const colors: array<real>
    /** The rotation of the points about the vertical axis. */
    var rotationY: real
    var material: Material

    ghost predicate Valid()
      reads this
    {
      positions.Length == 3 * FoliageCount && colors.Length == 3 * FoliageCount && positions != colors
    }

    /** Builds the foliage from six draws per point; the material starts at
        size 0.12 and three.js's default opacity 1. */
    constructor (isActivated: bool, draws: seq<real>, cos: real -> real, sin: real -> real,
                 pow: (real, real) -> real, decode: string -> Color, offset: (Color, real, real, real) -> Color)
      requires |draws| == FoliageDraws && Units(draws)
      ensures Valid() && this.isActivated == isActivated
      ensures rotationY == 0.0 && material == Material(0.12, 1.0)
      ensures forall i :: 0 <= i < FoliageCount ==>
        PointAt(positions[..], i) == FoliagePoint(FDraw(draws, i, 0), FDraw(draws, i, 1), FDraw(draws, i, 2), cos, sin, pow)
      ensures forall i :: 0 <= i < FoliageCount ==>
        PointAt(colors[..], i) == Rgb(FoliageColor(FDraw(draws, i, 3), FDraw(draws, i, 4), FDraw(draws, i, 5), decode, offset))
    {
      this.isActivated := isActivated;
      positions := new real[3 * FoliageCount](_ => 0.0);
      colors := new real[3 * FoliageCount](_ => 0.0);
      rotationY := 0.0;
      material := Material(0.12, 1.0);
      new;
      Grow(draws, cos, sin, pow, decode, offset);
    }

    /** The generating loop: point i from draws 6i .. 6i + 5. */
    method Grow(draws: seq<real>, cos: real -> real, sin: real -> real,
                pow: (real, real) -> real, decode: string -> Color, offset: (Color, real, real, real) -> Color)
      requires Valid() && |draws| == FoliageDraws
      modifies positions, colors
      ensures forall i :: 0 <= i < FoliageCount ==>
        PointAt(positions[..], i) == FoliagePoint(FDraw(draws, i, 0), FDraw(draws, i, 1), FDraw(draws, i, 2), cos, sin, pow)
      ensures forall i :: 0 <= i < FoliageCount ==>
        PointAt(colors[..], i) == Rgb(FoliageColor(FDraw(draws, i, 3), FDraw(draws, i, 4), FDraw(draws, i, 5), decode, offset))
    {
      var i := 0;
      while i < FoliageCount
        invariant 0 <= i <= FoliageCount
        invariant forall j :: 0 <= j < i ==>
          PointAt(positions[..], j) == FoliagePoint(FDraw(draws, j, 0), FDraw(draws, j, 1), FDraw(draws, j, 2), cos, sin, pow)
        invariant forall j :: 0 <= j < i ==>
          PointAt(colors[..], j) == Rgb(FoliageColor(FDraw(draws, j, 3), FDraw(draws, j, 4), FDraw(draws, j, 5), decode, offset))
      {
        var p := FoliagePoint(draws[6 * i], draws[6 * i + 1], draws[6 * i + 2], cos, sin, pow);
        ghost var prevPos := positions[..];
        WriteTriple(positions, i, p);
        forall j | 0 <= j < i ensures
          PointAt(positions[..], j) == FoliagePoint(FDraw(draws, j, 0), FDraw(draws, j, 1), FDraw(draws, j, 2), cos, sin, pow)
        {
          assert PointAt(positions[..], j) == PointAt(prevPos, j);
        }
        var c := BucketColor(draws[6 * i + 3], draws[6 * i + 4], draws[6 * i + 5], decode, offset);
        ghost var prevCol, laid := colors[..], positions[..];
        WriteTriple(colors, i, Rgb(c));
        assert positions[..] == laid;
        forall j | 0 <= j < i ensures
          PointAt(colors[..], j) == Rgb(FoliageColor(FDraw(draws, j, 3), FDraw(draws, j, 4), FDraw(draws, j, 5), decode, offset))
        {
          assert PointAt(colors[..], j) == PointAt(prevCol, j);
        }
        i := i + 1;
      }
    }

    /** One frame: the tree turns at -0.1 radians per time unit, and the
        material takes the preset of the activation state. */
    method Frame(time: real)
      modifies this
      ensures rotationY == -time * 0.1
      ensures material == Preset(isActivated)
    {
      rotationY := -time * 0.1;
      if isActivated {
        material := Material(0.14, 0.95);
      } else {
        material := Material(0.12, 0.8);
      }
    }
  }

  // ---- Ornaments ----

  const LargeCount: nat := 140
  const SmallCount: nat := 250

  /** Draws per ornament: height, radial factor, angle, palette slot. */
  const OrnamentDrawsPerPoint: nat := 4

  /** Math.random() * (treeHeight - 1) + 0.5: away from the very bottom and top. */
  function OrnamentY(ry: real): real { ry * 11.0 + 0.5 }

  /** 0.9 + r * 0.15: ornaments sit just outside the foliage. */
  function OutsideFactor(rf: real): real { 0.9 + rf * 0.15 }

  function OrnamentRadius(y: real, rf: real, pow: (real, real) -> real): real
  {
    var relY := y / 12.0;
    ConeRadius(relY) * BranchExtension(LayerPhase(relY), pow) * OutsideFactor(rf)
  }

  function OrnamentPoint(ry: real, rf: real, rt: real, cos: real -> real, sin: real -> real, pow: (real, real) -> real): Vec3
  {
    var y := OrnamentY(ry);
    BranchPoint(y, OrnamentRadius(y, rf, pow), rt * Pi * 2.0, cos, sin)
  }

  function OrnamentColor(rc: real, decode: string -> Color): Color
    requires Unit(rc)
  {
    decode(OrnamentPalette[PaletteSlot(rc, |OrnamentPalette|)])
  }

  /** Ornament heights lie in [0.5, 11.5); the radius is
      coneRadius * branchExtension * f with f in [0.9, 1.05), so it is
      positive and at most 7.5 * 1.05. */
  lemma OrnamentBounds(ry: real, rf: real, pow: (real, real) -> real)
    requires Unit(ry) && Unit(rf) && IsPow(pow)
    ensures 0.5 <= OrnamentY(ry) < 11.5
    ensures 0.9 <= OutsideFactor(rf) < 1.05
    ensures var relY := OrnamentY(ry) / 12.0;
      OrnamentRadius(OrnamentY(ry), rf, pow) == ConeRadius(relY) * BranchExtension(LayerPhase(relY), pow) * OutsideFactor(rf)
    ensures 0.0 < OrnamentRadius(OrnamentY(ry), rf, pow) < 7.875
  {
    var y := OrnamentY(ry);
    var relY := y / 12.0;
    assert 0.0 < relY < 1.0;
    LayerPhaseBounds(relY);
    var ext := BranchExtension(LayerPhase(relY), pow);
    BranchExtensionBounds(LayerPhase(relY), pow);
    var cone := ConeRadius(relY);
    assert 0.0 < cone <= MaxBaseRadius;
    Shrinks(cone, ext);
    var f := OutsideFactor(rf);
    var ce := cone * ext;
    assert 0.0 < ce <= MaxBaseRadius by {
      Positive(cone, ext, cone * ext);
    }
    Positive(ce, f, ce * f);
    Widens(ce, 7.5, f);
    assert ce * f < 7.875 by {
      assert ce * f <= 7.5 * f;
      assert 7.5 * f < 7.875;
    }
    assert OrnamentRadius(y, rf, pow) == ce * f;
  }

  /** An ornament's colour is one of the seven ornament colours. */
  lemma OrnamentColorInPalette(rc: real, decode: string -> Color)
    requires Unit(rc)
    ensures exists k :: 0 <= k < |OrnamentPalette| && OrnamentColor(rc, decode) == decode(OrnamentPalette[k])
  {
    var k := PaletteSlot(rc, |OrnamentPalette|);
    assert OrnamentColor(rc, decode) == decode(OrnamentPalette[k]);
  }

  /** Draw j of ornament i. */
  function ODraw(draws: seq<real>, i: nat, j: nat): real
    requires j < OrnamentDrawsPerPoint && 4 * i + j < |draws|
  {
    draws[4 * i + j]
  }

  /** generateOrnamentData: fresh position and colour buffers for count
      ornaments, ornament i from draws 4i .. 4i + 3. */
  method GenerateOrnamentData(count: nat, draws: seq<real>, cos: real -> real, sin: real -> real,
                              pow: (real, real) -> real, decode: string -> Color)
      returns (pos: array<real>, col: array<real>)
    requires |draws| == 4 * count && Units(draws)
    ensures fresh(pos) && fresh(col) && pos != col
    ensures pos.Length == 3 * count && col.Length == 3 * count
    ensures forall i :: 0 <= i < count ==>
      PointAt(pos[..], i) == OrnamentPoint(ODraw(draws, i, 0), ODraw(draws, i, 1), ODraw(draws, i, 2), cos, sin, pow)
    ensures forall i :: 0 <= i < count ==>
      Unit(ODraw(draws, i, 3)) && PointAt(col[..], i) == Rgb(OrnamentColor(ODraw(draws, i, 3), decode))
  {
    pos := new real[count * 3](_ => 0.0);
    col := new real[count * 3](_ => 0.0);
    var i := 0;
    while i < count
      invariant 0 <= i <= count
      invariant forall j :: 0 <= j < i ==>
        PointAt(pos[..], j) == OrnamentPoint(ODraw(draws, j, 0), ODraw(draws, j, 1), ODraw(draws, j, 2), cos, sin, pow)
      invariant forall j :: 0 <= j < i ==>
        Unit(ODraw(draws, j, 3)) && PointAt(col[..], j) == Rgb(OrnamentColor(ODraw(draws, j, 3), decode))
    {
      var p := OrnamentPoint(draws[4 * i], draws[4 * i + 1], draws[4 * i + 2], cos, sin, pow);
      ghost var prevPos := pos[..];
      WriteTriple(pos, i, p);
      forall j | 0 <= j < i ensures
        PointAt(pos[..], j) == OrnamentPoint(ODraw(draws, j, 0), ODraw(draws, j, 1), ODraw(draws, j, 2), cos, sin, pow)
      {
        assert PointAt(pos[..], j) == PointAt(prevPos, j);
      }
      assert Unit(draws[4 * i + 3]);
      var c := decode(OrnamentPalette[PaletteSlot(draws[4 * i + 3], |OrnamentPalette|)]);
      ghost var prevCol, laid := col[..], pos[..];
      WriteTriple(col, i, Rgb(c));
      assert pos[..] == laid;
      forall j | 0 <= j < i ensures
        Unit(ODraw(draws, j, 3)) && PointAt(col[..], j) == Rgb(OrnamentColor(ODraw(draws, j, 3), decode))
      {
        assert PointAt(col[..], j) == PointAt(prevCol, j);
      }
      i := i + 1;
    }
  }

  /** The sway of one ornament set: a rotation about the vertical axis and a
      vertical offset. */
  datatype Sway = Sway(rotationY: real, positionY: real)

  /** Large ornaments: rotation sin(0.5 t) * 0.05 - 0.1 t, bob sin(t) * 0.05. */
  function LargeSway(t: real, sin: real -> real): Sway
  {
    Sway(sin(t * 0.5) * 0.05 - t * 0.1, sin(t * 1.0) * 0.05)
  }

  /** Small ornaments: rotation cos(0.5 t) * 0.05 - 0.1 t, bob cos(1.2 t) * 0.03. */
  function SmallSway(t: real, cos: real -> real): Sway
  {
    Sway(cos(t * 0.5) * 0.05 - t * 0.1, cos(t * 1.2) * 0.03)
  }

  /** Both sets turn with the tree at -0.1 radians per time unit, off by at
      most 0.05; the large set bobs by at most 0.05, the small by at most 0.03. */
  lemma SwayBounds(t: real, sin: real -> real, cos: real -> real)
    requires IsTrig(sin) && IsTrig(cos)
    ensures -0.05 <= LargeSway(t, sin).rotationY + t * 0.1 <= 0.05
    ensures -0.05 <= LargeSway(t, sin).positionY <= 0.05
    ensures -0.05 <= SmallSway(t, cos).rotationY + t * 0.1 <= 0.05
    ensures -0.03 <= SmallSway(t, cos).positionY <= 0.03
  {
    assert -1.0 <= sin(t * 0.5) <= 1.0 && -1.0 <= sin(t * 1.0) <= 1.0;
    assert -1.0 <= cos(t * 0.5) <= 1.0 && -1.0 <= cos(t * 1.2) <= 1.0;
  }

  class Ornaments {
    const largePositions: array<real>
    const largeColors: array<real>
    const smallPositions: array<real>
    const smallColors: array<real>
    var large: Sway
    var small: Sway

    /** 140 large and 250 small ornaments, each set from its own draws. */
    constructor (largeDraws: seq<real>, smallDraws: seq<real>, cos: real -> real, sin: real -> real,
                 pow: (real, real) -> real, decode: string -> Color)
      requires |largeDraws| == 4 * LargeCount && Units(largeDraws)
      requires |smallDraws| == 4 * SmallCount && Units(smallDraws)
      ensures largePositions.Length == 3 * LargeCount && smallPositions.Length == 3 * SmallCount
      ensures forall i :: 0 <= i < LargeCount ==>
        PointAt(largePositions[..], i) == OrnamentPoint(ODraw(largeDraws, i, 0), ODraw(largeDraws, i, 1), ODraw(largeDraws, i, 2), cos, sin, pow)
      ensures forall i :: 0 <= i < SmallCount ==>
        PointAt(smallPositions[..], i) == OrnamentPoint(ODraw(smallDraws, i, 0), ODraw(smallDraws, i, 1), ODraw(smallDraws, i, 2), cos, sin, pow)
      ensures largeColors.Length == 3 * LargeCount && smallColors.Length == 3 * SmallCount
      ensures forall i :: 0 <= i < LargeCount ==>
        Unit(ODraw(largeDraws, i, 3)) && PointAt(largeColors[..], i) == Rgb(OrnamentColor(ODraw(largeDraws, i, 3), decode))
      ensures forall i :: 0 <= i < SmallCount ==>
        Unit(ODraw(smallDraws, i, 3)) && PointAt(smallColors[..], i) == Rgb(OrnamentColor(ODraw(smallDraws, i, 3), decode))
      ensures large == Sway(0.0, 0.0) && small == Sway(0.0, 0.0)
    {
      var lp, lc := GenerateOrnamentData(LargeCount, largeDraws, cos, sin, pow, decode);
      var sp, sc := GenerateOrnamentData(SmallCount, smallDraws, cos, sin, pow, decode);
      largePositions, largeColors := lp, lc;
      smallPositions, smallColors := sp, sc;
      large := Sway(0.0, 0.0);
      small := Sway(0.0, 0.0);
    }

    /** One frame of sway. */
    method Frame(t: real, sin: real -> real, cos: real -> real)
      modifies this
      ensures large == LargeSway(t, sin) && small == SmallSway(t, cos)
    {
      large := Sway(sin(t * 0.5) * 0.05 - t * 0.1, sin(t * 1.0) * 0.05);
      small := Sway(cos(t * 0.5) * 0.05 - t * 0.1, cos(t * 1.2) * 0.03);
    }
  }

  // ---- Heart topper ----

  const HeartCount: nat := 1200

  /** (Math.random() - 0.5) * 3: a coordinate of the sampling cube [-1.5, 1.5)^3. */
  function HeartCoord(r: real): real { (r - 0.5) * 3.0 }

  /** The heart surface function with y stretched by 1.2: negative inside. */
  function HeartValue(x: real, y: real, z: real): real
  {
    var a := x;
    var c := y * 1.2;
    var b := z;
    var p := a * a + (9.0 / 4.0) * b * b + c * c - 1.0;
    p * p * p - a * a * c * c * c - (9.0 / 80.0) * b * b * c * c * c
  }

  predicate InHeart(x: real, y: real, z: real) { HeartValue(x, y, z) < 0.0 }

  /** The accepted point as stored: scaled by 0.6 and raised by 0.2. */
  function HeartPlaced(x: real, y: real, z: real): Vec3 { Vec3(x * 0.6, y * 0.6 + 0.2, z * 0.6) }

  /** A stored heart point: inside the scaled cube, and its unscaled
      coordinates satisfy the heart inequality. */
  predicate HeartSample(v: Vec3)
  {
    -0.9 <= v.x < 0.9 && -0.7 <= v.y < 1.1 && -0.9 <= v.z < 0.9 &&
    InHeart(v.x / 0.6, (v.y - 0.2) / 0.6, v.z / 0.6)
  }

  /** Rejection sampling as a reference: take the draws three at a time,
      keep each triple whose point is inside the heart, and stop after need
      points or when the draws run out. */
  function HeartPoints(draws: seq<real>, need: nat): seq<Vec3>
    decreases |draws|
  {
    if need == 0 || |draws| < 3 then []
    else
      var x, y, z := HeartCoord(draws[0]), HeartCoord(draws[1]), HeartCoord(draws[2]);
      if InHeart(x, y, z) then [HeartPlaced(x, y, z)] + HeartPoints(draws[3..], need - 1)
      else HeartPoints(draws[3..], need)
  }

  /** How many complete triples of the draws give a point inside the heart. */
  function HeartHits(draws: seq<real>): nat
    decreases |draws|
  {
    if |draws| < 3 then 0
    else
      var hit := if InHeart(HeartCoord(draws[0]), HeartCoord(draws[1]), HeartCoord(draws[2])) then 1 else 0;
      hit + HeartHits(draws[3..])
  }

  function Min(a: nat, b: nat): nat { if a <= b then a else b }

  /** The sampler yields min(need, hits) points: exactly need once the draws
      hold that many accepted triples. */
  lemma {:induction false} HeartPointsCount(draws: seq<real>, need: nat)
    ensures |HeartPoints(draws, need)| == Min(need, HeartHits(draws))
    decreases |draws|
  {
    if need != 0 && |draws| >= 3 {
      HeartPointsCount(draws[3..], need);
      if need > 1 {
        HeartPointsCount(draws[3..], need - 1);
      } else {
        HeartPointsCount(draws[3..], 0);
      }
    }
  }

  /** Undoing the placement of an accepted point gives back the sampled coordinates. */
  lemma HeartPlacedInside(x: real, y: real, z: real)
    requires -1.5 <= x < 1.5 && -1.5 <= y < 1.5 && -1.5 <= z < 1.5 && InHeart(x, y, z)
    ensures HeartSample(HeartPlaced(x, y, z))
  {
    var v := HeartPlaced(x, y, z);
    assert v.x / 0.6 == x && (v.y - 0.2) / 0.6 == y && v.z / 0.6 == z;
  }

  /** Every accepted point lies in x, z in [-0.9, 0.9), y in [-0.7, 1.1) and
      comes from a sample inside the heart. */
  lemma {:induction false} HeartPointsInside(draws: seq<real>, need: nat)
    requires Units(draws)
    ensures forall k :: 0 <= k < |HeartPoints(draws, need)| ==> HeartSample(HeartPoints(draws, need)[k])
    decreases |draws|
  {
    if need != 0 && |draws| >= 3 {
      var x, y, z := HeartCoord(draws[0]), HeartCoord(draws[1]), HeartCoord(draws[2]);
      assert Unit(draws[0]) && Unit(draws[1]) && Unit(draws[2]);
      assert Units(draws[3..]) by {
        forall j | 0 <= j < |draws[3..]| ensures Unit(draws[3..][j]) {
          assert draws[3..][j] == draws[j + 3];
        }
      }
      if InHeart(x, y, z) {
        HeartPlacedInside(x, y, z);
        HeartPointsInside(draws[3..], need - 1);
      } else {
        HeartPointsInside(draws[3..], need);
      }
    }
  }

  /** The centre of the sampling cube is inside the heart, so the sampler
      can accept points. */
  lemma CentreInHeart()
    ensures InHeart(HeartCoord(0.5), HeartCoord(0.5), HeartCoord(0.5))
  {
    assert HeartCoord(0.5) == 0.0;
  }

  /** The sampling loop: three draws per attempt, pushing the placed point
      when the heart inequality holds, until 1200 points are accepted. */
  method SampleHeart(draws: seq<real>) returns (pos: seq<real>)
    ensures pos == Flatten(HeartPoints(draws, HeartCount))
  {
    pos := [];
    ghost var pts: seq<Vec3> := [];
    var i := 0;
    var k := 0;
    while i < HeartCount && k + 3 <= |draws|
      invariant 0 <= k <= |draws|
      invariant i == |pts| <= HeartCount
      invariant pos == Flatten(pts)
      invariant pts + HeartPoints(draws[k..], HeartCount - i) == HeartPoints(draws, HeartCount)
      decreases |draws| - k
    {
      var x, y, z := HeartCoord(draws[k]), HeartCoord(draws[k + 1]), HeartCoord(draws[k + 2]);
      var value := HeartValue(x, y, z);
      ghost var rest := draws[k..];
      assert rest[3..] == draws[k + 3..];
      assert rest[0] == draws[k] && rest[1] == draws[k + 1] && rest[2] == draws[k + 2];
      if value < 0.0 {
        FlattenPush(pts, HeartPlaced(x, y, z));
        ConcatAssoc(pts, [HeartPlaced(x, y, z)], HeartPoints(draws[k + 3..], HeartCount - i - 1));
        var v := HeartPlaced(x, y, z);
        pos := pos + [v.x, v.y, v.z];
        pts := pts + [HeartPlaced(x, y, z)];
        i := i + 1;
      }
      k := k + 3;
    }
    assert HeartPoints(draws[k..], HeartCount - i) == [];
  }

  /** Heartbeat scale: pow(sin(3t), 2) * 0.1 + 1, with pow(s, 2) = s * s. */
  function Beat(s: real): real { s * s * 0.1 + 1.0 }

  /** The heartbeat scale lies in [1, 1.1]. */
  lemma BeatBounds(t: real, sin: real -> real)
    requires IsTrig(sin)
    ensures 1.0 <= Beat(sin(t * 3.0)) <= 1.1
  {
    var s := sin(t * 3.0);
    SquareSign(s, s * s);
    UnitProduct(s, s);
  }

  class ParticleTopper {
    /** The accepted heart points, flat. */
    const positions: seq<real>
    var rotationY: real
    var scale: real

    constructor (draws: seq<real>)
      ensures positions == Flatten(HeartPoints(draws, HeartCount))
      ensures rotationY == 0.0 && scale == 1.0
    {
      var pos := SampleHeart(draws);
      positions := pos;
      rotationY := 0.0;
      scale := 1.0;
    }

    /** One frame: the heart turns at one radian per time unit and is scaled
        uniformly by the heartbeat. */
    method Frame(t: real, sin: real -> real)
      modifies this
      ensures rotationY == t
      ensures scale == Beat(sin(t * 3.0))
    {
      var beat := sin(t * 3.0) * sin(t * 3.0) * 0.1 + 1.0;
      rotationY := t * 1.0;
      scale := beat;
    }
  }
}
