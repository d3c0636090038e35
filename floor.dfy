/** The glowing floor: 35000 points on a disc at height -3, whiter near the
    centre, with a ripple that moves only their heights. */
module Floor {
  import opened Common

  const Count: nat := 35000

  /** Draws per point: radius and angle. */
  const DrawsPerPoint: nat := 2
  const FloorDraws: nat := 70000

  const Level: real := -3.0
  const BlueHex: string := "#88ccff"
  const WhiteHex: string := "#ffffff"

  /** Math.random() * 30 + 1: a radius in [1, 31). */
  function FloorRadius(r: real): real { r * 30.0 + 1.0 }

  /** A point of the disc from its two draws: (cos theta * radius, -3, sin theta * radius). */
  function DiscPoint(rr: real, rt: real, cos: real -> real, sin: real -> real): Vec3
  {
    var radius := FloorRadius(rr);
    var theta := rt * Pi * 2.0;
    Vec3(cos(theta) * radius, Level, sin(theta) * radius)
  }

  function MinReal(a: real, b: real): real { if a <= b then a else b }

  /** Math.min(1, radius / 35): how far the colour has moved from white to blue. */
  function MixRatio(radius: real): real { MinReal(1.0, radius / 35.0) }

  /** White lerped toward the blue by the mix ratio of the point's radius. */
  function DiscColor(rr: real, decode: string -> Color): Color
  {
    LerpColor(decode(WhiteHex), decode(BlueHex), MixRatio(FloorRadius(rr)))
  }

  /** Radii lie in [1, 31); the mix ratio is radius / 35, so it lies in
      (0, 1) and never reaches pure blue. */
  lemma DiscBounds(rr: real)
    requires Unit(rr)
    ensures 1.0 <= FloorRadius(rr) < 31.0
    ensures MixRatio(FloorRadius(rr)) == FloorRadius(rr) / 35.0
    ensures 0.0 < MixRatio(FloorRadius(rr)) < 1.0
  {
  }

  /** A disc point lies at height -3 within its radius of the centre in x and z. */
  lemma DiscPointBounds(rr: real, rt: real, cos: real -> real, sin: real -> real)
    requires Unit(rr) && IsTrig(cos) && IsTrig(sin)
    ensures DiscPoint(rr, rt, cos, sin).y == Level
    ensures -FloorRadius(rr) <= DiscPoint(rr, rt, cos, sin).x <= FloorRadius(rr)
    ensures -FloorRadius(rr) <= DiscPoint(rr, rt, cos, sin).z <= FloorRadius(rr)
  {
    var radius := FloorRadius(rr);
    var c, s := cos(rt * Pi * 2.0), sin(rt * Pi * 2.0);
    assert -1.0 <= c <= 1.0 && -1.0 <= s <= 1.0;
    ScaleBound(radius, c);
    ScaleBound(radius, s);
    assert DiscPoint(rr, rt, cos, sin).x == radius * c;
    assert DiscPoint(rr, rt, cos, sin).z == radius * s;
  }

  /** Speed and base amplitude of the ripple. */
  datatype Ripple = Ripple(speed: real, ampBase: real)

  /** Activated: speed 2 and amplitude 0.25; otherwise 1 and 0.1. */
  function RippleSettings(isActivated: bool): (r: Ripple)
    ensures r == Ripple(2.0, 0.25) || r == Ripple(1.0, 0.1)
    ensures isActivated <==> r.speed == 2.0
    ensures 0.0 < r.ampBase <= 0.25
  {
    if isActivated then Ripple(2.0, 0.25) else Ripple(1.0, 0.1)
  }

  /** The material's opacity: 0.8 when activated, otherwise 0.5. */
  function Opacity(isActivated: bool): (o: real)
    ensures 0.5 <= o <= 0.8
    ensures isActivated <==> o == 0.8
  {
    if isActivated then 0.8 else 0.5
  }

  /** x * x + z * z. */
  function SquareSum(x: real, z: real): real { x * x + z * z }

  /** dist * 1.5 - t * speed: the ripple's phase at a distance and time. */
  function WavePhase(dist: real, t: real, speed: real): real { dist * 1.5 - t * speed }

  /** One point after a ripple frame at time t: x and z stay, and y is
      -3 + sin(1.5 dist - t speed) * ampBase * exp(-0.03 dist), dist being
      the point's distance from the vertical axis. */
  function Rippled(p: Vec3, t: real, s: Ripple, sqrt: real -> real, exp: real -> real, sin: real -> real): Vec3
  {
    var dist := sqrt(SquareSum(p.x, p.z));
    var amplitude := s.ampBase * exp(-dist * 0.03);
    var wave := sin(WavePhase(dist, t, s.speed));
    Vec3(p.x, Level + wave * amplitude, p.z)
  }

  /** The ripple keeps every point within ampBase of the floor level, and
      leaves x and z alone. */
  lemma RippledBounds(p: Vec3, t: real, s: Ripple, sqrt: real -> real, exp: real -> real, sin: real -> real)
    requires IsSqrt(sqrt) && IsExp(exp) && IsTrig(sin) && 0.0 <= s.ampBase
    ensures Rippled(p, t, s, sqrt, exp, sin).x == p.x && Rippled(p, t, s, sqrt, exp, sin).z == p.z
    ensures -s.ampBase <= Rippled(p, t, s, sqrt, exp, sin).y - Level <= s.ampBase
  {
    var dist := sqrt(SquareSum(p.x, p.z));
    DampingBounds(p.x, p.z, sqrt, exp);
    var e := exp(-dist * 0.03);
    var wave := sin(WavePhase(dist, t, s.speed));
    assert -1.0 <= wave <= 1.0;
    WaveBound(s.ampBase, e, wave);
    assert -s.ampBase <= wave * (s.ampBase * e);
    assert Rippled(p, t, s, sqrt, exp, sin).y == Level + wave * (s.ampBase * e);
  }

  /** The distance from the axis is non-negative, so its damping factor
      exp(-0.03 dist) lies in (0, 1]. */
  lemma DampingBounds(x: real, z: real, sqrt: real -> real, exp: real -> real)
    requires IsSqrt(sqrt) && IsExp(exp)
    ensures 0.0 <= sqrt(SquareSum(x, z))
    ensures 0.0 < exp(-sqrt(SquareSum(x, z)) * 0.03) <= 1.0
  {
    SquareSign(x, x * x);
    SquareSign(z, z * z);
    assert 0.0 <= SquareSum(x, z);
  }

  /** A wave in [-1, 1] times a damped amplitude stays within the base amplitude. */
  lemma WaveBound(ampBase: real, e: real, wave: real)
    requires 0.0 <= ampBase && 0.0 < e <= 1.0 && -1.0 <= wave <= 1.0
    ensures -ampBase <= wave * (ampBase * e) <= ampBase
  {
    var amplitude := ampBase * e;
    Shrinks(ampBase, e);
    ScaleBound(amplitude, wave);
    assert wave * amplitude == amplitude * wave;
  }

  /** For a fixed time the ripple is idempotent: the new height depends only
      on x, z and t, which it does not change. */
  lemma RippledIdempotent(p: Vec3, t: real, s: Ripple, sqrt: real -> real, exp: real -> real, sin: real -> real)
    ensures Rippled(Rippled(p, t, s, sqrt, exp, sin), t, s, sqrt, exp, sin) == Rippled(p, t, s, sqrt, exp, sin)
  {
  }

  class Floor {
    const isActivated: bool
    const positions: array<real>
    const colors: array<real>

    ghost predicate Valid()
      reads this
    {
      positions.Length == 3 * Count && colors.Length == 3 * Count && positions != colors
    }

    /** Lays out the disc from two draws per point. */
    constructor (isActivated: bool, draws: seq<real>, cos: real -> real, sin: real -> real, decode: string -> Color)
      requires |draws| == FloorDraws && Units(draws)
      ensures Valid() && this.isActivated == isActivated
      ensures forall i :: 0 <= i < Count ==>
        PointAt(positions[..], i) == DiscPoint(draws[2 * i], draws[2 * i + 1], cos, sin)
      ensures forall i :: 0 <= i < Count ==>
        PointAt(colors[..], i) == Rgb(DiscColor(draws[2 * i], decode))
    {
      this.isActivated := isActivated;
      positions := new real[3 * Count](_ => 0.0);
      colors := new real[3 * Count](_ => 0.0);
      new;
      Lay(draws, cos, sin, decode);
    }

    /** The generating loop: point i from draws 2i and 2i + 1. */
    method Lay(draws: seq<real>, cos: real -> real, sin: real -> real, decode: string -> Color)
      requires Valid() && |draws| == FloorDraws
      modifies positions, colors
      ensures forall i :: 0 <= i < Count ==>
        PointAt(positions[..], i) == DiscPoint(draws[2 * i], draws[2 * i + 1], cos, sin)
      ensures forall i :: 0 <= i < Count ==>
        PointAt(colors[..], i) == Rgb(DiscColor(draws[2 * i], decode))
    {
      var white := decode(WhiteHex);
      var blue := decode(BlueHex);
      var i := 0;
      while i < Count
        invariant 0 <= i <= Count
        invariant forall j :: 0 <= j < i ==>
          PointAt(positions[..], j) == DiscPoint(draws[2 * j], draws[2 * j + 1], cos, sin)
        invariant forall j :: 0 <= j < i ==>
          PointAt(colors[..], j) == Rgb(DiscColor(draws[2 * j], decode))
      {
        ghost var prevPos := positions[..];
        WriteTriple(positions, i, DiscPoint(draws[2 * i], draws[2 * i + 1], cos, sin));
        forall j | 0 <= j < i + 1 ensures
          PointAt(positions[..], j) == DiscPoint(draws[2 * j], draws[2 * j + 1], cos, sin)
        {
          if j < i {
            assert PointAt(positions[..], j) == PointAt(prevPos, j);
          }
        }
        var mixRatio := MinReal(1.0, FloorRadius(draws[2 * i]) / 35.0);
        var mixed := LerpColor(white, blue, mixRatio);
        assert mixed == DiscColor(draws[2 * i], decode);
        ghost var prevCol, laid := colors[..], positions[..];
        WriteTriple(colors, i, Rgb(mixed));
        assert positions[..] == laid;
        forall j | 0 <= j < i + 1 ensures
          PointAt(colors[..], j) == Rgb(DiscColor(draws[2 * j], decode))
        {
          if j < i {
            assert PointAt(colors[..], j) == PointAt(prevCol, j);
          }
        }
        i := i + 1;
      }
    }

    /** One ripple frame at time t: slot 3i + 1 of every point is rewritten
        from its x and z; nothing else is written. */
    method Frame(t: real, sqrt: real -> real, exp: real -> real, sin: real -> real)
      requires Valid()
      modifies positions
      ensures Valid()
      ensures forall i :: 0 <= i < Count ==>
        PointAt(positions[..], i) == Rippled(PointAt(old(positions[..]), i), t, RippleSettings(isActivated), sqrt, exp, sin)
      ensures forall k :: 0 <= k < positions.Length && Component(k) != 1 ==> positions[k] == old(positions[k])
    {
      var s := RippleSettings(isActivated);
      ghost var before := positions[..];
      var i := 0;
      while i < Count
        invariant 0 <= i <= Count
        invariant forall j :: i <= j < Count ==> PointAt(positions[..], j) == PointAt(before, j)
        invariant forall j :: 0 <= j < i ==>
          PointAt(positions[..], j) == Rippled(PointAt(before, j), t, s, sqrt, exp, sin)
        invariant forall k :: 0 <= k < positions.Length && Component(k) != 1 ==> positions[k] == before[k]
      {
        var x := positions[3 * i];
        var z := positions[3 * i + 2];
        assert Vec3(x, positions[3 * i + 1], z) == PointAt(before, i);
        var dist := sqrt(SquareSum(x, z));
        var amplitude := s.ampBase * exp(-dist * 0.03);
        var wave := sin(WavePhase(dist, t, s.speed));
        ghost var prev := positions[..];
        positions[3 * i + 1] := Level + wave * amplitude;
        assert PointAt(positions[..], i) == Rippled(PointAt(before, i), t, s, sqrt, exp, sin);
        forall j | 0 <= j < Count && j != i ensures PointAt(positions[..], j) == PointAt(prev, j) {
          assert positions[3 * j] == prev[3 * j];
          assert positions[3 * j + 1] == prev[3 * j + 1];
          assert positions[3 * j + 2] == prev[3 * j + 2];
        }
        forall k | 0 <= k < positions.Length && Component(k) != 1 ensures positions[k] == before[k] {
          assert k != 3 * i + 1;
        }
        i := i + 1;
      }
    }
  }
}
