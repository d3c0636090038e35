/** Shared value types of the particle engine: points, colours, the bounded
    stand-ins for the host's math functions, random draws, palettes and the
    flat xyz layout used by every particle buffer. */
module Common {

  datatype Option<T> = None | Some(value: T)

  /** A point or direction in world space (a THREE.Vector3). */
  datatype Vec3 = Vec3(x: real, y: real, z: real)

  /** An RGB colour as the renderer stores it, one real per channel. */
  datatype Color = Color(r: real, g: real, b: real)

  const Pi: real := 3.141592653589793

  // The host's transcendental functions are not interpreted. Each is a
  // parameter, and a predicate records the only facts the model relies on.

  /** Math.sin and Math.cos: every value lies in [-1, 1]. */
  ghost predicate IsTrig(f: real -> real) { forall x :: -1.0 <= f(x) <= 1.0 }

  /** Math.exp on non-positive arguments: a value in (0, 1]. */
  ghost predicate IsExp(f: real -> real) { forall x :: x <= 0.0 ==> 0.0 < f(x) <= 1.0 }

  /** Math.pow with a base in [0, 1] and a non-negative exponent: a value in
      [0, 1], and positive when the base is. */
  ghost predicate IsPow(f: (real, real) -> real)
  {
    forall r, k :: 0.0 <= r <= 1.0 && 0.0 <= k ==> 0.0 <= f(r, k) <= 1.0 && (0.0 < r ==> 0.0 < f(r, k))
  }

  /** Math.sqrt on non-negative arguments: a non-negative value. */
  ghost predicate IsSqrt(f: real -> real) { forall x :: 0.0 <= x ==> 0.0 <= f(x) }

  /** A value of magnitude at most 1 scales a ≥ 0 into [-a, a]. */
  lemma ScaleBound(a: real, b: real)
    requires 0.0 <= a && -1.0 <= b <= 1.0
    ensures -a <= a * b <= a
  {
    if b >= 0.0 { assert a * b <= a * 1.0; assert a * b >= 0.0; }
    else { assert a * b >= a * -1.0; assert a * b <= 0.0; }
  }

  /** The product of two values in [-1, 1] lies in [-1, 1]. */
  lemma UnitProduct(a: real, b: real)
    requires -1.0 <= a <= 1.0 && -1.0 <= b <= 1.0
    ensures -1.0 <= a * b <= 1.0
  {
    if a >= 0.0 { ScaleBound(a, b); } else { ScaleBound(-a, b); assert (-a) * b == -(a * b); }
  }

  /** A square m = d * d is never negative, and positive unless its root is zero. */
  lemma SquareSign(d: real, m: real)
    requires m == d * d
    ensures m >= 0.0
    ensures d != 0.0 ==> m > 0.0
  {
    if d > 0.0 {
      Positive(d, d, m);
    } else if d < 0.0 {
      Positive(-d, -d, m);
    }
  }

  /** A scale factor in [0, 1] shrinks a non-negative length. */
  lemma Shrinks(a: real, f: real)
    requires 0.0 <= a && 0.0 <= f <= 1.0
    ensures 0.0 <= a * f <= a
  {
    assert a * f <= a * 1.0;
  }

  /** The product m = a * b of two positive values is positive. */
  lemma Positive(a: real, b: real, m: real)
    requires 0.0 < a && 0.0 < b && m == a * b
    ensures 0.0 < m
  {
  }

  /** The direction (sin phi cos theta, sin phi sin theta, cos phi) on the unit
      sphere, from the four trigonometric values. */
  function SphereDirection(sinPhi: real, cosPhi: real, sinTheta: real, cosTheta: real): Vec3
  {
    Vec3(sinPhi * cosTheta, sinPhi * sinTheta, cosPhi)
  }

  /** v scaled by s. */
  function Scale(v: Vec3, s: real): Vec3 { Vec3(s * v.x, s * v.y, s * v.z) }

  predicate InUnitCube(v: Vec3) { -1.0 <= v.x <= 1.0 && -1.0 <= v.y <= 1.0 && -1.0 <= v.z <= 1.0 }

  /** With trigonometric values in [-1, 1], every component of the direction is in [-1, 1]. */
  lemma SphereDirectionBounds(sinPhi: real, cosPhi: real, sinTheta: real, cosTheta: real)
    requires -1.0 <= sinPhi <= 1.0 && -1.0 <= cosPhi <= 1.0 && -1.0 <= sinTheta <= 1.0 && -1.0 <= cosTheta <= 1.0
    ensures InUnitCube(SphereDirection(sinPhi, cosPhi, sinTheta, cosTheta))
  {
    UnitProduct(sinPhi, cosTheta);
    UnitProduct(sinPhi, sinTheta);
  }

  /** Scaling a vector of the unit cube by s >= 0 keeps every component in [-s, s]. */
  lemma ScaleBounds(v: Vec3, s: real)
    requires InUnitCube(v) && 0.0 <= s
    ensures -s <= Scale(v, s).x <= s && -s <= Scale(v, s).y <= s && -s <= Scale(v, s).z <= s
  {
    var w := Scale(v, s);
    ScaleBound(s, v.x);
    ScaleBound(s, v.y);
    ScaleBound(s, v.z);
    assert w.x == s * v.x && w.y == s * v.y && w.z == s * v.z;
  }

  /** One value of Math.random. */
  predicate Unit(r: real) { 0.0 <= r < 1.0 }

  /** A supplied stream of Math.random values. */
  predicate Units(s: seq<real>) { forall j :: 0 <= j < |s| ==> Unit(s[j]) }

  /** Math.floor(r * n): the palette slot picked by a random value. */
  function PaletteSlot(r: real, n: nat): (k: int)
    requires Unit(r) && n > 0
    ensures 0 <= k < n
  {
    var m := n as real;
    assert r * m == m - (1.0 - r) * m;
    assert (1.0 - r) * m > 0.0;
    assert r * m >= 0.0;
    (r * m).Floor
  }

  /** THREE.MathUtils.lerp(x, y, t); THREE.Color.lerp uses the same rule per channel. */
  function Lerp(x: real, y: real, t: real): real { (1.0 - t) * x + t * y }

  function LerpColor(a: Color, b: Color, t: real): Color {
    Color(Lerp(a.r, b.r, t), Lerp(a.g, b.g, t), Lerp(a.b, b.b, t))
  }

  const White: Color := Color(1.0, 1.0, 1.0)

  // Palettes of constants.ts, as hex strings. Turning a hex string into a
  // colour is THREE.Color's work and is a parameter wherever it is needed.
  const FireworkPalette: seq<string> := ["#ff0040", "#ff4000", "#ff8000", "#ffff00", "#80ff00",
    "#00ff80", "#00ffff", "#0080ff", "#0000ff", "#8000ff", "#ff00ff"]
  const OrnamentPalette: seq<string> := ["#FF0000", "#FFD700", "#C0C0C0", "#0000FF", "#00FF00",
    "#FF00FF", "#00FFFF"]
  const TreePrimary: string := "#d41c1c"
  const TreeSecondary: string := "#e6b800"
  const TreeHighlight: string := "#ffffff"
  const TextColorHex: string := "#ffdac1"
  const GoldHex: string := "#ffd700"

  // Flat buffers: particle i occupies slots 3i, 3i+1, 3i+2 (x, y, z or r, g, b).

  /** The particle a flat slot belongs to. */
  function Particle(k: nat): nat { k / 3 }

  /** The component (0 = x or r, 1 = y or g, 2 = z or b) a flat slot holds. */
  function Component(k: nat): nat { k % 3 }

  function Coord(v: Vec3, c: nat): real { if c == 0 then v.x else if c == 1 then v.y else v.z }

  /** A colour as the three floats a colour buffer holds for it. */
  function Rgb(col: Color): Vec3 { Vec3(col.r, col.g, col.b) }

  function Channel(col: Color, c: nat): real { Coord(Rgb(col), c) }

  /** The point a flat buffer holds for particle i. */
  function PointAt(s: seq<real>, i: nat): Vec3
    requires 3 * i + 2 < |s|
  {
    Vec3(s[3 * i], s[3 * i + 1], s[3 * i + 2])
  }

  /** Slot 3i + c belongs to particle i and holds component c. */
  lemma SlotOf(i: nat, c: nat)
    requires c < 3
    ensures Particle(3 * i + c) == i && Component(3 * i + c) == c
  {
  }

  /** Slot k belongs to particle i exactly when it is one of 3i, 3i + 1, 3i + 2,
      and then its component is its offset from 3i. */
  lemma ParticleRange(k: nat, i: nat)
    ensures Particle(k) == i <==> 3 * i <= k < 3 * i + 3
    ensures Particle(k) == i ==> Component(k) == k - 3 * i
  {
  }

  /** Slot k of a buffer after particle i's triple is set to v. */
  ghost predicate TripleWritten(after: seq<real>, before: seq<real>, i: nat, v: Vec3)
  {
    |after| == |before| &&
    forall k :: 0 <= k < |after| ==> after[k] == if Particle(k) == i then Coord(v, Component(k)) else before[k]
  }

  /** buffer[3i], buffer[3i+1], buffer[3i+2] = v.x, v.y, v.z. */
  method WriteTriple(a: array<real>, i: nat, v: Vec3)
    requires 3 * i + 2 < a.Length
    modifies a
    ensures TripleWritten(a[..], old(a[..]), i, v)
    ensures PointAt(a[..], i) == v
    ensures forall j :: 0 <= j && 3 * j + 2 < a.Length && j != i ==> PointAt(a[..], j) == PointAt(old(a[..]), j)
  {
    SlotOf(i, 0);
    SlotOf(i, 1);
    SlotOf(i, 2);
    a[3 * i], a[3 * i + 1], a[3 * i + 2] := v.x, v.y, v.z;
  }

  /** Concatenation is associative (stated once so that proofs can cite it). */
  lemma ConcatAssoc<T>(a: seq<T>, b: seq<T>, c: seq<T>)
    ensures a + (b + c) == (a + b) + c
  {
  }

  lemma ConcatEmpty<T>(a: seq<T>, b: seq<T>)
    requires b == []
    ensures a + b == a
  {
  }

  /** The flat buffer spelling out a sequence of points. */
  function Flatten(ps: seq<Vec3>): (s: seq<real>)
    ensures |s| == 3 * |ps|
    ensures forall k :: 0 <= k < |s| ==> s[k] == Coord(ps[Particle(k)], Component(k))
  {
    seq(3 * |ps|, k requires 0 <= k < 3 * |ps| => Coord(ps[k / 3], k % 3))
  }

  /** A buffer of 3n slots whose every particle i holds ps[i] is Flatten(ps). */
  lemma FlattenFromPoints(s: seq<real>, ps: seq<Vec3>)
    requires |s| == 3 * |ps|
    requires forall i :: 0 <= i < |ps| ==> PointAt(s, i) == ps[i]
    ensures s == Flatten(ps)
  {
    forall k | 0 <= k < |s| ensures s[k] == Flatten(ps)[k] {
      var i, c := Particle(k), Component(k);
      assert k == 3 * i + c;
      assert PointAt(s, i) == ps[i];
    }
  }

  /** Pushing a point's three coordinates extends the flat buffer by that point. */
  lemma FlattenPush(ps: seq<Vec3>, v: Vec3)
    ensures Flatten(ps + [v]) == Flatten(ps) + [v.x, v.y, v.z]
  {
    var a, b := Flatten(ps + [v]), Flatten(ps) + [v.x, v.y, v.z];
    forall k | 0 <= k < |a| ensures a[k] == b[k] {
      if k < 3 * |ps| {
        assert (ps + [v])[Particle(k)] == ps[Particle(k)];
      } else {
        assert Particle(k) == |ps|;
      }
    }
  }

  /** Reading particle i back out of a flattened point list gives point i. */
  lemma {:induction false} FlattenPointAt(ps: seq<Vec3>, i: nat)
    requires i < |ps|
    ensures PointAt(Flatten(ps), i) == ps[i]
  {
    SlotOf(i, 0);
    SlotOf(i, 1);
    SlotOf(i, 2);
  }
}
