/** Falling snow: flakes scattered over a 50 x 50 area between heights 5 and
    35 fall at their own speed, wobble sideways, and are recycled to height
    25 at a fresh spot once they drop below -5. */
module Snow {
  import opened Common

  const Floor: real := -5.0
  const Ceiling: real := 35.0
  const ResetHeight: real := 25.0
  const Wobble: real := 0.01

  /** (Math.random() - 0.5) * 50: a coordinate in [-25, 25). */
  function Spread(r: real): real { (r - 0.5) * 50.0 }

  /** A flake's start, from its draws (x, y, z, speed). */
  function InitialFlake(rx: real, ry: real, rz: real): Vec3
  {
    Vec3(Spread(rx), ry * 30.0 + 5.0, Spread(rz))
  }

  /** Math.random() * 0.05 + 0.02. */
  function FallSpeed(r: real): real { r * 0.05 + 0.02 }

  /** One tick of one flake: fall by its speed, wobble x by sin of the new y,
      and below -5 restart at height 25 at (Spread(rx), Spread(rz)). */
  function Fallen(p: Vec3, speed: real, sin: real -> real, rx: real, rz: real): Vec3
  {
    var y := p.y - speed;
    if y < Floor then Vec3(Spread(rx), ResetHeight, Spread(rz))
    else Vec3(p.x + sin(y) * Wobble, y, p.z)
  }

  predicate InBand(y: real) { Floor <= y < Ceiling }

  predicate SpeedOk(s: real) { 0.02 <= s < 0.07 }

  /** Flakes start in x, z in [-25, 25), y in [5, 35), with speed in [0.02, 0.07). */
  lemma InitialFlakeBounds(rx: real, ry: real, rz: real, rs: real)
    requires Unit(rx) && Unit(ry) && Unit(rz) && Unit(rs)
    ensures var p := InitialFlake(rx, ry, rz);
      -25.0 <= p.x < 25.0 && 5.0 <= p.y < 35.0 && -25.0 <= p.z < 25.0 && InBand(p.y)
    ensures SpeedOk(FallSpeed(rs))
  {
  }

  /** After a tick a flake is never below -5, and one that started in the band stays in it. */
  lemma FallenKeepsBand(p: Vec3, speed: real, sin: real -> real, rx: real, rz: real)
    requires SpeedOk(speed) && Unit(rx) && Unit(rz)
    ensures Fallen(p, speed, sin, rx, rz).y >= Floor
    ensures InBand(p.y) ==> InBand(Fallen(p, speed, sin, rx, rz).y)
  {
  }

  /** A flake either falls by exactly its speed keeping z, or is reset to
      height 25 at a fresh spot in [-25, 25) x [-25, 25). */
  lemma FallenCases(p: Vec3, speed: real, sin: real -> real, rx: real, rz: real)
    requires Unit(rx) && Unit(rz)
    ensures var q := Fallen(p, speed, sin, rx, rz);
      (p.y - speed >= Floor ==> q.y == p.y - speed && q.z == p.z) &&
      (p.y - speed < Floor ==> q.y == ResetHeight && -25.0 <= q.x < 25.0 && -25.0 <= q.z < 25.0)
  {
  }

  /** The wobble uses the decremented y and moves x by at most 0.01. */
  lemma WobbleBound(p: Vec3, speed: real, sin: real -> real, rx: real, rz: real)
    requires IsTrig(sin) && p.y - speed >= Floor
    ensures Fallen(p, speed, sin, rx, rz).x == p.x + sin(p.y - speed) * Wobble
    ensures -Wobble <= Fallen(p, speed, sin, rx, rz).x - p.x <= Wobble
  {
    assert -1.0 <= sin(p.y - speed) <= 1.0;
  }

  class Snow {
    const count: nat
    const positions: array<real>
    const speeds: array<real>

    ghost predicate Valid()
      reads this
    {
      positions.Length == 3 * count && speeds.Length == count && positions != speeds
    }

    /** Every flake's y lies in [-5, 35). */
    ghost predicate Banded()
      requires Valid()
      reads this, positions
    {
      forall i :: 0 <= i < count ==> InBand(positions[3 * i + 1])
    }

    ghost predicate SpeedsOk()
      requires Valid()
      reads this, speeds
    {
      forall i :: 0 <= i < count ==> SpeedOk(speeds[i])
    }

    /** The initial scatter, from four draws per flake. */
    constructor (count: nat, draws: seq<real>)
      requires |draws| == 4 * count && Units(draws)
      ensures Valid() && Banded() && SpeedsOk()
      ensures this.count == count
      ensures forall i :: 0 <= i < count ==>
        PointAt(positions[..], i) == InitialFlake(draws[4 * i], draws[4 * i + 1], draws[4 * i + 2])
      ensures forall i :: 0 <= i < count ==> speeds[i] == FallSpeed(draws[4 * i + 3])
    {
      this.count := count;
      positions := new real[3 * count](_ => 0.0);
      speeds := new real[count](_ => 0.0);
      new;
      Scatter(draws);
    }

    method Scatter(draws: seq<real>)
      requires Valid() && |draws| == 4 * count && Units(draws)
      modifies positions, speeds
      ensures Banded() && SpeedsOk()
      ensures forall i :: 0 <= i < count ==>
        PointAt(positions[..], i) == InitialFlake(draws[4 * i], draws[4 * i + 1], draws[4 * i + 2])
      ensures forall i :: 0 <= i < count ==> speeds[i] == FallSpeed(draws[4 * i + 3])
    {
      var i := 0;
      while i < count
        invariant 0 <= i <= count
        invariant forall j :: 0 <= j < i ==>
          PointAt(positions[..], j) == InitialFlake(draws[4 * j], draws[4 * j + 1], draws[4 * j + 2]) &&
          InBand(positions[3 * j + 1])
        invariant forall j :: 0 <= j < i ==> speeds[j] == FallSpeed(draws[4 * j + 3]) && SpeedOk(speeds[j])
      {
        assert Unit(draws[4 * i]) && Unit(draws[4 * i + 1]) && Unit(draws[4 * i + 2]) && Unit(draws[4 * i + 3]);
        InitialFlakeBounds(draws[4 * i], draws[4 * i + 1], draws[4 * i + 2], draws[4 * i + 3]);
        ghost var prev := positions[..];
        WriteTriple(positions, i, InitialFlake(draws[4 * i], draws[4 * i + 1], draws[4 * i + 2]));
        forall j | 0 <= j < i ensures InBand(positions[3 * j + 1]) {
          assert PointAt(positions[..], j) == PointAt(prev, j);
        }
        speeds[i] := FallSpeed(draws[4 * i + 3]);
        i := i + 1;
      }
    }

    /** One frame: every flake falls, wobbles and is recycled when below -5.
        resets holds the two fresh-spot draws (x, z) of each flake. The speeds
        are never written. */
    method Tick(sin: real -> real, resets: seq<real>)
      requires Valid() && Banded() && SpeedsOk()
      requires |resets| == 2 * count && Units(resets)
      modifies positions
      ensures Banded()
      ensures forall i :: 0 <= i < count ==>
        PointAt(positions[..], i) == Fallen(PointAt(old(positions[..]), i), speeds[i], sin, resets[2 * i], resets[2 * i + 1])
    {
      ghost var before := positions[..];
      var i := 0;
      while i < count
        invariant 0 <= i <= count
        invariant forall j :: i <= j < count ==> PointAt(positions[..], j) == PointAt(before, j)
        invariant forall j :: 0 <= j < i ==>
          PointAt(positions[..], j) == Fallen(PointAt(before, j), speeds[j], sin, resets[2 * j], resets[2 * j + 1])
        invariant forall j :: 0 <= j < count ==> InBand(positions[3 * j + 1])
      {
        var p := Vec3(positions[3 * i], positions[3 * i + 1], positions[3 * i + 2]);
        assert p == PointAt(positions[..], i);
        assert Unit(resets[2 * i]) && Unit(resets[2 * i + 1]);
        FallenKeepsBand(p, speeds[i], sin, resets[2 * i], resets[2 * i + 1]);
        ghost var prev := positions[..];
        WriteTriple(positions, i, Fallen(p, speeds[i], sin, resets[2 * i], resets[2 * i + 1]));
        assert InBand(PointAt(positions[..], i).y);
        forall j | i + 1 <= j < count ensures PointAt(positions[..], j) == PointAt(before, j) {
          assert PointAt(positions[..], j) == PointAt(prev, j);
        }
        forall j | 0 <= j < i + 1
          ensures PointAt(positions[..], j) == Fallen(PointAt(before, j), speeds[j], sin, resets[2 * j], resets[2 * j + 1])
        {
          if j < i {
            assert PointAt(positions[..], j) == PointAt(prev, j);
          }
        }
        forall j | 0 <= j < count ensures InBand(positions[3 * j + 1]) {
          if j != i {
            assert PointAt(positions[..], j) == PointAt(prev, j);
          }
        }
        i := i + 1;
      }
    }
  }
}
