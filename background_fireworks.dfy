/** The background fireworks: a pool of bursts that grows by one at random
    intervals and loses a burst when that burst's two-second life is over.
    Each burst is 300 particles flying out from its origin and fading. */
module BackgroundFireworks {
  import opened Common

  /** One entry of the pool: an id, a world-space origin and a palette colour. */
  datatype Burst = Burst(id: nat, origin: Vec3, color: string)

  // ---- The pool as a value ----

  /** Ids strictly increase along the list. */
  ghost predicate IdsIncreasing(bursts: seq<Burst>)
  {
    forall i, j :: 0 <= i < j < |bursts| ==> bursts[i].id < bursts[j].id
  }

  /** Every id in the list is below bound. */
  ghost predicate IdsBelow(bursts: seq<Burst>, bound: nat)
  {
    forall i :: 0 <= i < |bursts| ==> bursts[i].id < bound
  }

  /** prev.filter(fw => fw.id !== id). */
  function Without(bursts: seq<Burst>, id: nat): seq<Burst>
  {
    if bursts == [] then []
    else (if bursts[0].id == id then [] else [bursts[0]]) + Without(bursts[1..], id)
  }

  /** Exactly the entries with another id survive. */
  lemma {:induction false} WithoutMembers(bursts: seq<Burst>, id: nat, b: Burst)
    ensures b in Without(bursts, id) <==> b in bursts && b.id != id
  {
    if bursts != [] {
      WithoutMembers(bursts[1..], id, b);
      assert bursts == [bursts[0]] + bursts[1..];
    }
  }

  /** Filtering commutes with appending, so the survivors keep their order. */
  lemma {:induction false} WithoutAppend(bursts: seq<Burst>, b: Burst, id: nat)
    ensures Without(bursts + [b], id) == Without(bursts, id) + (if b.id == id then [] else [b])
  {
    if bursts == [] {
      assert [b][1..] == [];
    } else {
      assert (bursts + [b])[1..] == bursts[1..] + [b];
      WithoutAppend(bursts[1..], b, id);
      ConcatAssoc(if bursts[0].id == id then [] else [bursts[0]], Without(bursts[1..], id),
                  if b.id == id then [] else [b]);
    }
  }

  /** Removing an id nobody has changes nothing. */
  lemma {:induction false} WithoutAbsent(bursts: seq<Burst>, id: nat)
    requires forall i :: 0 <= i < |bursts| ==> bursts[i].id != id
    ensures Without(bursts, id) == bursts
  {
    if bursts != [] {
      WithoutAbsent(bursts[1..], id);
      assert bursts == [bursts[0]] + bursts[1..];
    }
  }

  /** Dropping the first entry keeps the ids increasing and below the bound. */
  lemma TailKeepsIds(bursts: seq<Burst>, bound: nat)
    requires bursts != [] && IdsIncreasing(bursts) && IdsBelow(bursts, bound)
    ensures IdsIncreasing(bursts[1..]) && IdsBelow(bursts[1..], bound)
    ensures forall k :: 0 <= k < |bursts[1..]| ==> bursts[0].id < bursts[1..][k].id
  {
    var rest := bursts[1..];
    forall i, j | 0 <= i < j < |rest| ensures rest[i].id < rest[j].id {
      assert rest[i] == bursts[i + 1] && rest[j] == bursts[j + 1];
    }
    forall i | 0 <= i < |rest| ensures rest[i].id < bound && bursts[0].id < rest[i].id {
      assert rest[i] == bursts[i + 1];
    }
  }

  /** An entry below the bound and below every id of an increasing list can go in front of it. */
  lemma ConsKeepsIds(h: Burst, tail: seq<Burst>, bound: nat)
    requires IdsIncreasing(tail) && IdsBelow(tail, bound) && h.id < bound
    requires forall k :: 0 <= k < |tail| ==> h.id < tail[k].id
    ensures IdsIncreasing([h] + tail) && IdsBelow([h] + tail, bound)
  {
    var all := [h] + tail;
    forall i, j | 0 <= i < j < |all| ensures all[i].id < all[j].id {
      assert all[j] == tail[j - 1];
      if i > 0 { assert all[i] == tail[i - 1]; }
    }
    forall i | 0 <= i < |all| ensures all[i].id < bound {
      if i > 0 { assert all[i] == tail[i - 1]; }
    }
  }

  /** The survivors still have increasing ids below the same bound. */
  lemma {:induction false} WithoutKeepsIds(bursts: seq<Burst>, id: nat, bound: nat)
    requires IdsIncreasing(bursts) && IdsBelow(bursts, bound)
    ensures IdsIncreasing(Without(bursts, id)) && IdsBelow(Without(bursts, id), bound)
  {
    if bursts != [] {
      var rest := bursts[1..];
      TailKeepsIds(bursts, bound);
      WithoutKeepsIds(rest, id, bound);
      var tail := Without(rest, id);
      if bursts[0].id == id {
        assert Without(bursts, id) == [] + tail;
        assert [] + tail == tail;
      } else {
        forall k | 0 <= k < |tail| ensures bursts[0].id < tail[k].id {
          WithoutMembers(rest, id, tail[k]);
          var j :| 0 <= j < |rest| && rest[j] == tail[k];
        }
        assert bursts[0].id < bound;
        ConsKeepsIds(bursts[0], tail, bound);
        assert Without(bursts, id) == [bursts[0]] + tail;
      }
    }
  }

  /** Appending a burst with the next id keeps the ids increasing and below the new bound. */
  lemma AppendKeepsIds(bursts: seq<Burst>, b: Burst, bound: nat)
    requires IdsIncreasing(bursts) && IdsBelow(bursts, bound) && b.id == bound
    ensures IdsIncreasing(bursts + [b]) && IdsBelow(bursts + [b], bound + 1)
  {
    var all := bursts + [b];
    forall i, j | 0 <= i < j < |all| ensures all[i].id < all[j].id {
      assert all[i] == bursts[i];
      if j < |bursts| { assert all[j] == bursts[j]; }
    }
    forall i | 0 <= i < |all| ensures all[i].id < bound + 1 {
      if i < |bursts| { assert all[i] == bursts[i]; }
    }
  }

  /** With increasing ids, removing a present id drops exactly one entry. */
  lemma {:induction false} WithoutDropsOne(bursts: seq<Burst>, id: nat, k: nat)
    requires IdsIncreasing(bursts) && k < |bursts| && bursts[k].id == id
    ensures |Without(bursts, id)| == |bursts| - 1
  {
    var rest := bursts[1..];
    assert IdsIncreasing(rest) by {
      forall i, j | 0 <= i < j < |rest| ensures rest[i].id < rest[j].id {
        assert rest[i] == bursts[i + 1] && rest[j] == bursts[j + 1];
      }
    }
    if k == 0 {
      forall i | 0 <= i < |rest| ensures rest[i].id != id {
        assert rest[i] == bursts[i + 1];
      }
      WithoutAbsent(rest, id);
    } else {
      assert rest[k - 1] == bursts[k];
      WithoutDropsOne(rest, id, k - 1);
    }
  }

  // ---- Launching ----

  const BurstParticles: nat := 300
  const BurstBuffer: nat := 900
  /** Seconds a burst lives. */
  const Lifetime: real := 2.0
  const Sag: real := 0.05

  /** Math.random() * 1.5 + 0.5: the gap that must pass before the next launch. */
  function LaunchThreshold(r: real): real { r * 1.5 + 0.5 }

  /** The launch condition of one frame. */
  predicate LaunchDue(t: real, lastLaunch: real, r: real) { t - lastLaunch > LaunchThreshold(r) }

  /** A launch origin from three draws: wide in x, high in y, behind the tree in z. */
  function LaunchOrigin(rx: real, ry: real, rz: real): Vec3
  {
    Vec3((rx - 0.5) * 40.0, 10.0 + ry * 15.0, (rz - 0.5) * 20.0 - 10.0)
  }

  /** The burst launched on a frame with draws (threshold, x, y, z, colour). */
  function NewBurst(id: nat, draws: seq<real>): Burst
    requires |draws| == 5 && Unit(draws[4])
  {
    Burst(id, LaunchOrigin(draws[1], draws[2], draws[3]), FireworkPalette[PaletteSlot(draws[4], |FireworkPalette|)])
  }

  /** Launches are at least 0.5 s and at most 2 s apart. */
  lemma LaunchGap(t: real, lastLaunch: real, r: real)
    requires Unit(r)
    ensures 0.5 <= LaunchThreshold(r) < 2.0
    ensures t - lastLaunch <= 0.5 ==> !LaunchDue(t, lastLaunch, r)
    ensures t - lastLaunch >= 2.0 ==> LaunchDue(t, lastLaunch, r)
  {
  }

  /** Every origin lies in x in [-20, 20), y in [10, 25), z in [-20, 0), and the colour is a firework colour. */
  lemma NewBurstBounds(id: nat, draws: seq<real>)
    requires |draws| == 5 && Units(draws)
    ensures var o := NewBurst(id, draws).origin;
      -20.0 <= o.x < 20.0 && 10.0 <= o.y < 25.0 && -20.0 <= o.z < 0.0
    ensures NewBurst(id, draws).color in FireworkPalette
    ensures NewBurst(id, draws).id == id
  {
    assert Unit(draws[1]) && Unit(draws[2]) && Unit(draws[3]) && Unit(draws[4]);
  }

  /** The pool component: the list of live bursts and the two refs. */
  class BackgroundFireworks {
    const isActivated: bool
    var fireworks: seq<Burst>
    var nextId: nat
    var lastLaunch: real

    ghost predicate Valid()
      reads this
    {
      IdsIncreasing(fireworks) && IdsBelow(fireworks, nextId)
    }

    constructor (isActivated: bool)
      ensures Valid()
      ensures this.isActivated == isActivated && fireworks == [] && nextId == 0 && lastLaunch == 0.0
    {
      this.isActivated := isActivated;
      fireworks, nextId, lastLaunch := [], 0, 0.0;
    }

    /** One frame at clock time t, with this frame's draws (threshold, x, y, z, colour). */
    method Frame(t: real, draws: seq<real>) returns (launched: bool)
      requires Valid() && |draws| == 5 && Units(draws)
      modifies this
      ensures Valid()
      ensures launched <==> isActivated && LaunchDue(t, old(lastLaunch), draws[0])
      ensures launched ==> fireworks == old(fireworks) + [NewBurst(old(nextId), draws)] &&
                           nextId == old(nextId) + 1 && lastLaunch == t
      ensures !launched ==> fireworks == old(fireworks) && nextId == old(nextId) && lastLaunch == old(lastLaunch)
    {
      launched := false;
      if !isActivated {
        return;
      }
      if t - lastLaunch > LaunchThreshold(draws[0]) {
        lastLaunch := t;
        var b := NewBurst(nextId, draws);
        AppendKeepsIds(fireworks, b, nextId);
        fireworks := fireworks + [b];
        nextId := nextId + 1;
        launched := true;
      }
    }

    /** removeFirework: drop the burst with this id, keep the others in order. */
    method Remove(id: nat)
      requires Valid()
      modifies this`fireworks
      ensures Valid()
      ensures fireworks == Without(old(fireworks), id)
    {
      WithoutKeepsIds(fireworks, id, nextId);
      fireworks := Without(fireworks, id);
    }
  }

  // ---- One burst ----

  /** Math.random() * 0.5 + 0.1. */
  function ParticleSpeed(r: real): real { r * 0.5 + 0.1 }

  /** The direction of particle i, from its draws (speed, theta, phi) at 3i. */
  function ParticleDirection(draws: seq<real>, i: nat, sin: real -> real, cos: real -> real, acos: real -> real): Vec3
    requires i < BurstParticles && |draws| == BurstBuffer
  {
    var theta := draws[3 * i + 1] * Pi * 2.0;
    var phi := acos(draws[3 * i + 2] * 2.0 - 1.0);
    SphereDirection(sin(phi), cos(phi), sin(theta), cos(theta))
  }

  /** Fade factor (1 - t/2) of the outward motion. */
  function Slowdown(t: real): real { 1.0 - t / 2.0 }

  /** A position slot after one live frame at age t. */
  function Drifted(p: real, dir: real, speed: real, t: real, c: nat): real
  {
    var moved := p + dir * speed * Slowdown(t);
    if c == 1 then moved - Sag * t else moved
  }

  /** A particle's position after one live frame at age t. */
  function DriftedPoint(p: Vec3, dir: Vec3, speed: real, t: real): Vec3
  {
    Vec3(Drifted(p.x, dir.x, speed, t, 0), Drifted(p.y, dir.y, speed, t, 1), Drifted(p.z, dir.z, speed, t, 2))
  }

  /** Math.max(0, 1 - t / 2). */
  function Opacity(t: real): real
  {
    if 1.0 - t / 2.0 > 0.0 then 1.0 - t / 2.0 else 0.0
  }

  lemma ParticleSpeedBounds(r: real)
    requires Unit(r)
    ensures 0.1 <= ParticleSpeed(r) < 0.6
  {
  }

  /** The opacity of a burst of non-negative age is in [0, 1]; during its life it is 1 - t/2. */
  lemma OpacityBounds(t: real)
    requires 0.0 <= t
    ensures 0.0 <= Opacity(t) <= 1.0
    ensures t <= Lifetime ==> Opacity(t) == 1.0 - t / 2.0
  {
  }

  /** While alive, a particle moves outward by at most its speed per frame
      in x and z; y also sags by 0.05 t. */
  lemma DriftBound(p: real, dir: real, speed: real, t: real)
    requires -1.0 <= dir <= 1.0 && 0.0 <= speed && 0.0 <= t <= Lifetime
    ensures -speed <= Drifted(p, dir, speed, t, 0) - p <= speed
    ensures Drifted(p, dir, speed, t, 1) == Drifted(p, dir, speed, t, 0) - Sag * t
  {
    assert 0.0 <= Slowdown(t) <= 1.0;
    ScaleBound(speed, dir);
    assert dir * speed == speed * dir;
    BoundedTimesUnit(dir * speed, speed, Slowdown(t));
  }

  lemma BoundedTimesUnit(a: real, bound: real, f: real)
    requires -bound <= a <= bound && 0.0 <= f <= 1.0
    ensures -bound <= a * f <= bound
  {
    UnitFactor(a, f);
  }

  /** Multiplying by a factor in [0, 1] moves a value towards zero. */
  lemma UnitFactor(a: real, f: real)
    requires 0.0 <= f <= 1.0
    ensures a >= 0.0 ==> 0.0 <= a * f <= a
    ensures a < 0.0 ==> a <= a * f <= 0.0
  {
    if a >= 0.0 {
      ScaleBound(a, f);
      assert a * f >= a * 0.0;
    } else {
      ScaleBound(-a, f);
      assert (-a) * f >= (-a) * 0.0;
      assert (-a) * f == -(a * f);
    }
  }

  /** One burst: speeds, directions and positions of its 300 particles, its age and opacity. */
  class SingleFirework {
    const origin: Vec3
    const color: string
    const speeds: array<real>
    const dirs: array<real>
    const positions: array<real>
    var timeAlive: real
    var opacity: real

    ghost predicate Valid()
      reads this
    {
      speeds.Length == BurstParticles && dirs.Length == BurstBuffer && positions.Length == BurstBuffer &&
      speeds != dirs && speeds != positions && dirs != positions
    }

    /** Mounting: the speed and direction tables from draws (three per
        particle), and every particle at the origin. */
    constructor (origin: Vec3, color: string, draws: seq<real>, sin: real -> real, cos: real -> real, acos: real -> real)
      requires |draws| == BurstBuffer
      ensures Valid()
      ensures this.origin == origin && this.color == color && timeAlive == 0.0 && opacity == 1.0
      ensures forall i :: 0 <= i < BurstParticles ==> speeds[i] == ParticleSpeed(draws[3 * i])
      ensures forall k :: 0 <= k < BurstBuffer ==>
        dirs[k] == Coord(ParticleDirection(draws, Particle(k), sin, cos, acos), Component(k))
      ensures forall k :: 0 <= k < BurstBuffer ==> positions[k] == Coord(origin, Component(k))
    {
      this.origin := origin;
      this.color := color;
      speeds := new real[BurstParticles](_ => 0.0);
      dirs := new real[BurstBuffer](_ => 0.0);
      positions := new real[BurstBuffer](_ => 0.0);
      timeAlive, opacity := 0.0, 1.0;
      new;
      DrawMotion(draws, sin, cos, acos);
      PlaceAtOrigin();
    }

    /** The speeds and dirs tables. */
    method DrawMotion(draws: seq<real>, sin: real -> real, cos: real -> real, acos: real -> real)
      requires Valid() && |draws| == BurstBuffer
      modifies speeds, dirs
      ensures forall i :: 0 <= i < BurstParticles ==> speeds[i] == ParticleSpeed(draws[3 * i])
      ensures forall k :: 0 <= k < BurstBuffer ==>
        dirs[k] == Coord(ParticleDirection(draws, Particle(k), sin, cos, acos), Component(k))
    {
      var i := 0;
      while i < BurstParticles
        invariant 0 <= i <= BurstParticles
        invariant forall j :: 0 <= j < i ==> speeds[j] == ParticleSpeed(draws[3 * j])
        invariant forall k :: 0 <= k < BurstBuffer && Particle(k) < i ==>
          dirs[k] == Coord(ParticleDirection(draws, Particle(k), sin, cos, acos), Component(k))
      {
        speeds[i] := ParticleSpeed(draws[3 * i]);
        WriteTriple(dirs, i, ParticleDirection(draws, i, sin, cos, acos));
        i := i + 1;
      }
    }

    /** initialPositions: the origin for every particle. */
    method PlaceAtOrigin()
      requires Valid()
      modifies positions
      ensures forall k :: 0 <= k < BurstBuffer ==> positions[k] == Coord(origin, Component(k))
    {
      var i := 0;
      while i < BurstParticles
        invariant 0 <= i <= BurstParticles
        invariant forall k :: 0 <= k < BurstBuffer && Particle(k) < i ==> positions[k] == Coord(origin, Component(k))
      {
        WriteTriple(positions, i, origin);
        i := i + 1;
      }
    }

    /** One frame: age by delta; past two seconds report completion and move
        nothing, otherwise drift every particle and fade. */
    method Frame(delta: real) returns (complete: bool)
      requires Valid()
      modifies this`timeAlive, this`opacity, positions
      ensures timeAlive == old(timeAlive) + delta
      ensures complete <==> timeAlive > Lifetime
      ensures complete ==> positions[..] == old(positions[..]) && opacity == old(opacity)
      ensures !complete ==> opacity == Opacity(timeAlive)
      ensures !complete ==> forall k :: 0 <= k < BurstBuffer ==>
        positions[k] == Drifted(old(positions[k]), dirs[k], speeds[Particle(k)], timeAlive, Component(k))
    {
      var t := timeAlive + delta;
      timeAlive := t;
      if t > Lifetime {
        complete := true;
        return;
      }
      complete := false;
      var i := 0;
      while i < BurstParticles
        invariant 0 <= i <= BurstParticles && timeAlive == t
        invariant forall k :: 0 <= k < BurstBuffer ==>
          positions[k] == if Particle(k) < i then Drifted(old(positions[k]), dirs[k], speeds[Particle(k)], t, Component(k))
                          else old(positions[k])
      {
        DriftParticle(i, t);
        i := i + 1;
      }
      opacity := if 0.0 > 1.0 - t / 2.0 then 0.0 else 1.0 - t / 2.0;
    }

    method DriftParticle(i: nat, t: real)
      requires Valid() && i < BurstParticles
      modifies positions
      ensures forall k :: 0 <= k < BurstBuffer ==>
        positions[k] == if Particle(k) == i then Drifted(old(positions[k]), dirs[k], speeds[i], t, Component(k))
                        else old(positions[k])
    {
      var i3 := 3 * i;
      var p := Vec3(positions[i3], positions[i3 + 1], positions[i3 + 2]);
      var d := Vec3(dirs[i3], dirs[i3 + 1], dirs[i3 + 2]);
      WriteTriple(positions, i, DriftedPoint(p, d, speeds[i], t));
      forall k | 0 <= k < BurstBuffer && Particle(k) == i
        ensures k == i3 + Component(k)
      {
      }
    }
  }

  /** Each direction of a burst lies in the unit cube. */
  lemma ParticleDirectionBounds(draws: seq<real>, i: nat, sin: real -> real, cos: real -> real, acos: real -> real)
    requires i < BurstParticles && |draws| == BurstBuffer && IsTrig(sin) && IsTrig(cos)
    ensures InUnitCube(ParticleDirection(draws, i, sin, cos, acos))
  {
    var theta := draws[3 * i + 1] * Pi * 2.0;
    var phi := acos(draws[3 * i + 2] * 2.0 - 1.0);
    SphereDirectionBounds(sin(phi), cos(phi), sin(theta), cos(theta));
  }
}
