/** The name-formation firework: a rocket climbs to height 12, bursts into a
    pool of 7000 particles, and after a pause the particles fly to the
    points of the name's glyphs while the unused ones drop out of view.
    The stage only moves forward: idle, launch, explode, forming. */
module NameSequence {
  import opened Common
  import opened GlyphSampler

  const MaxParticles: nat := 7000
  /** Three floats per particle in every buffer. */
  const BufferSize: nat := 21000
  /** Random values one particle draws when the rocket bursts. */
  const BurstDraws: nat := 7
  /** 7 draws for each of the 7000 particles. */
  const BurstLength: nat := 49000

  const LaunchHeight: real := 12.0
  /** The rocket mesh is mounted at y = -2. */
  const RocketStart: real := -2.0
  const RocketSpeed: real := 12.0
  const Offscreen: real := -1000.0
  /** Target x of a particle that spells no glyph. */
  const FallAway: real := 9999.0
  /** Timers, in seconds: 1000 ms before launch, 1500 ms of burst. */
  const LaunchDelay: real := 1.0
  const FormingDelay: real := 1.5

  const Gravity: real := 0.006
  const Drag: real := 0.95
  const TwinkleChance: real := 0.95
  const Approach: real := 0.04
  const ColorApproach: real := 0.05
  const DropPerTick: real := 0.1
  const DropFloor: real := -10.0

  datatype Stage = Idle | Launch | Explode | Forming

  /** Position of a stage in the only order the sequence allows. */
  function Rank(s: Stage): nat
  {
    match s
    case Idle => 0
    case Launch => 1
    case Explode => 2
    case Forming => 3
  }

  // ---- Glyph targets ----

  /** The glyph points of the name, or none: none without a trigger, for an
      empty name, or when the canvas has no 2D context (raster None). */
  function TextTargets(trigger: bool, name: string, raster: Option<seq<Byte>>): seq<Vec3>
    requires raster.Some? ==> IsRaster(raster.value)
  {
    if !trigger || name == "" then []
    else match raster
      case None => []
      case Some(data) => GlyphPoints(data, FormationLayout)
  }

  /** generateTextParticles: the stride-4 scan of the drawn name, or nothing
      when there is no drawing context. */
  method GenerateTextParticles(raster: Option<seq<Byte>>) returns (points: seq<Vec3>)
    requires raster.Some? ==> IsRaster(raster.value)
    ensures raster.None? ==> points == []
    ensures raster.Some? ==> points == GlyphPoints(raster.value, FormationLayout)
  {
    match raster
    case None => points := [];
    case Some(data) => points := Scan(data, FormationLayout);
  }

  /** No trigger, no name or no context: there is nothing to spell. */
  lemma NoTargetsWithoutText(trigger: bool, name: string, raster: Option<seq<Byte>>)
    requires raster.Some? ==> IsRaster(raster.value)
    requires !trigger || name == "" || raster.None?
    ensures TextTargets(trigger, name, raster) == []
  {
  }

  /** The name never yields more than 128 * 256 targets. */
  lemma TextTargetsBound(trigger: bool, name: string, raster: Option<seq<Byte>>)
    requires raster.Some? ==> IsRaster(raster.value)
    ensures |TextTargets(trigger, name, raster)| <= 128 * 256
  {
    if raster.Some? {
      FormationHitsBound(InkPixels(raster.value));
    }
  }

  // ---- Stage, rocket and timers ----

  /** The time-driven part of the state: the stage, the rocket's position and
      the two pending timers (as due times on the frame clock). */
  datatype Control = Control(stage: Stage, rocketX: real, rocketY: real,
                             launchDue: Option<real>, formingDue: Option<real>)

  /** A launch timer is pending only while idle and triggered, a forming timer
      only while exploding, and nothing leaves idle without the trigger. */
  predicate ControlOk(c: Control, trigger: bool)
  {
    (c.launchDue.Some? ==> c.stage == Idle && trigger) &&
    (c.formingDue.Some? ==> c.stage == Explode) &&
    (c.stage != Idle ==> trigger)
  }

  const Mounted: Control := Control(Idle, 0.0, RocketStart, None, None)

  /** The effect on [trigger, stage]: when triggered and idle, a launch is due one second on. */
  function Armed(c: Control, trigger: bool, now: real): Control
  {
    if trigger && c.stage == Idle then c.(launchDue := Some(now + LaunchDelay)) else c
  }

  /** The timers due by now fire: launch mounts the rocket at its start, the
      forming timer ends the burst. */
  function Elapsed(c: Control, now: real): Control
  {
    var c1 := if c.launchDue.Some? && c.launchDue.value <= now
      then c.(stage := Launch, launchDue := None, rocketX := 0.0, rocketY := RocketStart) else c;
    if c1.formingDue.Some? && c1.formingDue.value <= now
    then c1.(stage := Forming, formingDue := None) else c1
  }

  /** The launch branch of a frame: the rocket climbs delta * 12 and wobbles;
      at height 12 it bursts and the forming timer is set 1.5 s on. */
  function Flown(c: Control, time: real, delta: real, sin: real -> real): Control
  {
    if c.stage != Launch then c
    else
      var y := c.rocketY + delta * RocketSpeed;
      var c1 := c.(rocketX := sin(time * 20.0) * 0.05, rocketY := y);
      if y >= LaunchHeight then c1.(stage := Explode, formingDue := Some(time + FormingDelay)) else c1
  }

  lemma MountedOk(trigger: bool)
    ensures ControlOk(Mounted, trigger)
  {
  }

  /** The launch timer is armed exactly when triggered and idle. */
  lemma ArmedOnlyWhenTriggered(c: Control, trigger: bool, now: real)
    ensures Armed(c, trigger, now) != c ==> trigger && c.stage == Idle
    ensures trigger && c.stage == Idle ==> Armed(c, trigger, now).launchDue == Some(now + LaunchDelay)
    ensures Armed(c, trigger, now).stage == c.stage
  {
  }

  /** Every step keeps the timer discipline. */
  lemma StepsKeepControlOk(c: Control, trigger: bool, time: real, delta: real, sin: real -> real)
    requires ControlOk(c, trigger)
    ensures ControlOk(Armed(c, trigger, time), trigger)
    ensures ControlOk(Elapsed(c, time), trigger)
    ensures ControlOk(Flown(c, time, delta, sin), trigger)
  {
  }

  /** The stage never moves backwards, and each step moves it by at most one. */
  lemma StageOnlyForward(c: Control, trigger: bool, time: real, delta: real, sin: real -> real)
    requires ControlOk(c, trigger)
    ensures Rank(c.stage) <= Rank(Elapsed(c, time).stage) <= Rank(c.stage) + 1
    ensures Rank(c.stage) <= Rank(Flown(c, time, delta, sin).stage) <= Rank(c.stage) + 1
  {
  }

  /** Idle becomes launch only through the elapsed launch timer, which only the trigger arms. */
  lemma LaunchOnlyByTimer(c: Control, trigger: bool, now: real)
    requires ControlOk(c, trigger) && c.stage == Idle
    ensures Elapsed(c, now).stage != Idle <==> c.launchDue.Some? && c.launchDue.value <= now
    ensures Elapsed(c, now).stage != Idle ==> trigger && Elapsed(c, now).stage == Launch
  {
  }

  /** Launch becomes explode exactly when the rocket reaches height 12. */
  lemma ExplodeAtLaunchHeight(c: Control, time: real, delta: real, sin: real -> real)
    requires c.stage == Launch
    ensures Flown(c, time, delta, sin).stage == Explode <==> c.rocketY + delta * RocketSpeed >= LaunchHeight
    ensures Flown(c, time, delta, sin).stage != Explode ==> Flown(c, time, delta, sin).stage == Launch
  {
  }

  /** Explode becomes forming only through the elapsed forming timer; a frame
      changes no stage but launch. */
  lemma FormingOnlyByTimer(c: Control, trigger: bool, time: real, delta: real, sin: real -> real)
    requires ControlOk(c, trigger) && c.stage == Explode
    ensures Elapsed(c, time).stage == Forming <==> c.formingDue.Some? && c.formingDue.value <= time
    ensures Flown(c, time, delta, sin) == c
  {
  }

  // ---- The burst ----

  /** Math.random() * 0.6 + 0.2, times 1.8 for a spike (a draw above 0.85). */
  function BurstSpeed(r: real, spike: real): real
  {
    var s := r * 0.6 + 0.2;
    if spike > 0.85 then s * 1.8 else s
  }

  /** 11 firework colours, gold, white and the tree highlight. */
  const BurstPalette: seq<string> := FireworkPalette + [GoldHex, "#ffffff", TreeHighlight]

  /** Draws of particle i: theta, phi, speed, spike, palette, saturation, lightness. */
  function Draw(burst: seq<real>, i: nat, j: nat): real
    requires i < MaxParticles && j < BurstDraws && |burst| == BurstLength
  {
    burst[7 * i + j]
  }

  /** Velocity of particle i: a random direction on the sphere times its speed. */
  function BurstVelocity(burst: seq<real>, i: nat, sin: real -> real, cos: real -> real, acos: real -> real): Vec3
    requires i < MaxParticles && |burst| == BurstLength
  {
    var theta := Draw(burst, i, 0) * 2.0 * Pi;
    var phi := acos(Draw(burst, i, 1) * 2.0 - 1.0);
    Scale(SphereDirection(sin(phi), cos(phi), sin(theta), cos(theta)), BurstSpeed(Draw(burst, i, 2), Draw(burst, i, 3)))
  }

  /** Colour of particle i: a palette entry, saturation and lightness shifted
      by offsetHSL (host colour work, here the decode and jitter parameters). */
  function BurstColor(burst: seq<real>, i: nat, decode: string -> Color, jitter: (Color, real, real) -> Color): Color
    requires i < MaxParticles && |burst| == BurstLength && Units(burst)
  {
    var slot := PaletteSlot(Draw(burst, i, 4), |BurstPalette|);
    jitter(decode(BurstPalette[slot]), (Draw(burst, i, 5) - 0.5) * 0.1, (Draw(burst, i, 6) - 0.5) * 0.2)
  }

  /** Base speed in [0.2, 0.8); a spike in [0.36, 1.44). */
  lemma BurstSpeedBounds(r: real, spike: real)
    requires Unit(r) && Unit(spike)
    ensures spike <= 0.85 ==> 0.2 <= BurstSpeed(r, spike) < 0.8
    ensures spike > 0.85 ==> BurstSpeed(r, spike) == (r * 0.6 + 0.2) * 1.8 && 0.36 <= BurstSpeed(r, spike) < 1.44
  {
  }

  /** No velocity component exceeds the particle's speed, so none exceeds 1.44. */
  lemma BurstVelocityBounds(burst: seq<real>, i: nat, sin: real -> real, cos: real -> real, acos: real -> real)
    requires i < MaxParticles && |burst| == BurstLength && Units(burst) && IsTrig(sin) && IsTrig(cos)
    ensures var v := BurstVelocity(burst, i, sin, cos, acos);
      -1.44 < v.x < 1.44 && -1.44 < v.y < 1.44 && -1.44 < v.z < 1.44
  {
    var theta := Draw(burst, i, 0) * 2.0 * Pi;
    var phi := acos(Draw(burst, i, 1) * 2.0 - 1.0);
    assert Unit(burst[7 * i + 2]) && Unit(burst[7 * i + 3]);
    BurstSpeedBounds(Draw(burst, i, 2), Draw(burst, i, 3));
    SphereDirectionBounds(sin(phi), cos(phi), sin(theta), cos(theta));
    ScaleBounds(SphereDirection(sin(phi), cos(phi), sin(theta), cos(theta)), BurstSpeed(Draw(burst, i, 2), Draw(burst, i, 3)));
  }

  /** offsetHSL shifts saturation by an amount in [-0.05, 0.05) and lightness by one in [-0.1, 0.1). */
  lemma BurstJitterBounds(burst: seq<real>, i: nat)
    requires i < MaxParticles && |burst| == BurstLength && Units(burst)
    ensures -0.05 <= (Draw(burst, i, 5) - 0.5) * 0.1 < 0.05
    ensures -0.1 <= (Draw(burst, i, 6) - 0.5) * 0.2 < 0.1
  {
    assert Unit(burst[7 * i + 5]) && Unit(burst[7 * i + 6]);
  }

  /** Where the rocket bursts. */
  const BurstOrigin: Vec3 := Vec3(0.0, LaunchHeight, 0.0)

  /** The burst state of every slot: at the launch point, moving with the
      particle's velocity, showing its base colour. */
  ghost predicate BurstState(pos: seq<real>, vel: seq<real>, col: seq<real>, base: seq<real>,
                             burst: seq<real>, sin: real -> real, cos: real -> real, acos: real -> real,
                             decode: string -> Color, jitter: (Color, real, real) -> Color)
    requires |burst| == BurstLength && Units(burst)
  {
    |pos| == |vel| == |col| == |base| == BufferSize &&
    (forall k :: 0 <= k < BufferSize ==> pos[k] == Coord(BurstOrigin, Component(k))) &&
    (forall k :: 0 <= k < BufferSize ==> vel[k] == Coord(BurstVelocity(burst, Particle(k), sin, cos, acos), Component(k))) &&
    (forall k :: 0 <= k < BufferSize ==> base[k] == Channel(BurstColor(burst, Particle(k), decode, jitter), Component(k))) &&
    (forall k :: 0 <= k < BufferSize ==> col[k] == Channel(BurstColor(burst, Particle(k), decode, jitter), Component(k)))
  }

  /** Right after the burst every particle sits at (0, 12, 0) and shows its base colour. */
  lemma BurstStartsAtOrigin(pos: seq<real>, vel: seq<real>, col: seq<real>, base: seq<real>,
                            burst: seq<real>, sin: real -> real, cos: real -> real, acos: real -> real,
                            decode: string -> Color, jitter: (Color, real, real) -> Color, i: nat)
    requires |burst| == BurstLength && Units(burst)
    requires BurstState(pos, vel, col, base, burst, sin, cos, acos, decode, jitter)
    requires i < MaxParticles
    ensures PointAt(pos, i) == BurstOrigin
    ensures PointAt(col, i) == PointAt(base, i) == Rgb(BurstColor(burst, i, decode, jitter))
  {
    SlotOf(i, 0);
    SlotOf(i, 1);
    SlotOf(i, 2);
  }

  /** ... and moves off with its own velocity. */
  lemma BurstVelocityPlaced(pos: seq<real>, vel: seq<real>, col: seq<real>, base: seq<real>,
                            burst: seq<real>, sin: real -> real, cos: real -> real, acos: real -> real,
                            decode: string -> Color, jitter: (Color, real, real) -> Color, i: nat)
    requires |burst| == BurstLength && Units(burst)
    requires BurstState(pos, vel, col, base, burst, sin, cos, acos, decode, jitter)
    requires i < MaxParticles
    ensures PointAt(vel, i) == BurstVelocity(burst, i, sin, cos, acos)
  {
    SlotOf(i, 0);
    SlotOf(i, 1);
    SlotOf(i, 2);
  }

  // ---- Target assignment ----

  /** Slot k of the target buffer after assignment: glyph point i for a text
      particle, x = 9999 otherwise (y and z of such a slot are left as they were). */
  function TargetSlot(prev: real, targets: seq<Vec3>, k: nat): real
  {
    if Particle(k) < |targets| then Coord(targets[Particle(k)], Component(k))
    else if Component(k) == 0 then FallAway
    else prev
  }

  ghost predicate TargetsAssigned(tgt: seq<real>, prev: seq<real>, targets: seq<Vec3>)
  {
    |tgt| == |prev| == BufferSize &&
    forall k :: 0 <= k < BufferSize ==> tgt[k] == TargetSlot(prev[k], targets, k)
  }

  /** Particle i below the glyph count aims at glyph point i; any other aims at x = 9999. */
  lemma TargetsPlaced(tgt: seq<real>, prev: seq<real>, targets: seq<Vec3>, i: nat)
    requires TargetsAssigned(tgt, prev, targets) && i < MaxParticles
    ensures i < |targets| ==> PointAt(tgt, i) == targets[i]
    ensures i >= |targets| ==> PointAt(tgt, i) == Vec3(FallAway, prev[3 * i + 1], prev[3 * i + 2])
  {
    SlotOf(i, 0);
    SlotOf(i, 1);
    SlotOf(i, 2);
  }

  /** Glyph points past the 7000th are never used. */
  lemma TargetsIgnoreSurplus(prev: real, targets: seq<Vec3>, k: nat)
    requires k < BufferSize && |targets| > MaxParticles
    ensures TargetSlot(prev, targets, k) == TargetSlot(prev, targets[..MaxParticles], k)
  {
  }

  // ---- One explode tick ----

  /** Velocity slot after gravity (on y only) and then drag. */
  function DraggedSlot(v: real, c: nat): real
  {
    (if c == 1 then v - Gravity else v) * Drag
  }

  /** Colour slot after a twinkle draw: white above 0.95, base colour otherwise. */
  function TwinkleSlot(base: real, draw: real): real
  {
    if draw > TwinkleChance then 1.0 else base
  }

  ghost predicate ExplodeTicked(pos: seq<real>, vel: seq<real>, col: seq<real>,
                                pos0: seq<real>, vel0: seq<real>, base: seq<real>, twinkle: seq<real>)
  {
    |pos| == |vel| == |col| == |pos0| == |vel0| == |base| == BufferSize && |twinkle| == MaxParticles &&
    forall k :: 0 <= k < BufferSize ==>
      pos[k] == pos0[k] + vel0[k] &&
      vel[k] == DraggedSlot(vel0[k], Component(k)) &&
      col[k] == TwinkleSlot(base[k], twinkle[Particle(k)])
  }

  /** Gravity comes before drag: vy becomes 0.95 vy - 0.0057, vx and vz 0.95 of themselves. */
  lemma ExplodeOrder(v: real)
    ensures DraggedSlot(v, 1) == 0.95 * v - 0.0057
    ensures DraggedSlot(v, 0) == 0.95 * v && DraggedSlot(v, 2) == 0.95 * v
  {
  }

  /** After an explode tick each particle shows exactly white or exactly its base colour. */
  lemma TwinkleWhiteOrBase(pos: seq<real>, vel: seq<real>, col: seq<real>,
                           pos0: seq<real>, vel0: seq<real>, base: seq<real>, twinkle: seq<real>, i: nat)
    requires ExplodeTicked(pos, vel, col, pos0, vel0, base, twinkle) && i < MaxParticles
    ensures PointAt(col, i) == Vec3(1.0, 1.0, 1.0) || PointAt(col, i) == PointAt(base, i)
    ensures PointAt(col, i) == Vec3(1.0, 1.0, 1.0) <== twinkle[i] > TwinkleChance
  {
    SlotOf(i, 0);
    SlotOf(i, 1);
    SlotOf(i, 2);
  }

  /** 0.95 to the n. */
  function DragPower(n: nat): (r: real)
    ensures 0.0 < r <= 1.0
  {
    if n == 0 then 1.0 else Drag * DragPower(n - 1)
  }

  /** A horizontal velocity slot after n explode ticks. */
  function DraggedFor(v: real, n: nat): real
  {
    if n == 0 then v else DraggedSlot(DraggedFor(v, n - 1), 0)
  }

  /** Horizontal speed decays geometrically: after n ticks it is 0.95^n of the start. */
  lemma {:induction false} HorizontalDragDecay(v: real, n: nat)
    ensures DraggedFor(v, n) == DragPower(n) * v
  {
    if n > 0 {
      HorizontalDragDecay(v, n - 1);
    }
  }

  // ---- One forming tick ----

  /** Position slot of a text particle: 4% of the way to its target. */
  function ApproachSlot(p: real, t: real): real { p + (t - p) * Approach }

  /** y of a particle that spells nothing: drop 0.1, park at -1000 once below -10. */
  function DropY(y: real): real
  {
    var d := y - DropPerTick;
    if d < DropFloor then Offscreen else d
  }

  ghost predicate FormTicked(pos: seq<real>, col: seq<real>, pos0: seq<real>, col0: seq<real>,
                             tgt: seq<real>, textCount: nat, text: Color)
  {
    |pos| == |col| == |pos0| == |col0| == |tgt| == BufferSize &&
    forall k :: 0 <= k < BufferSize ==>
      (Particle(k) < textCount ==>
        pos[k] == ApproachSlot(pos0[k], tgt[k]) &&
        col[k] == Lerp(col0[k], Channel(text, Component(k)), ColorApproach)) &&
      (Particle(k) >= textCount ==>
        pos[k] == (if Component(k) == 1 then DropY(pos0[k]) else pos0[k]) &&
        col[k] == col0[k])
  }

  /** The offset to the target becomes exactly 0.96 of what it was. */
  lemma ApproachContracts(p: real, t: real)
    ensures ApproachSlot(p, t) - t == 0.96 * (p - t)
  {
  }

  function Sq(d: real): real { d * d }

  function SqDist(a: Vec3, b: Vec3): real
  {
    Sq(a.x - b.x) + Sq(a.y - b.y) + Sq(a.z - b.z)
  }

  lemma ScaledSquare(d: real)
    ensures Sq(0.96 * d) == 0.9216 * Sq(d)
  {
  }

  /** Distinct points are a positive squared distance apart. */
  lemma SqDistPositive(p: Vec3, t: Vec3)
    requires p != t
    ensures SqDist(p, t) > 0.0
  {
    SquareSign(p.x - t.x, Sq(p.x - t.x));
    SquareSign(p.y - t.y, Sq(p.y - t.y));
    SquareSign(p.z - t.z, Sq(p.z - t.z));
    assert p.x - t.x != 0.0 || p.y - t.y != 0.0 || p.z - t.z != 0.0;
  }

  /** A point moved 4% of the way to t, coordinate by coordinate. */
  function ApproachPoint(p: Vec3, t: Vec3): Vec3
  {
    Vec3(ApproachSlot(p.x, t.x), ApproachSlot(p.y, t.y), ApproachSlot(p.z, t.z))
  }

  /** The squared distance to the target becomes 0.9216 of itself, and
      strictly smaller unless the point is already there. */
  lemma ApproachPointShrinks(p: Vec3, t: Vec3)
    ensures SqDist(ApproachPoint(p, t), t) == 0.9216 * SqDist(p, t)
    ensures p != t ==> SqDist(ApproachPoint(p, t), t) < SqDist(p, t)
  {
    ApproachContracts(p.x, t.x);
    ApproachContracts(p.y, t.y);
    ApproachContracts(p.z, t.z);
    ScaledSquare(p.x - t.x);
    ScaledSquare(p.y - t.y);
    ScaledSquare(p.z - t.z);
    assert SqDist(ApproachPoint(p, t), t) == 0.9216 * SqDist(p, t);
    if p != t {
      SqDistPositive(p, t);
    }
  }

  /** A text particle's squared distance to its target shrinks to 0.9216 of
      itself per tick, so the distance strictly falls unless it is already zero. */
  lemma FormingShrinksDistance(pos: seq<real>, col: seq<real>, pos0: seq<real>, col0: seq<real>,
                               tgt: seq<real>, textCount: nat, text: Color, i: nat)
    requires FormTicked(pos, col, pos0, col0, tgt, textCount, text) && i < MaxParticles && i < textCount
    ensures PointAt(pos, i) == ApproachPoint(PointAt(pos0, i), PointAt(tgt, i))
    ensures SqDist(PointAt(pos, i), PointAt(tgt, i)) == 0.9216 * SqDist(PointAt(pos0, i), PointAt(tgt, i))
    ensures PointAt(pos0, i) != PointAt(tgt, i) ==>
      SqDist(PointAt(pos, i), PointAt(tgt, i)) < SqDist(PointAt(pos0, i), PointAt(tgt, i))
  {
    SlotOf(i, 0);
    SlotOf(i, 1);
    SlotOf(i, 2);
    ApproachPointShrinks(PointAt(pos0, i), PointAt(tgt, i));
  }

  /** The colour of a text particle moves 5% of the way to the text colour. */
  lemma FormingFadesToText(c: real, target: real)
    ensures Lerp(c, target, ColorApproach) - target == 0.95 * (c - target)
  {
  }

  /** 0.96 to the n. */
  function ApproachPower(n: nat): (r: real)
    ensures 0.0 < r <= 1.0
  {
    if n == 0 then 1.0 else 0.96 * ApproachPower(n - 1)
  }

  function ApproachedFor(p: real, t: real, n: nat): real
  {
    if n == 0 then p else ApproachSlot(ApproachedFor(p, t, n - 1), t)
  }

  /** After n forming ticks the offset to the target is 0.96^n of the start. */
  lemma {:induction false} ApproachConverges(p: real, t: real, n: nat)
    ensures ApproachedFor(p, t, n) - t == ApproachPower(n) * (p - t)
  {
    if n > 0 {
      ApproachConverges(p, t, n - 1);
      ApproachContracts(ApproachedFor(p, t, n - 1), t);
    }
  }

  /** -1000 is a fixed point of the drop, and every dropped y is parked or at least -10. */
  lemma DropParks(y: real)
    ensures DropY(Offscreen) == Offscreen
    ensures DropY(y) == Offscreen || DropY(y) >= DropFloor
    ensures y - DropPerTick >= DropFloor ==> DropY(y) == y - DropPerTick
  {
  }

  // ---- The component ----

  class FireworkSequence {
    const trigger: bool
    const name: string
    const textTargets: seq<Vec3>

    var stage: Stage
    var rocketX: real
    var rocketY: real
    var launchDue: Option<real>
    var formingDue: Option<real>

    const positions: array<real>
    const velocities: array<real>
    const targetPositions: array<real>
    const colors: array<real>
    const baseColors: array<real>

    function ControlState(): Control
      reads this
    {
      Control(stage, rocketX, rocketY, launchDue, formingDue)
    }

    ghost predicate Valid()
      reads this
    {
      positions.Length == BufferSize && velocities.Length == BufferSize &&
      targetPositions.Length == BufferSize && colors.Length == BufferSize &&
      baseColors.Length == BufferSize &&
      positions != velocities && positions != targetPositions && positions != colors &&
      positions != baseColors && velocities != targetPositions && velocities != colors &&
      velocities != baseColors && targetPositions != colors && targetPositions != baseColors &&
      colors != baseColors &&
      ControlOk(ControlState(), trigger)
    }

    /** Mounting: the targets are sampled, every buffer is zero but positions'
        y, which is -1000, and the launch effect runs once. */
    constructor (trigger: bool, name: string, raster: Option<seq<Byte>>, now: real)
      requires raster.Some? ==> IsRaster(raster.value)
      ensures Valid()
      ensures fresh(positions) && fresh(velocities) && fresh(targetPositions) && fresh(colors) && fresh(baseColors)
      ensures this.trigger == trigger && this.name == name
      ensures textTargets == TextTargets(trigger, name, raster)
      ensures ControlState() == Armed(Mounted, trigger, now)
      ensures forall k :: 0 <= k < BufferSize ==>
        positions[k] == (if Component(k) == 1 then Offscreen else 0.0) &&
        velocities[k] == 0.0 && targetPositions[k] == 0.0 && colors[k] == 0.0 && baseColors[k] == 0.0
    {
      this.trigger := trigger;
      this.name := name;
      var ts: seq<Vec3> := [];
      if trigger && name != "" {
        ts := GenerateTextParticles(raster);
      }
      textTargets := ts;
      positions := new real[BufferSize](_ => 0.0);
      velocities := new real[BufferSize](_ => 0.0);
      targetPositions := new real[BufferSize](_ => 0.0);
      colors := new real[BufferSize](_ => 0.0);
      baseColors := new real[BufferSize](_ => 0.0);
      stage, rocketX, rocketY, launchDue, formingDue := Idle, 0.0, RocketStart, None, None;
      new;
      PlaceOffscreen();
      ArmLaunchTimer(now);
    }

    /** The initial loop: y = -1000 for every particle. */
    method PlaceOffscreen()
      requires positions.Length == BufferSize
      modifies positions
      ensures forall k :: 0 <= k < BufferSize ==>
        positions[k] == (if Component(k) == 1 then Offscreen else old(positions[k]))
    {
      var i := 0;
      while i < MaxParticles
        invariant 0 <= i <= MaxParticles
        invariant forall k :: 0 <= k < BufferSize ==>
          positions[k] == (if Component(k) == 1 && Particle(k) < i then Offscreen else old(positions[k]))
      {
        SlotOf(i, 1);
        positions[3 * i + 1] := Offscreen;
        i := i + 1;
      }
    }

    /** The launch effect. */
    method ArmLaunchTimer(now: real)
      requires Valid()
      modifies this`launchDue
      ensures Valid()
      ensures ControlState() == Armed(old(ControlState()), trigger, now)
    {
      if trigger && stage == Idle {
        launchDue := Some(now + LaunchDelay);
      }
    }

    /** Timers whose due time has come fire. */
    method TimersElapse(now: real)
      requires Valid()
      modifies this`stage, this`rocketX, this`rocketY, this`launchDue, this`formingDue
      ensures Valid()
      ensures ControlState() == Elapsed(old(ControlState()), now)
    {
      if launchDue.Some? && launchDue.value <= now {
        stage, launchDue, rocketX, rocketY := Launch, None, 0.0, RocketStart;
      }
      if formingDue.Some? && formingDue.value <= now {
        stage, formingDue := Forming, None;
      }
    }

    /** One frame. The particle update uses the stage the frame started in,
        so the frame that bursts the rocket moves no particles. */
    method Frame(time: real, delta: real, sin: real -> real, cos: real -> real, acos: real -> real,
                 decode: string -> Color, jitter: (Color, real, real) -> Color,
                 burst: seq<real>, twinkle: seq<real>)
      requires Valid()
      requires |burst| == BurstLength && Units(burst) && |twinkle| == MaxParticles
      modifies this, positions, velocities, targetPositions, colors, baseColors
      ensures Valid()
      ensures ControlState() == Flown(old(ControlState()), time, delta, sin)
      ensures old(stage) == Launch && stage == Explode ==>
        BurstState(positions[..], velocities[..], colors[..], baseColors[..], burst, sin, cos, acos, decode, jitter) &&
        TargetsAssigned(targetPositions[..], old(targetPositions[..]), textTargets)
      ensures old(stage) == Explode ==>
        ExplodeTicked(positions[..], velocities[..], colors[..], old(positions[..]), old(velocities[..]),
                      baseColors[..], twinkle) &&
        targetPositions[..] == old(targetPositions[..]) && baseColors[..] == old(baseColors[..])
      ensures old(stage) == Forming ==>
        FormTicked(positions[..], colors[..], old(positions[..]), old(colors[..]), targetPositions[..],
                   |textTargets|, decode(TextColorHex)) &&
        velocities[..] == old(velocities[..]) && targetPositions[..] == old(targetPositions[..]) &&
        baseColors[..] == old(baseColors[..])
      ensures old(stage) == Idle || stage == Launch ==>
        positions[..] == old(positions[..]) && velocities[..] == old(velocities[..]) &&
        targetPositions[..] == old(targetPositions[..]) && colors[..] == old(colors[..]) &&
        baseColors[..] == old(baseColors[..])
    {
      var started := stage;
      if started == Launch {
        rocketY := rocketY + delta * RocketSpeed;
        rocketX := sin(time * 20.0) * 0.05;
        if rocketY >= LaunchHeight {
          stage := Explode;
          InitBurst(burst, sin, cos, acos, decode, jitter);
          AssignTargets();
          formingDue := Some(time + FormingDelay);
        }
      } else if started == Explode {
        ExplodeTick(twinkle);
      } else if started == Forming {
        FormingTick(decode(TextColorHex));
      }
    }

    /** The burst loop: every particle to (0, 12, 0) with its own velocity and colour. */
    method InitBurst(burst: seq<real>, sin: real -> real, cos: real -> real, acos: real -> real,
                     decode: string -> Color, jitter: (Color, real, real) -> Color)
      requires Valid()
      requires |burst| == BurstLength && Units(burst)
      modifies positions, velocities, colors, baseColors
      ensures BurstState(positions[..], velocities[..], colors[..], baseColors[..], burst, sin, cos, acos, decode, jitter)
    {
      var i := 0;
      while i < MaxParticles
        invariant 0 <= i <= MaxParticles
        invariant forall k :: 0 <= k < BufferSize && Particle(k) < i ==>
          positions[k] == Coord(BurstOrigin, Component(k))
        invariant forall k :: 0 <= k < BufferSize && Particle(k) < i ==>
          velocities[k] == Coord(BurstVelocity(burst, Particle(k), sin, cos, acos), Component(k))
        invariant forall k :: 0 <= k < BufferSize && Particle(k) < i ==>
          baseColors[k] == Channel(BurstColor(burst, Particle(k), decode, jitter), Component(k))
        invariant forall k :: 0 <= k < BufferSize && Particle(k) < i ==>
          colors[k] == Channel(BurstColor(burst, Particle(k), decode, jitter), Component(k))
      {
        ghost var p0, v0, c0, b0 := positions[..], velocities[..], colors[..], baseColors[..];
        var col := BurstColor(burst, i, decode, jitter);
        WriteTriple(positions, i, BurstOrigin);
        WriteTriple(velocities, i, BurstVelocity(burst, i, sin, cos, acos));
        WriteTriple(colors, i, Rgb(col));
        WriteTriple(baseColors, i, Rgb(col));
        forall k | 0 <= k < BufferSize && Particle(k) < i + 1 ensures positions[k] == Coord(BurstOrigin, Component(k)) {
          assert positions[k] == if Particle(k) == i then Coord(BurstOrigin, Component(k)) else p0[k];
        }
        forall k | 0 <= k < BufferSize && Particle(k) < i + 1
          ensures velocities[k] == Coord(BurstVelocity(burst, Particle(k), sin, cos, acos), Component(k))
        {
          assert velocities[k] == if Particle(k) == i then Coord(BurstVelocity(burst, i, sin, cos, acos), Component(k)) else v0[k];
        }
        forall k | 0 <= k < BufferSize && Particle(k) < i + 1
          ensures colors[k] == Channel(BurstColor(burst, Particle(k), decode, jitter), Component(k))
        {
          assert colors[k] == if Particle(k) == i then Coord(Rgb(col), Component(k)) else c0[k];
        }
        forall k | 0 <= k < BufferSize && Particle(k) < i + 1
          ensures baseColors[k] == Channel(BurstColor(burst, Particle(k), decode, jitter), Component(k))
        {
          assert baseColors[k] == if Particle(k) == i then Coord(Rgb(col), Component(k)) else b0[k];
        }
        i := i + 1;
      }
    }

    /** The target loop. */
    method AssignTargets()
      requires Valid()
      modifies targetPositions
      ensures TargetsAssigned(targetPositions[..], old(targetPositions[..]), textTargets)
    {
      var i := 0;
      while i < MaxParticles
        invariant 0 <= i <= MaxParticles
        invariant forall k :: 0 <= k < BufferSize ==>
          targetPositions[k] == if Particle(k) < i then TargetSlot(old(targetPositions[k]), textTargets, k)
                                else old(targetPositions[k])
      {
        var i3 := 3 * i;
        SlotOf(i, 0);
        SlotOf(i, 1);
        SlotOf(i, 2);
        if i < |textTargets| {
          var t := textTargets[i];
          targetPositions[i3], targetPositions[i3 + 1], targetPositions[i3 + 2] := t.x, t.y, t.z;
        } else {
          targetPositions[i3] := FallAway;
        }
        i := i + 1;
      }
    }

    /** The explode branch of the particle loop. */
    method ExplodeTick(twinkle: seq<real>)
      requires Valid() && |twinkle| == MaxParticles
      modifies positions, velocities, colors
      ensures ExplodeTicked(positions[..], velocities[..], colors[..], old(positions[..]), old(velocities[..]),
                            baseColors[..], twinkle)
    {
      var i := 0;
      while i < MaxParticles
        invariant 0 <= i <= MaxParticles
        invariant forall k :: 0 <= k < BufferSize ==>
          if Particle(k) < i then
            positions[k] == old(positions[k]) + old(velocities[k]) &&
            velocities[k] == DraggedSlot(old(velocities[k]), Component(k)) &&
            colors[k] == TwinkleSlot(baseColors[k], twinkle[Particle(k)])
          else
            positions[k] == old(positions[k]) && velocities[k] == old(velocities[k]) && colors[k] == old(colors[k])
      {
        ExplodeParticle(i, twinkle[i]);
        i := i + 1;
      }
    }

    method ExplodeParticle(i: nat, draw: real)
      requires Valid() && i < MaxParticles
      modifies positions, velocities, colors
      ensures forall k :: 0 <= k < BufferSize ==>
        if Particle(k) == i then
          positions[k] == old(positions[k]) + old(velocities[k]) &&
          velocities[k] == DraggedSlot(old(velocities[k]), Component(k)) &&
          colors[k] == TwinkleSlot(baseColors[k], draw)
        else
          positions[k] == old(positions[k]) && velocities[k] == old(velocities[k]) && colors[k] == old(colors[k])
    {
      var i3 := 3 * i;
      SlotOf(i, 0);
      SlotOf(i, 1);
      SlotOf(i, 2);
      positions[i3] := positions[i3] + velocities[i3];
      positions[i3 + 1] := positions[i3 + 1] + velocities[i3 + 1];
      positions[i3 + 2] := positions[i3 + 2] + velocities[i3 + 2];
      velocities[i3 + 1] := velocities[i3 + 1] - Gravity;
      velocities[i3] := velocities[i3] * Drag;
      velocities[i3 + 1] := velocities[i3 + 1] * Drag;
      velocities[i3 + 2] := velocities[i3 + 2] * Drag;
      if draw > TwinkleChance {
        colors[i3], colors[i3 + 1], colors[i3 + 2] := 1.0, 1.0, 1.0;
      } else {
        colors[i3], colors[i3 + 1], colors[i3 + 2] := baseColors[i3], baseColors[i3 + 1], baseColors[i3 + 2];
      }
      forall k | 0 <= k < BufferSize
        ensures if Particle(k) == i then
          positions[k] == old(positions[k]) + old(velocities[k]) &&
          velocities[k] == DraggedSlot(old(velocities[k]), Component(k)) &&
          colors[k] == TwinkleSlot(baseColors[k], draw)
        else
          positions[k] == old(positions[k]) && velocities[k] == old(velocities[k]) && colors[k] == old(colors[k])
      {
        ParticleRange(k, i);
      }
    }

    /** The forming branch of the particle loop. */
    method FormingTick(text: Color)
      requires Valid()
      modifies positions, colors
      ensures FormTicked(positions[..], colors[..], old(positions[..]), old(colors[..]), targetPositions[..],
                         |textTargets|, text)
    {
      var i := 0;
      while i < MaxParticles
        invariant 0 <= i <= MaxParticles
        invariant forall k :: 0 <= k < BufferSize ==>
          if Particle(k) < i then FormedSlot(k, old(positions[k]), old(colors[k]), text)
          else positions[k] == old(positions[k]) && colors[k] == old(colors[k])
      {
        FormParticle(i, text);
        i := i + 1;
      }
    }

    /** Slot k after the forming step, given its old position and colour. */
    ghost predicate FormedSlot(k: nat, p0: real, c0: real, text: Color)
      requires Valid() && k < BufferSize
      reads this, positions, colors, targetPositions
    {
      (Particle(k) < |textTargets| ==>
        positions[k] == ApproachSlot(p0, targetPositions[k]) &&
        colors[k] == Lerp(c0, Channel(text, Component(k)), ColorApproach)) &&
      (Particle(k) >= |textTargets| ==>
        positions[k] == (if Component(k) == 1 then DropY(p0) else p0) &&
        colors[k] == c0)
    }

    method FormParticle(i: nat, text: Color)
      requires Valid() && i < MaxParticles
      modifies positions, colors
      ensures forall k :: 0 <= k < BufferSize ==>
        if Particle(k) == i then FormedSlot(k, old(positions[k]), old(colors[k]), text)
        else positions[k] == old(positions[k]) && colors[k] == old(colors[k])
    {
      var i3 := 3 * i;
      SlotOf(i, 0);
      SlotOf(i, 1);
      SlotOf(i, 2);
      if i < |textTargets| {
        var tx, ty, tz := targetPositions[i3], targetPositions[i3 + 1], targetPositions[i3 + 2];
        positions[i3] := positions[i3] + (tx - positions[i3]) * Approach;
        positions[i3 + 1] := positions[i3 + 1] + (ty - positions[i3 + 1]) * Approach;
        positions[i3 + 2] := positions[i3 + 2] + (tz - positions[i3 + 2]) * Approach;
        colors[i3] := Lerp(colors[i3], text.r, ColorApproach);
        colors[i3 + 1] := Lerp(colors[i3 + 1], text.g, ColorApproach);
        colors[i3 + 2] := Lerp(colors[i3 + 2], text.b, ColorApproach);
      } else {
        positions[i3 + 1] := positions[i3 + 1] - DropPerTick;
        if positions[i3 + 1] < DropFloor {
          positions[i3 + 1] := Offscreen;
        }
      }
    }
  }
}
