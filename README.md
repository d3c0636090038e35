# tree-fin particle engine, modelled in Dafny

tree-fin is a small 3D greeting scene: a particle Christmas tree with ornaments and a heart topper, snow, a rippling floor, background fireworks, and a firework that climbs, bursts and then spells the visitor's name in the sky, with the name repeated on a side panel. This project models how those particle systems behave: the buffers they fill, the per-frame updates they run, the random draws they use, and the stage machine of the name firework. It proves the bounds, orderings and "nothing else changes" facts those updates keep.

Modules (one per source component, plus two shared ones):

- `Common` holds the shared values: points, colours, palettes, unit random draws, and the flat xyz buffer layout. Particle `i` owns slots `3i`, `3i + 1` and `3i + 2`. It also holds the predicates that bound the host's `sin`, `cos`, `exp`, `pow` and `sqrt`.
- `GlyphSampler` is the raster scan shared by the sky name and the side name.
- `NameSequence` is `FireworkSequence.tsx`: the stage machine `idle → launch → explode → forming`, and the 7000-particle pool.
- `BackgroundFireworks` is the burst pool, plus the `SingleFirework` class for one burst.
- `Snow`, `SideName`, `Tree` (foliage, ornaments, heart topper) and `Floor` model the components of the same names.

Conventions used throughout:

- **Randomness.** Every `Math.random()` call reads one value from a supplied `seq<real>` of draws in `[0, 1)`. Setup loops give each particle a fixed block of draws: draw `j` of particle `i` is at `D*i + j`. The heart sampler instead reads three draws per attempt, with no fixed number of attempts per point. Per-frame draws come in a fresh sequence supplied with each frame: one twinkle draw per sky particle, two reset draws per snowflake, and five launch draws per background frame.
- **Transcendental functions.** `sin`, `cos`, `acos`, `exp`, `pow` and `sqrt` are function parameters. The bound lemmas require only `IsTrig`, `IsExp`, `IsPow` and `IsSqrt`, which state `|sin| <= 1` and similar facts.
- **Colours.** THREE.Color's hex parsing is the parameter `decode`. Its `offsetHSL` is the parameter `jitter` (or `offset`).
- **State.** Each component whose buffers are written in place is a class with `array<real>` fields. Its `useMemo` loops are constructor helpers and its `useFrame` body is a `Frame` method. Timers are due times handled by explicit event methods.

## Model

| member | source | states |
|---|---|---|
| GlyphSampler.InkPixelsMeans | components/FireworkSequence.tsx:42-44 | a pixel counts as ink exactly when it lies on the 1024 x 512 canvas and its red byte, at (y * 1024 + x) * 4, is above 128; that index always lies inside the raster |
| GlyphSampler.Scan | components/FireworkSequence.tsx:37-52 | the nested scan loop returns one point per inked sampled pixel, in scan order: the affine world image of the k-th hit |
| GlyphSampler.ScanRow | components/FireworkSequence.tsx:41-50 | one row of the scan appends exactly that row's inked sampled pixels, left to right, each mapped to world space |
| GlyphSampler.HitsSound | components/FireworkSequence.tsx:40-44 | every emitted pixel is inked and lies on the stride grid in both x and y |
| GlyphSampler.HitsComplete | components/FireworkSequence.tsx:40-44 | every inked pixel on the stride grid is emitted |
| GlyphSampler.HitsOrdered | components/FireworkSequence.tsx:40-41 | the hits come out in strictly increasing row-major order (y outer, x inner), so no pixel is emitted twice |
| GlyphSampler.OnGridIsDivisibility | components/FireworkSequence.tsx:40-41 | for strides 3 and 4, "visited by the loop" means "a multiple of the stride" |
| GlyphSampler.FormationHitsBound | components/FireworkSequence.tsx:39-41 | the stride-4 scan emits at most 128 * 256 points |
| GlyphSampler.SideHitsBound | components/SideName.tsx:38-40 | the stride-3 scan emits at most 171 * 342 points |
| GlyphSampler.BlankRasterHasNoPoints | components/FireworkSequence.tsx:40-51 | a canvas on which no pixel's red byte is above 128 yields no points; the alpha and other bytes are not constrained |
| GlyphSampler.BlackCanvasHasNoPoints | components/FireworkSequence.tsx:23-24 | the canvas as painted black (every red, green and blue byte 0, alpha bytes arbitrary, so opaque black included) yields no points |
| NameSequence.GenerateTextParticles | components/FireworkSequence.tsx:12-53 | with no 2D context the result is empty; otherwise it is the stride-4 scan mapped to ((x - 512) * 0.03, -(y - 256) * 0.03 + 12, 0) |
| NameSequence.NoTargetsWithoutText | components/FireworkSequence.tsx:66-69 | with no trigger, an empty name or no context there are no text targets |
| NameSequence.TextTargetsBound | components/FireworkSequence.tsx:66-69 | the text targets number at most 128 * 256 |
| NameSequence.MountedOk | components/FireworkSequence.tsx:56-57 | the mounted state (idle, no timers) satisfies the timer discipline |
| NameSequence.ArmedOnlyWhenTriggered | components/FireworkSequence.tsx:87-92 | the effect changes the state only when triggered and idle, and then sets a launch due one second later, without changing the stage |
| NameSequence.StepsKeepControlOk | components/FireworkSequence.tsx:87-164 | the effect, the timers and the launch branch each keep the discipline: a launch timer only while idle and triggered, a forming timer only while exploding, and no stage but idle without the trigger |
| NameSequence.StageOnlyForward | components/FireworkSequence.tsx:88-162 | no step moves the stage backwards, and none moves it by more than one |
| NameSequence.LaunchOnlyByTimer | components/FireworkSequence.tsx:88-89 | idle becomes launch exactly when the launch timer has come due, and only with the trigger |
| NameSequence.ExplodeAtLaunchHeight | components/FireworkSequence.tsx:98-103 | launch becomes explode exactly when the rocket's new y reaches 12, and otherwise stays launch |
| NameSequence.FormingOnlyByTimer | components/FireworkSequence.tsx:162 | explode becomes forming exactly when the 1.5 s timer has come due; a frame never changes the explode state itself |
| NameSequence.BurstSpeedBounds | components/FireworkSequence.tsx:125-128 | the base speed lies in [0.2, 0.8); a spike (draw above 0.85) multiplies it by 1.8, into [0.36, 1.44) |
| NameSequence.BurstVelocityBounds | components/FireworkSequence.tsx:121-132 | no velocity component reaches 1.44 in magnitude |
| NameSequence.BurstJitterBounds | components/FireworkSequence.tsx:138 | the HSL jitter moves saturation by an amount in [-0.05, 0.05) and lightness by one in [-0.1, 0.1) |
| NameSequence.BurstStartsAtOrigin | components/FireworkSequence.tsx:112-147 | after the burst every one of the 7000 particles is at (0, 12, 0), and its displayed colour equals its base colour |
| NameSequence.BurstVelocityPlaced | components/FireworkSequence.tsx:130-132 | after the burst each particle's velocity is its drawn direction times its drawn speed |
| NameSequence.TargetsPlaced | components/FireworkSequence.tsx:150-159 | a particle below the glyph count aims at its own glyph point; any other gets target x = 9999, with y and z left as they were |
| NameSequence.TargetsIgnoreSurplus | components/FireworkSequence.tsx:150-152 | glyph points past the 7000th have no effect on the targets |
| NameSequence.ExplodeOrder | components/FireworkSequence.tsx:181-186 | gravity comes before drag: vy becomes 0.95 vy - 0.0057, while vx and vz become 0.95 of themselves |
| NameSequence.TwinkleWhiteOrBase | components/FireworkSequence.tsx:190-199 | after an explode tick each colour is exactly white or exactly the base colour, and it is white when the draw is above 0.95 |
| NameSequence.HorizontalDragDecay | components/FireworkSequence.tsx:184 | after n explode ticks a horizontal velocity is 0.95^n times its start |
| NameSequence.ApproachContracts | components/FireworkSequence.tsx:211-213 | one forming tick makes a coordinate's offset to its target exactly 0.96 of what it was |
| NameSequence.ApproachPointShrinks | components/FireworkSequence.tsx:211-213 | the squared distance to the target becomes 0.9216 of itself, and strictly smaller unless the point is already on its target |
| NameSequence.FormingShrinksDistance | components/FireworkSequence.tsx:203-213 | after a forming tick, each text particle's squared distance to its target buffer entry is 0.9216 of the old one |
| NameSequence.FormingFadesToText | components/FireworkSequence.tsx:216-219 | a text particle's colour offset from the text colour becomes 0.95 of itself |
| NameSequence.ApproachConverges | components/FireworkSequence.tsx:211 | after n forming ticks the offset to the target is 0.96^n of the start |
| NameSequence.DropParks | components/FireworkSequence.tsx:223-224 | -1000 is a fixed point of the drop; every dropped y is either parked at -1000 or at least -10; a y that does not fall below -10 drops by exactly 0.1 |
| NameSequence.FireworkSequence.constructor | components/FireworkSequence.tsx:66-92 | on mount the targets are sampled. Every buffer is zero except positions' y, which is -1000. The launch effect has run once |
| NameSequence.FireworkSequence.PlaceOffscreen | components/FireworkSequence.tsx:80-82 | the y slot of every particle becomes -1000; no other slot changes |
| NameSequence.FireworkSequence.ArmLaunchTimer | components/FireworkSequence.tsx:87-92 | the new state is the armed state, and the discipline holds |
| NameSequence.FireworkSequence.TimersElapse | components/FireworkSequence.tsx:89 | the launch timer and the forming timer (set at line 162) fire once due; the new state is the elapsed state |
| NameSequence.FireworkSequence.Frame | components/FireworkSequence.tsx:94-231 | the stage and rocket follow the launch branch. The frame that bursts the rocket writes the burst state and the targets. An explode or forming frame applies its tick to the buffers. Idle and launch frames leave every buffer unchanged |
| NameSequence.FireworkSequence.InitBurst | components/FireworkSequence.tsx:112-147 | every particle is at (0, 12, 0), has its drawn velocity, and shows its drawn colour in both colour buffers |
| NameSequence.FireworkSequence.AssignTargets | components/FireworkSequence.tsx:150-159 | every target slot is assigned as TargetsPlaced describes |
| NameSequence.FireworkSequence.ExplodeTick | components/FireworkSequence.tsx:171-199 | every slot's position gains its old velocity, its velocity gets gravity and then drag, and its colour twinkles or reverts to the base colour |
| NameSequence.FireworkSequence.ExplodeParticle | components/FireworkSequence.tsx:174-199 | the explode step changes particle i's three slots and no others |
| NameSequence.FireworkSequence.FormingTick | components/FireworkSequence.tsx:201-226 | text particles approach their targets by 4% and fade 5% toward the text colour; the others drop and park, keeping x, z and colour |
| NameSequence.FireworkSequence.FormParticle | components/FireworkSequence.tsx:203-225 | the forming step changes particle i's three slots and no others |
| BackgroundFireworks.WithoutMembers | components/BackgroundFireworks.tsx:111-113 | removeFirework keeps exactly the entries whose id differs from the removed one |
| BackgroundFireworks.WithoutAppend | components/BackgroundFireworks.tsx:103-113 | filtering commutes with appending, so the survivors keep their relative order |
| BackgroundFireworks.WithoutAbsent | components/BackgroundFireworks.tsx:111-113 | removing an id that no entry has leaves the list unchanged |
| BackgroundFireworks.WithoutKeepsIds | components/BackgroundFireworks.tsx:111-113 | after a removal the ids still strictly increase and stay below nextId |
| BackgroundFireworks.AppendKeepsIds | components/BackgroundFireworks.tsx:103-107 | appending a burst with id nextId keeps the ids strictly increasing and below nextId + 1 |
| BackgroundFireworks.WithoutDropsOne | components/BackgroundFireworks.tsx:111-113 | with increasing ids, removing a present id drops exactly one entry |
| BackgroundFireworks.LaunchGap | components/BackgroundFireworks.tsx:93-94 | the launch threshold lies in [0.5, 2): no launch within 0.5 s of the last one, and always a launch after 2 s |
| BackgroundFireworks.NewBurstBounds | components/BackgroundFireworks.tsx:97-107 | a new burst takes id nextId, starts in x in [-20, 20), y in [10, 25) and z in [-20, 0), and has a firework palette colour |
| BackgroundFireworks.BackgroundFireworks.constructor | components/BackgroundFireworks.tsx:85-87 | the pool starts empty, with nextId 0 and lastLaunch 0 |
| BackgroundFireworks.BackgroundFireworks.Frame | components/BackgroundFireworks.tsx:89-109 | a launch happens exactly when the pool is activated and the gap exceeds the drawn threshold. A launch appends the new burst, bumps nextId and sets lastLaunch to t. Otherwise nothing changes. Ids stay increasing |
| BackgroundFireworks.BackgroundFireworks.Remove | components/BackgroundFireworks.tsx:111-113 | the pool becomes its filter by id, and its ids stay increasing |
| BackgroundFireworks.ParticleSpeedBounds | components/BackgroundFireworks.tsx:16 | a burst particle's speed lies in [0.1, 0.6) |
| BackgroundFireworks.ParticleDirectionBounds | components/BackgroundFireworks.tsx:17-21 | every direction component lies in [-1, 1] |
| BackgroundFireworks.OpacityBounds | components/BackgroundFireworks.tsx:53-54 | the opacity max(0, 1 - t/2) lies in [0, 1], and during the two-second life it equals 1 - t/2 |
| BackgroundFireworks.DriftBound | components/BackgroundFireworks.tsx:42-48 | while alive, a particle moves by at most its speed per coordinate per frame; y additionally sags by 0.05 t |
| BackgroundFireworks.SingleFirework.constructor | components/BackgroundFireworks.tsx:12-65 | the speeds and directions come from three draws per particle, all 300 particles start at the origin, the age is 0 and the opacity is 1 |
| BackgroundFireworks.SingleFirework.DrawMotion | components/BackgroundFireworks.tsx:12-24 | speed i is draw 3i * 0.5 + 0.1, and direction i is the sphere direction from draws 3i + 1 and 3i + 2 |
| BackgroundFireworks.SingleFirework.PlaceAtOrigin | components/BackgroundFireworks.tsx:57-65 | every particle's slots hold the origin |
| BackgroundFireworks.SingleFirework.Frame | components/BackgroundFireworks.tsx:28-55 | the age grows by delta. Once it exceeds 2 the frame reports completion and moves nothing. Otherwise every slot drifts and the opacity becomes max(0, 1 - t/2) |
| BackgroundFireworks.SingleFirework.DriftParticle | components/BackgroundFireworks.tsx:40-49 | only particle i's slots move, each by dir * speed * (1 - t/2), and y also by -0.05 t |
| Snow.InitialFlakeBounds | components/Snow.tsx:15-18 | a flake starts with x and z in [-25, 25), y in [5, 35) and speed in [0.02, 0.07) |
| Snow.FallenKeepsBand | components/Snow.tsx:30-39 | after a tick y is never below -5, and a flake in the band [-5, 35) stays in it |
| Snow.FallenCases | components/Snow.tsx:30-39 | a flake either falls by exactly its speed with z unchanged, or is reset to y = 25 at fresh x and z in [-25, 25) |
| Snow.WobbleBound | components/Snow.tsx:33 | the wobble uses the decremented y and moves x by at most 0.01 |
| Snow.Snow.constructor | components/Snow.tsx:10-21 | each flake is placed from its four draws, and the band and speed invariants hold |
| Snow.Snow.Scatter | components/Snow.tsx:13-19 | flake i is at InitialFlake of draws 4i .. 4i + 2, with speed from draw 4i + 3; every flake is in the band |
| Snow.Snow.Tick | components/Snow.tsx:23-43 | every flake becomes its Fallen image, the band invariant is preserved, and the speeds are never written |
| SideName.SidePointsIffInk | components/SideName.tsx:16-53 | some point is produced exactly when a context exists and some pixel of the stride-3 grid has a red byte above 128 |
| SideName.SidePointsBound | components/SideName.tsx:38-49 | the side name has at most 171 * 342 points |
| SideName.SidePointPlacement | components/SideName.tsx:43-46 | point i is hit i mapped to ((x - 512) * 0.04, -(y - 256) * 0.04, 0) |
| SideName.ShimmerBounds | components/SideName.tsx:67-76 | a shimmering point keeps its base x, stays within 0.1 of its base y, and within 0.05 of z = 0 |
| SideName.FromPoints | components/SideName.tsx:51-52 | new Float32Array(points) is a fresh buffer spelling the points' coordinates in order |
| SideName.SideName.constructor | components/SideName.tsx:16-53 | the shown buffer and the base copy are distinct fresh arrays with equal contents: the flattened side points, empty without a context |
| SideName.SideName.RendersIffPoints | components/SideName.tsx:81 | the component renders exactly when there is at least one point |
| SideName.SideName.Frame | components/SideName.tsx:55-79 | each of the positions.Length / 3 particles becomes the shimmer of its base point, and the base copy is unchanged |
| Tree.FracPartBounds | components/Tree.tsx:237 | JavaScript's x % 1 of a non-negative x lies in [0, 1) |
| Tree.LayerPhaseBounds | components/Tree.tsx:237 | the layer phase lies in [0, 1) |
| Tree.BranchExtensionBounds | components/Tree.tsx:243 | for a phase in [0, 1) the branch extension lies in (0.6, 1] |
| Tree.DroopBounds | components/Tree.tsx:255 | for a radius in [0, 7.5] the droop lies in [0, 1.5] |
| Tree.BranchPointBounds | components/Tree.tsx:250-259 | a branch point lies within its radius of the trunk in x and z, and 2.5 + droop below its height |
| Tree.FoliageRadiusBounds | components/Tree.tsx:233-248 | y lies in [0, 12), the phase in [0, 1) and the extension in (0.6, 1]; the radius lies between 0 and coneRadius * extension, which is at most 7.5 |
| Tree.FoliagePointBounds | components/Tree.tsx:250-259 | a foliage point lies within its radius in x and z, at y - 2.5 - droop, with droop in [0, 1.5] |
| Tree.BucketBands | components/Tree.tsx:263-271 | primary exactly when rand > 0.4, secondary exactly when 0.15 < rand <= 0.4, highlight otherwise |
| Tree.OnlyPrimaryJittered | components/Tree.tsx:273-277 | a secondary or highlight point gets its bucket colour exactly, whatever the jitter draws |
| Tree.JitterBounds | components/Tree.tsx:276 | the primary jitter moves saturation by an amount in [-0.025, 0.025) and lightness by one in [-0.1, 0.1) |
| Tree.BucketColor | components/Tree.tsx:262-277 | the colour step computes the foliage colour of its three draws |
| Tree.Preset | components/Tree.tsx:293-299 | the material is one of two presets, (0.14, 0.95) or (0.12, 0.8), and the larger size comes exactly with activation |
| Tree.PresetBrighter | components/Tree.tsx:293-299 | the activated preset is larger and more opaque than the idle one |
| Tree.Tree.constructor | components/Tree.tsx:217-284 | every foliage point and colour comes from its six draws; the rotation is 0 and the material is size 0.12, opacity 1 |
| Tree.Tree.Grow | components/Tree.tsx:229-282 | point i is the foliage point of draws 6i .. 6i + 2, and colour i is the foliage colour of draws 6i + 3 .. 6i + 5 |
| Tree.Tree.Frame | components/Tree.tsx:286-300 | the tree turns to -0.1 * time, and the material takes the preset of the activation state |
| Tree.OrnamentBounds | components/Tree.tsx:100-112 | an ornament's height lies in [0.5, 11.5); its radius is coneRadius * extension * f with f in [0.9, 1.05), so it is positive and below 7.875 |
| Tree.OrnamentColorInPalette | components/Tree.tsx:123-124 | each ornament colour is one of the seven ornament palette colours |
| Tree.GenerateOrnamentData | components/Tree.tsx:93-131 | returns fresh, distinct buffers of 3 * count slots; ornament i's position and colour come from draws 4i .. 4i + 3 |
| Tree.SwayBounds | components/Tree.tsx:139-148 | both ornament sets turn at -0.1 t, off by at most 0.05; the large set bobs by at most 0.05 and the small set by at most 0.03 |
| Tree.Ornaments.constructor | components/Tree.tsx:133-134 | 140 large and 250 small ornaments, each set generated from its own draws |
| Tree.Ornaments.Frame | components/Tree.tsx:136-149 | each frame sets the sway of both sets |
| Tree.HeartPointsCount | components/Tree.tsx:16-37 | the sampler yields min(1200, accepted triples) points, so exactly 1200 once the draws hold that many hits |
| Tree.HeartPlacedInside | components/Tree.tsx:30-34 | an accepted sample, scaled by 0.6 and raised by 0.2, is a stored heart point |
| Tree.HeartPointsInside | components/Tree.tsx:16-37 | every stored point lies in x, z in [-0.9, 0.9) and y in [-0.7, 1.1), and its unscaled coordinates satisfy value < 0 |
| Tree.CentreInHeart | components/Tree.tsx:18-33 | the centre of the sampling cube is accepted, so the sampler can make progress |
| Tree.SampleHeart | components/Tree.tsx:12-39 | the while loop builds the flat buffer of the reference sampler's points |
| Tree.BeatBounds | components/Tree.tsx:46 | the heartbeat scale lies in [1, 1.1] |
| Tree.ParticleTopper.constructor | components/Tree.tsx:12-39 | the topper holds the sampled heart points, unrotated at scale 1 |
| Tree.ParticleTopper.Frame | components/Tree.tsx:43-52 | the heart turns to rotation y = t and is scaled by the beat |
| Floor.DiscBounds | components/Floor.tsx:23-33 | a radius lies in [1, 31); the mix ratio is radius / 35 and lies strictly between 0 and 1 |
| Floor.DiscPointBounds | components/Floor.tsx:23-28 | a floor point starts at y = -3, within its radius of the centre in x and z |
| Floor.RippleSettings | components/Floor.tsx:48-50 | (speed, ampBase) is (2, 0.25) when activated and (1, 0.1) otherwise |
| Floor.Opacity | components/Floor.tsx:91 | the opacity is 0.8 exactly when activated, and 0.5 otherwise |
| Floor.RippledBounds | components/Floor.tsx:54-65 | the ripple keeps x and z, and keeps y within ampBase of -3 |
| Floor.DampingBounds | components/Floor.tsx:56-60 | the distance is non-negative, so the damping exp(-0.03 dist) lies in (0, 1] |
| Floor.RippledIdempotent | components/Floor.tsx:52-66 | for a fixed time, applying the ripple twice is the same as applying it once |
| Floor.Floor.constructor | components/Floor.tsx:12-40 | the 35000 points and colours are laid out from two draws per point |
| Floor.Floor.Lay | components/Floor.tsx:20-38 | point i is the disc point of draws 2i and 2i + 1, and colour i is white lerped toward blue by the point's mix ratio |
| Floor.Floor.Frame | components/Floor.tsx:42-68 | every point becomes its rippled image; no slot except a y slot changes |

## Left out

- Rendering is not modelled: JSX, materials, textures (`getParticleTexture`), lights, the rocket mesh, the flash light, point sizes, blending and `needsUpdate` flags.
- Canvas drawing (`fillText`, fonts, `getImageData`) is not modelled. The raster is an input: `Some(bytes)` of 1024 * 512 * 4 bytes, or `None` when the canvas has no 2D context.
- THREE.Color hex parsing and `offsetHSL` are function parameters (`decode`, `jitter`, `offset`). Nothing is proved about the colours they produce beyond which inputs they get.
- Floating point is not modelled. Coordinates are reals, with no IEEE or Float32 rounding.
- `Math.sin`, `cos`, `acos`, `exp`, `pow` and `sqrt` are uninterpreted parameters. The lemmas assume only their range facts.
- `Math.random`'s distribution is not modelled. Setup loops read a fixed block of supplied draws per particle, the heart sampler three per attempt, and each frame its own supplied sequence.
  - Where the source draws conditionally, the model skips unused draws instead of shifting the stream: foliage jitter (drawn only for primary points), snow reset positions (drawn only on reset) and the background launch origin and colour (drawn only on a launch frame).
- React scheduling (`useFrame`, `useEffect`, `useState`, `setTimeout`, `clearTimeout`) is not modelled. Timers are due times on the frame clock, fired by an explicit `TimersElapse` event. A frame is a method call with its time, delta and draws. Effect cleanups (a timer cleared by unmounting or a prop change) are not modelled, and `trigger` and `name` are fixed for the life of the component.
- The `if (!ref.current) return` guards are not modelled. The model assumes the points object is mounted, so a frame always runs its body.
- Tree.SampleHeart: the source loops until 1200 points are accepted, and its termination depends on the random stream. The model stops when the supplied draws run out. `HeartPointsCount` shows it then yields min(1200, hits) points.
- Tree.BeatBounds: `Math.pow(s, 2)` is modelled as `s * s`.
- Tree.Tree.constructor: three.js's default material opacity of 1 before the first frame is an assumption about the library, not part of the source.
- App.tsx (input screen, trimming of the name), Stars, OrbitControls and the Bloom pass are not part of this model.
