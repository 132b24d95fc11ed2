# Flight simulator world and flight core in Dafny

This project models the deterministic core of a browser flight simulator:

- **World generation** (`src/frontend/src/sim/world/`):
  - the Park–Miller generator `SeededRandom` and the coordinate hash `hashCoords` (module `Prng`);
  - sine-hash value noise and fractal Brownian motion (module `Noise`);
  - terrain chunks, with their height buffer, their colour buffer and the chunk-key text `"x,z"` (module `Terrain`);
  - the seeded placement of buildings inside a chunk (module `Buildings`).
- **The chunk-streaming manager** of `ProceduralWorld.tsx` (module `World`):
  - the chunk and building maps, and the scene group's children;
  - the per-frame pass that loads the 7 x 7 window around the aircraft and evicts every chunk outside it;
  - the seed-change flush that disposes everything.
- **The kinematic flight model** `useSimpleFlightModel` (module `Flight`): one integration step of throttle, attitude, speed, lift, position, ground contact, heading and latitude/longitude.
- **The simulation-state store** `useSimState` (module `SimStore`):
  - the seed generator and the initial state;
  - start and reset;
  - the partial-update merge.
- **The keyboard controls** `useFlightControls` (module `Controls`): the set of held keys and the mapping from keys to the four control axes.
- **The shared records** of `types.ts` (module `SimTypes`) and small helpers (module `Wrappers`).

How JavaScript is modelled:

- JavaScript numbers are exact `real`s; values that are always integral are `int`s.
- JavaScript's truncating `%` is written out (`Prng.JsRem`, `Flight.JsRem360`), and so are the 32-bit `| 0` and `<< 5` of `hashCoords`.
- `Math.PI` is its exact double value.
- `Math.sin`, `Math.cos` and `Math.random` are parameters of the model.

State that the source mutates is modelled in place:

- the generator and the keyboard are classes;
- so are the flight model, the store and the streaming manager;
- the terrain's `Float32Array` is an `array<real>` updated in place.

Each method is proved against a function that specifies it. The properties of those functions are proved as lemmas:

- the round trip of the chunk key;
- bounds on noise, heights and colours;
- building placement;
- the invariant kept by a flight step;
- the algebra of partial updates;
- after a frame, the resident chunk set is exactly the 49-chunk window.

`rng.int(3, 8)` and `rng.int(1, 4)` exclude their upper bound, so a dense chunk draws 3–7 candidates and a medium one 1–3 (`Buildings.CountBuckets`). A candidate inside the exclusion radius around the spawn point is skipped, so a chunk holds at most that many buildings and possibly none (`Buildings.Candidates`).

Some inputs make the `SeededRandom` constructor break its promise of values in [0, 1). A seed leaves state 0 exactly when it is negative and congruent to 1 modulo 2147483647 (−2147483646, −4294967293, …). State 0 is a fixed point of `next()`, whose value there is −1/2147483646. `Prng.NegativeSeedFixedPoint` proves this characterisation. The world generator never reaches it, because its seeds come from `hashCoords`, which is never negative.

## Model

| member | source | states |
|---|---|---|
| Prng.JsRem | src/frontend/src/sim/world/prng.ts:6 | JavaScript's `%` on integers: the ordinary remainder for a non-negative dividend, for a negative one the truncated remainder: in (−b, 0], with a − r equal to −b times the quotient of −a by b |
| Prng.InitState | src/frontend/src/sim/world/prng.ts:5-8 | the constructor's state: in [1, 2147483646] for a non-negative seed; 0 and 2147483647 map to 2147483646; a seed already in range is kept |
| Prng.NegativeSeedFixedPoint | src/frontend/src/sim/world/prng.ts:5-14 | the constructor leaves state 0 if and only if the seed is negative and congruent to 1 modulo 2147483647; `next()` never leaves state 0, and its value there is below 0 |
| Prng.NextState | src/frontend/src/sim/world/prng.ts:12 | the multiplicative step stays below the modulus and never reaches 0 from a non-zero state |
| Prng.MultiplierInvertible | src/frontend/src/sim/world/prng.ts:12 | 16807 times a non-zero state is never a multiple of 2147483647 (16807 has an inverse modulo the prime) |
| Prng.Value | src/frontend/src/sim/world/prng.ts:13 | the value of a valid state lies in [0, 1), and state 1 gives exactly 0 |
| Prng.Iterate | src/frontend/src/sim/world/prng.ts:11-14 | n steps of the generator keep a valid state valid |
| Prng.IterateAdd | src/frontend/src/sim/world/prng.ts:11-14 | a steps followed by b steps are a + b steps |
| Prng.Stream | src/frontend/src/sim/world/prng.ts:11-14 | the first n outputs of a valid state: exactly n values, all in [0, 1) |
| Prng.RangeDraw | src/frontend/src/sim/world/prng.ts:17-19 | `range(min, max)` from a valid state lies in [min, max) when min < max |
| Prng.IntDraw | src/frontend/src/sim/world/prng.ts:22-24 | `int(min, max)` lies in [min, max − 1]: the upper bound is exclusive |
| Prng.SeededRandom.constructor | src/frontend/src/sim/world/prng.ts:5-8 | the generator starts in `InitState(seed)` |
| Prng.SeededRandom.Next | src/frontend/src/sim/world/prng.ts:11-14 | advances the state by one step and returns that state's value, in [0, 1) for a valid state |
| Prng.SeededRandom.Range | src/frontend/src/sim/world/prng.ts:17-19 | consumes one step and returns a value in [min, max) |
| Prng.SeededRandom.Int | src/frontend/src/sim/world/prng.ts:22-24 | consumes one step and returns the floor of that range draw, in [min, max − 1] |
| Prng.SameSeedSameStream | src/frontend/src/sim/world/prng.ts:5-14 | two generators built from the same seed produce the identical sequence of values |
| Prng.ToInt32 | src/frontend/src/sim/world/prng.ts:30-31 | `\| 0` gives a signed 32-bit value congruent to its input modulo 2^32 |
| Prng.ToInt32Congruent | src/frontend/src/sim/world/prng.ts:30-31 | inputs congruent modulo 2^32 truncate to the same 32-bit value |
| Prng.ShiftSubtract | src/frontend/src/sim/world/prng.ts:30 | after truncation, `(h << 5) - h + c` equals `31 * h + c` |
| Prng.HashCoords | src/frontend/src/sim/world/prng.ts:28-33 | the hash lies in [0, 2^31] |
| Prng.HashCoordsClosedForm | src/frontend/src/sim/world/prng.ts:28-33 | the hash is the absolute value of the 32-bit polynomial 31·(31·seed + x) + y, truncated at each step |
| Noise.Smoothstep | src/frontend/src/sim/world/noise.ts:2-4 | maps [0, 1] into [0, 1], with 0 ↦ 0 and 1 ↦ 1 |
| Noise.SmoothstepBounds | src/frontend/src/sim/world/noise.ts:2-4 | t²(3 − 2t) stays in [0, 1] on [0, 1] |
| Noise.Lerp | src/frontend/src/sim/world/noise.ts:6-8 | hits a at t = 0 and b at t = 1, and stays between a and b for t in [0, 1] |
| Noise.LerpBounds | src/frontend/src/sim/world/noise.ts:6-8 | the interpolation formula meets its endpoints and lies between them |
| Noise.Hash2D | src/frontend/src/sim/world/noise.ts:11-14 | the fractional part of the scaled sine lies in [0, 1) |
| Noise.ValueNoise | src/frontend/src/sim/world/noise.ts:17-32 | the bilinear smoothstep blend of the four corner hashes lies in [0, 1) |
| Noise.ValueNoiseAtLattice | src/frontend/src/sim/world/noise.ts:17-32 | at an integer lattice point value noise equals the corner hash |
| Noise.ValueNoiseChoice | src/frontend/src/sim/world/noise.ts:17-32 | a sampler that agrees with `valueNoise` at every point and so lies in [0, 1) everywhere |
| Noise.OctaveStepBounds | src/frontend/src/sim/world/noise.ts:41-46 | one octave keeps 0 ≤ total ≤ maxValue with a non-negative amplitude, and keeps (or, from the start, establishes) maxValue ≥ 1 with total < maxValue |
| Noise.OctavesBounds | src/frontend/src/sim/world/noise.ts:41-46 | after at least one octave, 0 ≤ total < maxValue with maxValue ≥ 1 |
| Noise.Fbm | src/frontend/src/sim/world/noise.ts:35-49 | the normalised fBm of at least one octave with non-negative persistence lies in [0, 1) |
| Noise.FbmField | src/frontend/src/sim/world/noise.ts:35-49 | a field that agrees with `fbm` at every point and lies in [0, 1) everywhere |
| Noise.FbmOneOctave | src/frontend/src/sim/world/noise.ts:35-49 | a single octave of fBm is exactly value noise |
| Noise.FbmOfOctaves | src/frontend/src/sim/world/noise.ts:41-48 | fBm is the loop's final total divided by its final maxValue, and maxValue ≥ 1 |
| Noise.FbmLoop | src/frontend/src/sim/world/noise.ts:35-49 | the octave loop computes exactly `Fbm` |
| Terrain.DigitChar | src/frontend/src/sim/world/terrain.ts:82 | a decimal digit's character and its value correspond |
| Terrain.NatToString | src/frontend/src/sim/world/terrain.ts:82 | a natural number prints as a non-empty string of digits |
| Terrain.NatToStringRoundTrip | src/frontend/src/sim/world/terrain.ts:82 | reading the printed digits back gives the number |
| Terrain.IntToString | src/frontend/src/sim/world/terrain.ts:82 | a printed integer is non-empty, starts with `-` exactly when negative, and never contains a comma |
| Terrain.IntToStringRoundTrip | src/frontend/src/sim/world/terrain.ts:82 | parsing a printed integer gives it back |
| Terrain.GetChunkKey | src/frontend/src/sim/world/terrain.ts:81-83 | the key `"x,z"` of a chunk; it carries no contract of its own, and its round trip and injectivity are `Terrain.ChunkKeyRoundTrip` and `Terrain.ChunkKeyInjective` |
| Terrain.CommaIndex | src/frontend/src/sim/world/terrain.ts:82 | finds the first comma of a key, or reports that there is none |
| Terrain.ChunkKeyRoundTrip | src/frontend/src/sim/world/terrain.ts:81-83 | the key `"x,z"` parses back to (x, z) |
| Terrain.ChunkKeyInjective | src/frontend/src/sim/world/terrain.ts:81-83 | two chunks have the same key if and only if they have the same coordinates |
| Terrain.WorldToChunk | src/frontend/src/sim/world/terrain.ts:85-87 | each chunk coordinate is the floor of the world coordinate divided by the chunk size |
| Terrain.WorldToChunkContains | src/frontend/src/sim/world/terrain.ts:85-87 | for a positive chunk size, the world point lies inside its chunk's square |
| Terrain.GetHeightAt | src/frontend/src/sim/world/terrain.ts:89-93 | the height lies in [0, heightScale], and below heightScale when heightScale is positive |
| Terrain.GetHeightAtIsFbm | src/frontend/src/sim/world/terrain.ts:89-93 | the height is five-octave fBm at ((x + 0.1·seed)·0.01, (z + 0.1·seed)·0.01), scaled by heightScale |
| Terrain.HeightAt | src/frontend/src/sim/world/terrain.ts:89-93 | computes `GetHeightAt` |
| Terrain.Placement | src/frontend/src/sim/world/terrain.ts:27 | the per-chunk seed offset is `hashCoords` of the chunk and lies in [0, 2^31] |
| Terrain.HeightField | src/frontend/src/sim/world/terrain.ts:30-40 | the height pass keeps the buffer's length |
| Terrain.HeightFieldAt | src/frontend/src/sim/world/terrain.ts:30-40 | every vertex keeps x and y and gets as z the terrain height at its world position with the chunk's seed offset |
| Terrain.HeightFieldAppend | src/frontend/src/sim/world/terrain.ts:30-40 | the height pass works vertex by vertex: a buffer split on a vertex boundary is processed part by part |
| Terrain.HeightLoopStep | src/frontend/src/sim/world/terrain.ts:30-40 | one loop iteration extends the processed prefix by one vertex and leaves the rest untouched |
| Terrain.ApplyHeights | src/frontend/src/sim/world/terrain.ts:30-40 | the in-place loop turns the buffer into `HeightField` of its old contents |
| Terrain.HeightFieldBelow | src/frontend/src/sim/world/terrain.ts:30-40 | every height the pass writes lies in [0, heightScale) |
| Terrain.ColorField | src/frontend/src/sim/world/terrain.ts:55-68 | the colour buffer has the length of the position buffer |
| Terrain.ColorFieldAt | src/frontend/src/sim/world/terrain.ts:55-68 | each vertex's three components are the colour of that vertex's height |
| Terrain.ColorFieldAppend | src/frontend/src/sim/world/terrain.ts:55-68 | colouring a split buffer is colouring its parts |
| Terrain.ColorLoopStep | src/frontend/src/sim/world/terrain.ts:55-68 | one loop iteration extends the coloured prefix by one vertex |
| Terrain.ColorTripleInRange | src/frontend/src/sim/world/terrain.ts:57-63 | a height in [0, heightScale) gives r in [0.5, 0.9), g in [0.6, 0.8), b in (0.2, 0.3] |
| Terrain.ColorFieldInRange | src/frontend/src/sim/world/terrain.ts:55-68 | heights below heightScale give colour components in [0, 1] |
| Terrain.TerrainColorsInRange | src/frontend/src/sim/world/terrain.ts:30-68 | the colours of a generated chunk all lie in [0, 1] |
| Terrain.FillColors | src/frontend/src/sim/world/terrain.ts:55-68 | allocates a fresh buffer and fills it with `ColorField` of the positions |
| Terrain.GenerateTerrainChunk | src/frontend/src/sim/world/terrain.ts:18-79 | writes the heights in place, then colours them, with every colour component in [0, 1] |
| Buildings.TooCloseIsSqrtTest | src/frontend/src/sim/world/buildings.ts:43-49 | the squared-distance test agrees with `Math.sqrt(dx² + dz²) < exclusionRadius` |
| Buildings.CountDraw | src/frontend/src/sim/world/buildings.ts:32-33 | the density and count draws leave a valid generator state |
| Buildings.CountBuckets | src/frontend/src/sim/world/buildings.ts:32-33 | density ≤ 0.4 gives 0 candidates after one draw; ≤ 0.7 gives 1–3 and > 0.7 gives 3–7 candidates, each after two draws |
| Buildings.CandidateStep | src/frontend/src/sim/world/buildings.ts:36-71 | one candidate leaves a valid generator state |
| Buildings.CandidateDraws | src/frontend/src/sim/world/buildings.ts:36-71 | a skipped candidate consumes two draws, an emitted one seven |
| Buildings.CandidatePlaced | src/frontend/src/sim/world/buildings.ts:36-71 | an emitted building lies in its chunk, outside the exclusion radius, with dimensions, rotation and colour in range, and its base on the terrain |
| Buildings.CandidateChoice | src/frontend/src/sim/world/buildings.ts:36-71 | a step function that agrees with one candidate of the loop at every valid state |
| Buildings.CandidateStepLawful | src/frontend/src/sim/world/buildings.ts:36-71 | such a step only emits placed buildings and consumes two or seven draws |
| Buildings.Candidates | src/frontend/src/sim/world/buildings.ts:35-72 | n candidates emit at most n buildings and never drop earlier ones |
| Buildings.CandidatesPlaced | src/frontend/src/sim/world/buildings.ts:35-72 | the loop keeps its earlier output and emits only placed buildings |
| Buildings.CandidatesDraws | src/frontend/src/sim/world/buildings.ts:35-72 | n candidates consume 2n draws plus 5 for each emitted building |
| Buildings.ChunkState | src/frontend/src/sim/world/buildings.ts:28-29 | the chunk's generator starts in a valid state |
| Buildings.GenerateProperties | src/frontend/src/sim/world/buildings.ts:19-75 | a chunk holds at most 7 buildings, none when density ≤ 0.4, at most 3 when density ≤ 0.7, and every building is placed |
| Buildings.SkippedCandidate | src/frontend/src/sim/world/buildings.ts:37-49 | a candidate inside the exclusion radius emits nothing after two draws |
| Buildings.EmittedCandidate | src/frontend/src/sim/world/buildings.ts:37-71 | any other candidate emits the building assembled from its seven draws and the terrain height |
| Buildings.DrawCandidate | src/frontend/src/sim/world/buildings.ts:36-71 | the loop body's generator calls perform exactly one `CandidateChoice` step |
| Buildings.DrawCount | src/frontend/src/sim/world/buildings.ts:32-33 | the density and count draws perform exactly `CountDraw` |
| Buildings.GenerateBuildingsForChunk | src/frontend/src/sim/world/buildings.ts:19-75 | returns exactly the specified building list `Generate` |
| Controls.LowerChar | src/frontend/src/sim/controls/useFlightControls.ts:22 | an ASCII capital A–Z goes to the letter 32 code points above it, in a–z; every other character is kept (ASCII-only, see Left out) |
| Controls.ToLower | src/frontend/src/sim/controls/useFlightControls.ts:22 | applies `LowerChar` to every character and keeps the length (ASCII-only, see Left out) |
| Controls.ToLowerIdempotent | src/frontend/src/sim/controls/useFlightControls.ts:22-26 | lower-casing twice is lower-casing once |
| Controls.ControlsFor | src/frontend/src/sim/controls/useFlightControls.ts:29-54 | every axis is −1, 0 or 1 |
| Controls.NoKeysIdle | src/frontend/src/sim/controls/useFlightControls.ts:30-35 | with no key held all four axes are 0 |
| Controls.LaterAssignmentWins | src/frontend/src/sim/controls/useFlightControls.ts:37-51 | when both keys of an axis are held, the later assignment (S/ArrowDown, D/ArrowRight, E, Control/X) wins |
| Controls.AxisIndependence | src/frontend/src/sim/controls/useFlightControls.ts:37-51 | a key that does not belong to an axis does not change that axis |
| Controls.Keyboard.constructor | src/frontend/src/sim/controls/useFlightControls.ts:19 | no key is held initially |
| Controls.Keyboard.KeyDown | src/frontend/src/sim/controls/useFlightControls.ts:21-23 | adds the lower-cased key to the held set |
| Controls.Keyboard.KeyUp | src/frontend/src/sim/controls/useFlightControls.ts:25-27 | removes the lower-cased key from the held set, so releasing a key in any spelling releases every held key that folds to the same name |
| Controls.Keyboard.UpdateControls | src/frontend/src/sim/controls/useFlightControls.ts:29-54 | the snapshot is `ControlsFor` of the held keys |
| Flight.JsRem360 | src/frontend/src/sim/physics/useSimpleFlightModel.ts:71 | JavaScript's `% 360` on reals: sign of the dividend, magnitude below 360, a whole number of turns removed |
| Flight.Heading | src/frontend/src/sim/physics/useSimpleFlightModel.ts:70-71 | the heading lies in [0, 360), differs from the yaw in degrees by whole turns, and equals it when already in range |
| Flight.Clamp | src/frontend/src/sim/physics/useSimpleFlightModel.ts:30 | `Math.max(lo, Math.min(hi, v))` lies in [lo, hi], keeps a value in range and pins one outside it |
| Flight.TargetSpeed | src/frontend/src/sim/physics/useSimpleFlightModel.ts:43 | a throttle in [0, 1] gives a target in [20, 150] |
| Flight.EasedSpeed | src/frontend/src/sim/physics/useSimpleFlightModel.ts:44 | for dt in [0, 0.5] the eased speed lies between the old speed and the target |
| Flight.NewThrottle | src/frontend/src/sim/physics/useSimpleFlightModel.ts:29-30 | the throttle stays in [0, 1], and is unchanged without input |
| Flight.Attitude | src/frontend/src/sim/physics/useSimpleFlightModel.ts:33-40 | pitch is clamped to ±π/3 and roll to ±π/2 |
| Flight.NewLatitude | src/frontend/src/sim/physics/useSimpleFlightModel.ts:75 | the latitude change times 111320 m is the northward distance travelled |
| Flight.NewLongitude | src/frontend/src/sim/physics/useSimpleFlightModel.ts:74-76 | the longitude change times the metres per degree of longitude is the eastward distance travelled |
| Flight.Step | src/frontend/src/sim/physics/useSimpleFlightModel.ts:25-89 | the new state has throttle in [0, 1], clamped attitude, altitude equal to its height and at least 5, heading in [0, 360) from the yaw, and the same world seed |
| Flight.GroundBounce | src/frontend/src/sim/physics/useSimpleFlightModel.ts:58-67 | below 5 m the aircraft is put at 5 m with its speed cut to 80 % (at least 20); otherwise height and speed are kept |
| Flight.StepCapped | src/frontend/src/sim/physics/useSimpleFlightModel.ts:26 | a delta above 0.1 s integrates exactly a step of 0.1 s |
| Flight.EasedSpeedBetween | src/frontend/src/sim/physics/useSimpleFlightModel.ts:43-44 | the eased speed lies between the old speed and the target speed of the new throttle |
| Flight.StepKeepsInv | src/frontend/src/sim/physics/useSimpleFlightModel.ts:25-89 | a running step keeps the state invariant, the speed range [20, 150] included |
| Flight.VelocityHorizontal | src/frontend/src/sim/physics/useSimpleFlightModel.ts:51-55 | with unit-bounded sines and cosines the horizontal velocity is bounded by the speed |
| Flight.StepHorizontalVelocity | src/frontend/src/sim/physics/useSimpleFlightModel.ts:51-55 | after a step the horizontal velocity components are bounded by the top speed |
| Flight.ZeroStep | src/frontend/src/sim/physics/useSimpleFlightModel.ts:25-89 | a step of zero time changes nothing but the velocity |
| Flight.FlightModel.constructor | src/frontend/src/sim/physics/useSimpleFlightModel.ts:20 | the state starts as the initial state |
| Flight.FlightModel.Update | src/frontend/src/sim/physics/useSimpleFlightModel.ts:22-93 | when paused, returns the current state untouched; when running, stores and returns `Step` of it; a state in the invariant stays in it for every non-negative delta |
| SimStore.GenerateSeed | src/frontend/src/sim/state/useSimState.ts:4-6 | the seed is the floor of random × 10^6, an integer in [0, 999999] |
| SimStore.InitialState | src/frontend/src/sim/state/useSimState.ts:8-19 | the initial state carries the seed, starts at 100 m altitude, and satisfies the flight invariant |
| SimStore.InitialStatesAgree | src/frontend/src/sim/state/useSimState.ts:29-34 | initial states differ only in their world seed |
| SimStore.MergeOverwritesExactly | src/frontend/src/sim/state/useSimState.ts:38-40 | `{...prev, ...updates}` takes every field present in the patch and keeps every absent one |
| SimStore.MergeEmpty | src/frontend/src/sim/state/useSimState.ts:38-40 | an empty patch changes nothing |
| SimStore.MergeIdempotent | src/frontend/src/sim/state/useSimState.ts:38-40 | applying a patch twice is applying it once |
| SimStore.MergeThen | src/frontend/src/sim/state/useSimState.ts:38-40 | two successive patches are one combined patch in which the second wins |
| SimStore.Store.constructor | src/frontend/src/sim/state/useSimState.ts:8-23 | the store starts paused, in the initial state with a seed drawn at load time |
| SimStore.Store.Start | src/frontend/src/sim/state/useSimState.ts:25-27 | starts running and leaves the state alone |
| SimStore.Store.Reset | src/frontend/src/sim/state/useSimState.ts:29-36 | returns to the initial state with a fresh seed, paused |
| SimStore.Store.UpdateSimState | src/frontend/src/sim/state/useSimState.ts:38-40 | merges the patch into the state and leaves the running flag alone |
| World.VisitedNext | src/frontend/src/sim/scene/ProceduralWorld.tsx:67-72 | each visited window cell adds its key to the visited set |
| World.WindowKeyAt | src/frontend/src/sim/scene/ProceduralWorld.tsx:67-71 | the n-th cell of the row-major walk is the neighbour at (dx, dz) |
| World.RegionOf | src/frontend/src/sim/scene/ProceduralWorld.tsx:67-72 | names the set of keys the loops have added before cell (dx, dz) |
| World.RegionNext | src/frontend/src/sim/scene/ProceduralWorld.tsx:68-72 | adding the key of cell (dx, dz) gives the set before the next cell of the row |
| World.RegionRow | src/frontend/src/sim/scene/ProceduralWorld.tsx:67-68 | the end of one row is the start of the next |
| World.RegionEnds | src/frontend/src/sim/scene/ProceduralWorld.tsx:64-109 | the walk starts from nothing and ends with the whole window |
| World.NeighbourInWindow | src/frontend/src/sim/scene/ProceduralWorld.tsx:67-72 | every offset within the render distance is in the needed set |
| World.WindowHasNeighboursOnly | src/frontend/src/sim/scene/ProceduralWorld.tsx:67-72 | every key of the needed set is the key of such an offset |
| World.WindowMembers | src/frontend/src/sim/scene/ProceduralWorld.tsx:67-72 | a key is needed if and only if it is a neighbour within the render distance |
| World.WindowKeysDistinct | src/frontend/src/sim/scene/ProceduralWorld.tsx:67-72 | distinct cells of the window have distinct keys |
| World.VisitedCount | src/frontend/src/sim/scene/ProceduralWorld.tsx:67-72 | the first n cells give n distinct keys |
| World.WindowCount | src/frontend/src/sim/scene/ProceduralWorld.tsx:67-72 | the needed set has exactly (2·3 + 1)² = 49 keys |
| World.Mesh.constructor | src/frontend/src/sim/scene/ProceduralWorld.tsx:76-104 | a new mesh records its chunk, its slot and what it was generated from, and is not disposed |
| World.Mesh.Dispose | src/frontend/src/sim/scene/ProceduralWorld.tsx:122-123 | disposing the geometry and material marks the mesh disposed |
| World.ConsistentHeld | src/frontend/src/sim/scene/ProceduralWorld.tsx:19-21 | the group holds exactly the meshes of the two maps, and different chunks hold disjoint meshes |
| World.ExtendsVisit | src/frontend/src/sim/scene/ProceduralWorld.tsx:71-107 | visiting a key keeps every earlier entry and adds the key, with a generated entry when it was missing |
| World.ChunkBuildings | src/frontend/src/sim/scene/ProceduralWorld.tsx:93-98 | the building list of each chunk is `generateBuildingsForChunk` with spawn at the origin, radius 100 and height scale 30 |
| World.BuildingsFor | src/frontend/src/sim/scene/ProceduralWorld.tsx:93-98 | generates that building list |
| World.InsertConsistent | src/frontend/src/sim/scene/ProceduralWorld.tsx:89-106 | inserting a chunk with its tagged meshes keeps the maps and the group consistent |
| World.RemoveConsistent | src/frontend/src/sim/scene/ProceduralWorld.tsx:119-138 | removing a chunk with its meshes keeps the maps and the group consistent |
| World.ClearConsistent | src/frontend/src/sim/scene/ProceduralWorld.tsx:29-48 | clearing both maps leaves nothing in the group that the maps held |
| World.NewBuildingMeshes | src/frontend/src/sim/scene/ProceduralWorld.tsx:100-104 | one fresh, undisposed mesh per building, in order |
| World.StreamingWorld.constructor | src/frontend/src/sim/scene/ProceduralWorld.tsx:19-22 | empty maps, no group yet, and the last seed set to the first seed |
| World.StreamingWorld.AttachGroup | src/frontend/src/sim/scene/ProceduralWorld.tsx:21 | mounting the group changes nothing else |
| World.StreamingWorld.DisposeMesh | src/frontend/src/sim/scene/ProceduralWorld.tsx:30-34 | disposes a mesh and removes it from the group when there is one |
| World.StreamingWorld.DisposeMeshes | src/frontend/src/sim/scene/ProceduralWorld.tsx:29-47 | disposes every mesh of a set and removes them from the group when there is one |
| World.StreamingWorld.LoadChunk | src/frontend/src/sim/scene/ProceduralWorld.tsx:75-107 | stores a missing chunk under its key with freshly generated terrain and building meshes, and adds exactly those to the group |
| World.StreamingWorld.EvictChunk | src/frontend/src/sim/scene/ProceduralWorld.tsx:119-138 | deletes a chunk from both maps, disposes its meshes and removes them from the group |
| World.StreamingWorld.SeedChanged | src/frontend/src/sim/scene/ProceduralWorld.tsx:26-53 | on a new seed every mesh is disposed and both maps and the group are emptied; an unchanged seed changes nothing |
| World.StreamingWorld.VisitChunk | src/frontend/src/sim/scene/ProceduralWorld.tsx:69-107 | one cell of the window: its key joins the needed set and its chunk is loaded if missing |
| World.StreamingWorld.LoadRow | src/frontend/src/sim/scene/ProceduralWorld.tsx:68-108 | the seven cells of one row |
| World.StreamingWorld.LoadWindow | src/frontend/src/sim/scene/ProceduralWorld.tsx:64-109 | the needed set is exactly the window, every resident chunk stays, and every missing one is generated |
| World.StreamingWorld.EvictOutside | src/frontend/src/sim/scene/ProceduralWorld.tsx:111-138 | afterwards exactly the needed chunks are resident, unchanged, and every mesh that left the group is disposed |
| World.StreamingWorld.Frame | src/frontend/src/sim/scene/ProceduralWorld.tsx:55-139 | without a group nothing happens; otherwise exactly the 49 chunks around the aircraft are resident, kept ones are unchanged, new ones are generated for their own coordinate, and evicted meshes are disposed |
| World.SpawnWindow | src/frontend/src/sim/scene/ProceduralWorld.tsx:58-72 | at the spawn point the window is the 49 chunks around chunk (0, 0) |

## Left out

- Three.js objects are not modelled: geometry, materials, `PlaneGeometry` vertex layout, `computeVertexNormals`, mesh rotation and position, shadows. A mesh is an opaque handle (`World.Mesh`) that records what it was generated from and whether it is disposed. The contents of `createBuildingMesh` are not modelled beyond this.
- React scheduling is not modelled: `useFrame`, `useEffect`, `useState`/`forceUpdate`, `setInterval` and the event listeners. Each callback is a method, and the caller decides when to invoke it. `FlightScene.tsx`, the HUD, its formatting and the UI components are not part of this model.
- `Float32Array` single-precision storage and IEEE double rounding are not modelled; all arithmetic is exact.
- `Math.sin`, `Math.cos` and `Math.random` are parameters, not definitions. Bounds that need |sin|, |cos| ≤ 1 take that as a hypothesis (`Flight.StepHorizontalVelocity`).
- `Map.forEach` order, and the order of the `chunksToRemove` array, are not modelled. Eviction picks keys from a set. The result does not depend on the order.
- The group is modelled as the set of its children. `remove` of a child that is not there is not modelled; under the manager's invariant it never happens.
- The `if (chunk)` and `if (buildings)` guards of eviction are not modelled as branches: under the invariant both maps hold every evicted key.
- Noise.Fbm: requires at least one octave and non-negative persistence. With no octaves the source computes 0/0 (NaN); a negative persistence can make the weight sum 0 (a result of ±Infinity or NaN) or move the result out of [0, 1). Every caller passes 5 octaves and persistence 0.5.
- Noise.FbmLoop: requires at least one octave and non-negative persistence, for the same reason.
- Flight.NewLongitude: when the cosine of the latitude is 0 the source divides by zero (Infinity or NaN). The model then keeps the longitude and states nothing for that case.
- Controls.LowerChar / Controls.ToLower: fold only the ASCII capitals A–Z. JavaScript's `toLowerCase` also folds other Unicode capitals ('Ä' to 'ä', 'Σ' to 'σ', the Kelvin sign to 'k'), and it can lengthen a string ('İ' becomes "i̇"). So for a non-ASCII key name the model's held set can differ from the source's; a keydown of "Ä" followed by a keyup of "ä" leaves a key held in the model only. The four control axes only listen to ASCII key names, so they are unaffected.
- Terrain.GenerateTerrainChunk: requires a non-zero height scale, because the colour pass divides by it. The manager always passes 30.
- Terrain.GetHeightAt: is stated for exact reals; the source's height is a double and is stored into a `Float32Array`.
