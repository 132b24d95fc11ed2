/**
 * Building placement for one terrain chunk (`generateBuildingsForChunk`).
 *
 * A generator seeded with `hashCoords(chunkX, chunkZ, seed)` draws a density,
 * then a candidate count, then for every candidate a position; a candidate
 * inside the spawn exclusion radius is skipped, every other one draws its
 * width, height, depth, yaw and colour. The specification follows the
 * generator state through these draws.
 */
module Buildings {
  import opened Wrappers
  import opened Prng
  import opened Noise
  import opened Terrain

  /** The parameters `generateBuildingsForChunk` reads from its configuration. */
  datatype BuildingConfig = BuildingConfig(seed: int, heightScale: real, spawnPosition: (real, real, real), exclusionRadius: real)

  /** One placed building: box centre, box size (width, height, depth), yaw and colour. */
  datatype BuildingInstance = BuildingInstance(position: (real, real, real), scale: (real, real, real), rotation: real, color: string)

  /** The palette a building colour is drawn from. */
  const COLOR_CHOICES: seq<string> := ["#a0a0a0", "#b0b0b0", "#8a8a8a", "#c0c0c0", "#909090"]

  /**
   * The exclusion test `sqrt(dx*dx + dz*dz) < exclusionRadius`, written on the
   * squared distance: the distance is below the radius exactly when the radius
   * is positive and the squared distance is below the squared radius.
   */
  predicate TooClose(dx: real, dz: real, exclusionRadius: real)
  {
    exclusionRadius > 0.0 && dx * dx + dz * dz < exclusionRadius * exclusionRadius
  }

  /** The squared test agrees with the square-root test for every radius. */
  lemma TooCloseIsSqrtTest(dx: real, dz: real, distance: real, exclusionRadius: real)
    requires distance >= 0.0 && distance * distance == dx * dx + dz * dz
    ensures TooClose(dx, dz, exclusionRadius) <==> distance < exclusionRadius
  {
    var r := exclusionRadius;
    if distance < r {
      assert r * r - distance * distance == (r - distance) * (r + distance);
      PositiveProduct(r - distance, r + distance);
    }
    if r > 0.0 && distance >= r {
      assert distance * distance - r * r == (distance - r) * (distance + r);
      assert (distance - r) * (distance + r) >= 0.0;
    }
  }

  lemma PositiveProduct(a: real, b: real)
    requires a > 0.0 && b > 0.0
    ensures a * b > 0.0
  {
  }

  /**
   * The count draw after the density draw: from generator state `s`, the
   * density is the next value, and a density above 0.7 draws `int(3, 8)`, one
   * above 0.4 draws `int(1, 4)`, any other gives no candidates. Returns the
   * count and the state after the draws.
   */
  function CountDraw(s: nat): (r: (int, nat))
    requires 1 <= s < MODULUS
    ensures 1 <= r.1 < MODULUS
  {
    var s1 := NextState(s);
    var density := Value(s1);
    if density > 0.7 then (IntDraw(s1, 3, 8), NextState(s1))
    else if density > 0.4 then (IntDraw(s1, 1, 4), NextState(s1))
    else (0, s1)
  }

  /** The three density buckets: no candidates, 1 to 3, or 3 to 7, and the draws each consumes. */
  lemma CountBuckets(s: nat)
    requires 1 <= s < MODULUS
    ensures var density := Value(NextState(s));
      var (count, t) := CountDraw(s);
      (density <= 0.4 ==> count == 0 && t == Iterate(s, 1))
      && (0.4 < density <= 0.7 ==> 1 <= count <= 3 && t == Iterate(s, 2))
      && (0.7 < density ==> 3 <= count <= 7 && t == Iterate(s, 2))
  {
    assert Iterate(s, 1) == NextState(s);
    assert Iterate(s, 2) == NextState(NextState(s));
  }

  /**
   * One candidate of the loop, from generator state `s`: the local position is
   * drawn in [0, chunkSize) twice; a candidate too close to the spawn point is
   * skipped, any other draws width, height, depth, yaw and a colour index and
   * stands on the terrain height of the world seed. Returns the building, if
   * any, and the state after the draws.
   */
  ghost function CandidateStep(sin: Sine, s: nat, chunkX: int, chunkZ: int, chunkSize: real, config: BuildingConfig)
    : (r: (Option<BuildingInstance>, nat))
    requires 1 <= s < MODULUS
    ensures 1 <= r.1 < MODULUS
  {
    var localX := RangeDraw(s, 0.0, chunkSize);
    var s1 := NextState(s);
    var localZ := RangeDraw(s1, 0.0, chunkSize);
    var s2 := NextState(s1);
    var worldX := chunkX as real * chunkSize + localX;
    var worldZ := chunkZ as real * chunkSize + localZ;
    if TooClose(worldX - config.spawnPosition.0, worldZ - config.spawnPosition.2, config.exclusionRadius) then
      (None, s2)
    else
      var groundHeight := GetHeightAt(sin, worldX, worldZ, config.seed as real, config.heightScale);
      var width := RangeDraw(s2, 3.0, 8.0);
      var s3 := NextState(s2);
      var height := RangeDraw(s3, 8.0, 30.0);
      var s4 := NextState(s3);
      var depth := RangeDraw(s4, 3.0, 8.0);
      var s5 := NextState(s4);
      var rotation := RangeDraw(s5, 0.0, PI * 2.0);
      var s6 := NextState(s5);
      var index := IntDraw(s6, 0, |COLOR_CHOICES|);
      var s7 := NextState(s6);
      (Some(BuildingInstance((worldX, groundHeight + height / 2.0, worldZ), (width, height, depth), rotation, COLOR_CHOICES[index])), s7)
  }

  /**
   * What every emitted building satisfies: inside its chunk's square (for a
   * positive chunk size), outside the exclusion radius (for a non-negative
   * radius), dimensions and yaw in their draw ranges, a palette colour, and its
   * centre half its height above the terrain height of the world seed.
   */
  ghost predicate Placed(sin: Sine, b: BuildingInstance, chunkX: int, chunkZ: int, chunkSize: real, config: BuildingConfig)
  {
    var x := b.position.0;
    var z := b.position.2;
    var dx := x - config.spawnPosition.0;
    var dz := z - config.spawnPosition.2;
    (chunkSize > 0.0 ==>
       chunkX as real * chunkSize <= x < chunkX as real * chunkSize + chunkSize
       && chunkZ as real * chunkSize <= z < chunkZ as real * chunkSize + chunkSize)
    && (config.exclusionRadius >= 0.0 ==> dx * dx + dz * dz >= config.exclusionRadius * config.exclusionRadius)
    && 3.0 <= b.scale.0 < 8.0 && 8.0 <= b.scale.1 < 30.0 && 3.0 <= b.scale.2 < 8.0
    && 0.0 <= b.rotation < PI * 2.0
    && b.color in COLOR_CHOICES
    && b.position.1 == GetHeightAt(sin, x, z, config.seed as real, config.heightScale) + b.scale.1 / 2.0
  }

  /** An emitted candidate consumes 7 draws, a skipped one 2. */
  lemma CandidateDraws(sin: Sine, s: nat, chunkX: int, chunkZ: int, chunkSize: real, config: BuildingConfig)
    requires 1 <= s < MODULUS
    ensures var r := CandidateStep(sin, s, chunkX, chunkZ, chunkSize, config);
      r.1 == Iterate(s, if r.0.Some? then 7 else 2)
  {
    DrawChain(s);
  }

  /** The generator states after two and after seven draws. */
  lemma DrawChain(s: nat)
    ensures Iterate(s, 2) == NextState(NextState(s))
    ensures Iterate(s, 7) == NextState(NextState(NextState(NextState(NextState(NextState(NextState(s)))))))
  {
    assert Iterate(s, 1) == NextState(s);
    assert Iterate(s, 3) == NextState(Iterate(s, 2));
    assert Iterate(s, 4) == NextState(Iterate(s, 3));
    assert Iterate(s, 5) == NextState(Iterate(s, 4));
    assert Iterate(s, 6) == NextState(Iterate(s, 5));
  }

  /** Every emitted candidate is placed. */
  lemma CandidatePlaced(sin: Sine, s: nat, chunkX: int, chunkZ: int, chunkSize: real, config: BuildingConfig)
    requires 1 <= s < MODULUS
    ensures var r := CandidateStep(sin, s, chunkX, chunkZ, chunkSize, config);
      r.0.Some? ==> Placed(sin, r.0.value, chunkX, chunkZ, chunkSize, config)
  {
    var r := CandidateStep(sin, s, chunkX, chunkZ, chunkSize, config);
    if r.0.Some? {
      var s2 := NextState(NextState(s));
      var s6 := NextState(NextState(NextState(NextState(s2))));
      var index := IntDraw(s6, 0, |COLOR_CHOICES|);
      PiBounds();
      PlacedOf(sin, chunkX, chunkZ, chunkSize, config,
               RangeDraw(s, 0.0, chunkSize), RangeDraw(NextState(s), 0.0, chunkSize),
               r.0.value.position.1 - r.0.value.scale.1 / 2.0, r.0.value.scale.0, r.0.value.scale.1, r.0.value.scale.2,
               r.0.value.rotation, index);
    }
  }

  /** A building assembled from draws within their ranges, outside the exclusion radius, is placed. */
  lemma PlacedOf(sin: Sine, chunkX: int, chunkZ: int, chunkSize: real, config: BuildingConfig,
                 localX: real, localZ: real, groundHeight: real,
                 width: real, height: real, depth: real, rotation: real, index: int)
    requires chunkSize > 0.0 ==> 0.0 <= localX < chunkSize && 0.0 <= localZ < chunkSize
    requires !TooClose(chunkX as real * chunkSize + localX - config.spawnPosition.0,
                       chunkZ as real * chunkSize + localZ - config.spawnPosition.2, config.exclusionRadius)
    requires groundHeight == GetHeightAt(sin, chunkX as real * chunkSize + localX, chunkZ as real * chunkSize + localZ,
                                         config.seed as real, config.heightScale)
    requires 3.0 <= width < 8.0 && 8.0 <= height < 30.0 && 3.0 <= depth < 8.0 && 0.0 <= rotation < PI * 2.0
    requires 0 <= index < |COLOR_CHOICES|
    ensures Placed(sin, BuildingInstance((chunkX as real * chunkSize + localX, groundHeight + height / 2.0, chunkZ as real * chunkSize + localZ),
                                         (width, height, depth), rotation, COLOR_CHOICES[index]),
                   chunkX, chunkZ, chunkSize, config)
  {
    var dx := chunkX as real * chunkSize + localX - config.spawnPosition.0;
    var dz := chunkZ as real * chunkSize + localZ - config.spawnPosition.2;
    if config.exclusionRadius >= 0.0 {
      NonNegativeSquares(dx, dz);
    }
  }

  lemma NonNegativeSquares(dx: real, dz: real)
    ensures dx * dx + dz * dz >= 0.0
  {
    if dx < 0.0 {
      NonNegativeProduct(-dx, -dx);
    } else {
      NonNegativeProduct(dx, dx);
    }
    if dz < 0.0 {
      NonNegativeProduct(-dz, -dz);
    } else {
      NonNegativeProduct(dz, dz);
    }
  }

  /** A candidate step of one chunk, as a function of the generator state. */
  type StepFn = nat -> (Option<BuildingInstance>, nat)

  /** `step` is the candidate step of the chunk on every valid state; the link is reached only through `CandidateStep` terms. */
  ghost predicate IsCandidateStep(sin: Sine, chunkX: int, chunkZ: int, chunkSize: real, config: BuildingConfig, step: StepFn)
  {
    forall s: nat {:trigger CandidateStep(sin, s, chunkX, chunkZ, chunkSize, config)} ::
      1 <= s < MODULUS ==> step(s) == CandidateStep(sin, s, chunkX, chunkZ, chunkSize, config)
  }

  /** The draws a candidate step consumes: valid states, 7 draws for an emitted candidate and 2 for a skipped one. */
  ghost predicate Consumes(step: StepFn)
  {
    forall s: nat :: 1 <= s < MODULUS ==>
      1 <= step(s).1 < MODULUS
      && step(s).1 == Iterate(s, if step(s).0.Some? then 7 else 2)
  }

  /** What a candidate step guarantees: the draws it consumes and placed buildings. */
  ghost predicate Lawful(sin: Sine, chunkX: int, chunkZ: int, chunkSize: real, config: BuildingConfig, step: StepFn)
  {
    Consumes(step)
    && forall s: nat :: 1 <= s < MODULUS && step(s).0.Some? ==> Placed(sin, step(s).0.value, chunkX, chunkZ, chunkSize, config)
  }

  /**
   * The candidate step of a chunk as a function value, named by the property
   * that characterises it (extensionally it is `CandidateStep` on valid
   * states), so that reasoning about the loop does not unfold every draw.
   */
  ghost function CandidateChoice(sin: Sine, chunkX: int, chunkZ: int, chunkSize: real, config: BuildingConfig): (step: StepFn)
    ensures IsCandidateStep(sin, chunkX, chunkZ, chunkSize, config, step)
  {
    var exact: StepFn := (s: nat) => if 1 <= s < MODULUS then CandidateStep(sin, s, chunkX, chunkZ, chunkSize, config) else (None, s);
    assert IsCandidateStep(sin, chunkX, chunkZ, chunkSize, config, exact);
    var step: StepFn :| IsCandidateStep(sin, chunkX, chunkZ, chunkSize, config, step);
    step
  }

  lemma CandidateStepLawful(sin: Sine, chunkX: int, chunkZ: int, chunkSize: real, config: BuildingConfig, step: StepFn)
    requires IsCandidateStep(sin, chunkX, chunkZ, chunkSize, config, step)
    ensures Lawful(sin, chunkX, chunkZ, chunkSize, config, step)
  {
    forall s: nat | 1 <= s < MODULUS
      ensures 1 <= step(s).1 < MODULUS
      ensures step(s).1 == Iterate(s, if step(s).0.Some? then 7 else 2)
      ensures step(s).0.Some? ==> Placed(sin, step(s).0.value, chunkX, chunkZ, chunkSize, config)
    {
      assert step(s) == CandidateStep(sin, s, chunkX, chunkZ, chunkSize, config);
      CandidateDraws(sin, s, chunkX, chunkZ, chunkSize, config);
      CandidatePlaced(sin, s, chunkX, chunkZ, chunkSize, config);
    }
  }

  /**
   * The buildings list after `n` more candidates, starting with the list
   * `built` and generator state `s`; returns the list and the final state.
   */
  ghost function Candidates(step: StepFn, built: seq<BuildingInstance>, s: nat, n: nat): (r: (seq<BuildingInstance>, nat))
    ensures |built| <= |r.0| <= |built| + n
    decreases n
  {
    if n == 0 then (built, s)
    else
      var r := step(s);
      Candidates(step, if r.0.Some? then built + [r.0.value] else built, r.1, n - 1)
  }

  /** One more candidate: the first step's building, if any, is appended, and the rest continue from its state. */
  lemma CandidatesNext(step: StepFn, built: seq<BuildingInstance>, s: nat, n: nat, rest: nat)
    requires n == rest + 1
    ensures Candidates(step, built, s, n)
         == Candidates(step, if step(s).0.Some? then built + [step(s).0.value] else built, step(s).1, rest)
  {
  }

  /**
   * The `n` candidates keep the list built so far and emit at most `n`
   * further buildings, all of them placed.
   */
  lemma {:induction false} CandidatesPlaced(sin: Sine, chunkX: int, chunkZ: int, chunkSize: real, config: BuildingConfig,
                                           step: StepFn, built: seq<BuildingInstance>, s: nat, n: nat)
    requires Lawful(sin, chunkX, chunkZ, chunkSize, config, step) && 1 <= s < MODULUS
    ensures var r := Candidates(step, built, s, n);
      r.0[..|built|] == built
      && forall k :: |built| <= k < |r.0| ==> Placed(sin, r.0[k], chunkX, chunkZ, chunkSize, config)
    decreases n
  {
    if n > 0 {
      var first := step(s);
      var next := if first.0.Some? then built + [first.0.value] else built;
      CandidatesPlaced(sin, chunkX, chunkZ, chunkSize, config, step, next, first.1, n - 1);
      var r := Candidates(step, next, first.1, n - 1);
      assert r.0[..|next|] == next;
      assert r.0[..|built|] == next[..|built|];
      if first.0.Some? {
        assert r.0[|built|] == next[|built|];
      }
    }
  }

  /** The `n` candidates consume exactly 2 draws each plus 5 more per emitted building. */
  lemma {:induction false} CandidatesDraws(step: StepFn, built: seq<BuildingInstance>, s: nat, n: nat)
    requires Consumes(step) && 1 <= s < MODULUS
    ensures var r := Candidates(step, built, s, n);
      r.1 == Iterate(s, 2 * n + 5 * (|r.0| - |built|))
    decreases n
  {
    if n > 0 {
      var first := step(s);
      var next := if first.0.Some? then built + [first.0.value] else built;
      CandidatesDraws(step, next, first.1, n - 1);
      var r := Candidates(step, next, first.1, n - 1);
      var later := 2 * (n - 1) + 5 * (|r.0| - |next|);
      var drawn := if first.0.Some? then 7 else 2;
      assert drawn + later == 2 * n + 5 * (|r.0| - |built|);
      IterateAdd(s, drawn, later);
    }
  }

  /** The generator state a chunk's generator starts from. */
  function ChunkState(chunkX: int, chunkZ: int, config: BuildingConfig): (s: nat)
    ensures 1 <= s < MODULUS
  {
    InitState(HashCoords(chunkX, chunkZ, config.seed))
  }

  /** `generateBuildingsForChunk(chunkX, chunkZ, chunkSize, config)`. */
  ghost function Generate(sin: Sine, chunkX: int, chunkZ: int, chunkSize: real, config: BuildingConfig): seq<BuildingInstance>
  {
    var (count, s) := CountDraw(ChunkState(chunkX, chunkZ, config));
    if count <= 0 then [] else Candidates(CandidateChoice(sin, chunkX, chunkZ, chunkSize, config), [], s, count).0
  }

  /**
   * A chunk holds at most 7 buildings (none when its density is at most 0.4,
   * at most 3 when it is at most 0.7), and every one of them is placed.
   */
  lemma GenerateProperties(sin: Sine, chunkX: int, chunkZ: int, chunkSize: real, config: BuildingConfig)
    ensures var bs := Generate(sin, chunkX, chunkZ, chunkSize, config);
      var density := Value(NextState(ChunkState(chunkX, chunkZ, config)));
      |bs| <= 7
      && (density <= 0.4 ==> |bs| == 0)
      && (density <= 0.7 ==> |bs| <= 3)
      && forall k :: 0 <= k < |bs| ==> Placed(sin, bs[k], chunkX, chunkZ, chunkSize, config)
  {
    var s0 := ChunkState(chunkX, chunkZ, config);
    CountBuckets(s0);
    var (count, s) := CountDraw(s0);
    if count > 0 {
      var step := CandidateChoice(sin, chunkX, chunkZ, chunkSize, config);
      CandidateStepLawful(sin, chunkX, chunkZ, chunkSize, config, step);
      CandidatesPlaced(sin, chunkX, chunkZ, chunkSize, config, step, [], s, count);
    }
  }

  /** A candidate whose two position draws put it too close to the spawn point is skipped after those two draws. */
  lemma SkippedCandidate(sin: Sine, s: nat, chunkX: int, chunkZ: int, chunkSize: real, config: BuildingConfig,
                         s1: nat, s2: nat, worldX: real, worldZ: real)
    requires 1 <= s < MODULUS && s1 == NextState(s) && s2 == NextState(s1)
    requires worldX == chunkX as real * chunkSize + RangeDraw(s, 0.0, chunkSize)
    requires worldZ == chunkZ as real * chunkSize + RangeDraw(s1, 0.0, chunkSize)
    requires TooClose(worldX - config.spawnPosition.0, worldZ - config.spawnPosition.2, config.exclusionRadius)
    ensures CandidateChoice(sin, chunkX, chunkZ, chunkSize, config)(s) == (None, s2)
  {
    assert CandidateChoice(sin, chunkX, chunkZ, chunkSize, config)(s) == CandidateStep(sin, s, chunkX, chunkZ, chunkSize, config);
  }

  /** The generator states of the seven draws of an emitted candidate. */
  datatype DrawStates = DrawStates(s1: nat, s2: nat, s3: nat, s4: nat, s5: nat, s6: nat, s7: nat)

  /** Each state follows the previous one by one `next()`. */
  ghost predicate Successive(s: nat, d: DrawStates)
  {
    d.s1 == NextState(s) && d.s2 == NextState(d.s1) && d.s3 == NextState(d.s2) && d.s4 == NextState(d.s3)
    && d.s5 == NextState(d.s4) && d.s6 == NextState(d.s5) && d.s7 == NextState(d.s6)
  }

  /** A candidate outside the exclusion radius is the building made of its seven draws and the terrain height. */
  lemma EmittedCandidate(sin: Sine, s: nat, chunkX: int, chunkZ: int, chunkSize: real, config: BuildingConfig, d: DrawStates,
                         worldX: real, worldZ: real, groundHeight: real,
                         width: real, height: real, depth: real, rotation: real, index: int)
    requires 1 <= s < MODULUS && Successive(s, d)
    requires worldX == chunkX as real * chunkSize + RangeDraw(s, 0.0, chunkSize)
    requires worldZ == chunkZ as real * chunkSize + RangeDraw(d.s1, 0.0, chunkSize)
    requires !TooClose(worldX - config.spawnPosition.0, worldZ - config.spawnPosition.2, config.exclusionRadius)
    requires groundHeight == GetHeightAt(sin, worldX, worldZ, config.seed as real, config.heightScale)
    requires width == RangeDraw(d.s2, 3.0, 8.0) && height == RangeDraw(d.s3, 8.0, 30.0)
    requires depth == RangeDraw(d.s4, 3.0, 8.0) && rotation == RangeDraw(d.s5, 0.0, PI * 2.0)
    requires index == IntDraw(d.s6, 0, |COLOR_CHOICES|)
    ensures 0 <= index < |COLOR_CHOICES|
    ensures CandidateChoice(sin, chunkX, chunkZ, chunkSize, config)(s)
         == (Some(BuildingInstance((worldX, groundHeight + height / 2.0, worldZ), (width, height, depth), rotation, COLOR_CHOICES[index])),
             d.s7)
  {
    assert CandidateChoice(sin, chunkX, chunkZ, chunkSize, config)(s) == CandidateStep(sin, s, chunkX, chunkZ, chunkSize, config);
  }

  /**
   * The body of the candidate loop: a position draw, the exclusion test and,
   * for a candidate outside the exclusion radius, the five further draws. The
   * result and the new generator state are one step of the specification.
   */
  method DrawCandidate(rng: SeededRandom, sin: Sine, chunkX: int, chunkZ: int, chunkSize: real, config: BuildingConfig)
    returns (b: Option<BuildingInstance>)
    requires rng.Valid() && 1 <= rng.seed
    modifies rng
    ensures rng.Valid() && 1 <= rng.seed
    ensures (b, rng.seed) == CandidateChoice(sin, chunkX, chunkZ, chunkSize, config)(old(rng.seed))
  {
    ghost var s := rng.seed;
    var localX := rng.Range(0.0, chunkSize);
    ghost var s1 := rng.seed;
    var localZ := rng.Range(0.0, chunkSize);
    ghost var s2 := rng.seed;
    var worldX := chunkX as real * chunkSize + localX;
    var worldZ := chunkZ as real * chunkSize + localZ;
    if TooClose(worldX - config.spawnPosition.0, worldZ - config.spawnPosition.2, config.exclusionRadius) {
      SkippedCandidate(sin, s, chunkX, chunkZ, chunkSize, config, s1, s2, worldX, worldZ);
      return None;
    }
    var groundHeight := HeightAt(sin, worldX, worldZ, config.seed as real, config.heightScale);
    var width := rng.Range(3.0, 8.0);
    ghost var s3 := rng.seed;
    var height := rng.Range(8.0, 30.0);
    ghost var s4 := rng.seed;
    var depth := rng.Range(3.0, 8.0);
    ghost var s5 := rng.seed;
    var rotation := rng.Range(0.0, PI * 2.0);
    ghost var s6 := rng.seed;
    var index := rng.Int(0, |COLOR_CHOICES|);
    EmittedCandidate(sin, s, chunkX, chunkZ, chunkSize, config, DrawStates(s1, s2, s3, s4, s5, s6, rng.seed),
                     worldX, worldZ, groundHeight, width, height, depth, rotation, index);
    var color := COLOR_CHOICES[index];
    b := Some(BuildingInstance((worldX, groundHeight + height / 2.0, worldZ), (width, height, depth), rotation, color));
  }

  /** The density draw and, for a density above 0.4, the count draw: one step of `CountDraw`. */
  method DrawCount(rng: SeededRandom) returns (buildingCount: int)
    requires rng.Valid() && 1 <= rng.seed
    modifies rng
    ensures rng.Valid() && 1 <= rng.seed
    ensures (buildingCount, rng.seed) == CountDraw(old(rng.seed))
  {
    var density := rng.Next();
    buildingCount := 0;
    if density > 0.7 {
      buildingCount := rng.Int(3, 8);
    } else if density > 0.4 {
      buildingCount := rng.Int(1, 4);
    }
  }

  method GenerateBuildingsForChunk(sin: Sine, chunkX: int, chunkZ: int, chunkSize: real, config: BuildingConfig)
    returns (buildings: seq<BuildingInstance>)
    ensures buildings == Generate(sin, chunkX, chunkZ, chunkSize, config)
  {
    var chunkSeed := HashCoords(chunkX, chunkZ, config.seed);
    var rng := new SeededRandom(chunkSeed);
    var buildingCount := DrawCount(rng);
    ghost var step := CandidateChoice(sin, chunkX, chunkZ, chunkSize, config);
    ghost var final := Candidates(step, [], rng.seed, if buildingCount <= 0 then 0 else buildingCount);
    buildings := [];
    for i := 0 to buildingCount
      invariant rng.Valid() && 1 <= rng.seed
      invariant Candidates(step, buildings, rng.seed, buildingCount - i) == final
    {
      ghost var s := rng.seed;
      CandidatesNext(step, buildings, s, buildingCount - i, buildingCount - (i + 1));
      var candidate := DrawCandidate(rng, sin, chunkX, chunkZ, chunkSize, config);
      if candidate.Some? {
        buildings := buildings + [candidate.value];
      }
    }
  }
}
