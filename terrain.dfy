/**
 * Terrain helpers: chunk keys, world-to-chunk floor division, the terrain
 * height function, and the two buffer loops of `generateTerrainChunk`
 * (heights written in place into the vertex buffer, then a colour buffer
 * filled from those heights).
 */
module Terrain {
  import opened Wrappers
  import opened Prng
  import opened Noise

  // ---------------------------------------------------------------------
  // Chunk keys: `${chunkX},${chunkZ}` for integer coordinates

  function DigitChar(d: nat): (c: char)
    requires d < 10
    ensures '0' <= c <= '9' && c as int - '0' as int == d
  {
    ('0' as int + d) as char
  }

  predicate IsDigits(s: string)
  {
    forall i :: 0 <= i < |s| ==> '0' <= s[i] <= '9'
  }

  /** The decimal digits of n, most significant first, without leading zeros. */
  function NatToString(n: nat): (s: string)
    ensures |s| >= 1 && IsDigits(s)
  {
    if n < 10 then [DigitChar(n)] else NatToString(n / 10) + [DigitChar(n % 10)]
  }

  /** JavaScript's decimal rendering of an integral number. */
  function IntToString(i: int): (s: string)
    ensures |s| >= 1
    ensures i < 0 <==> s[0] == '-'
    ensures forall k :: 0 <= k < |s| ==> s[k] != ','
  {
    if i < 0 then "-" + NatToString(-i) else NatToString(i)
  }

  /** `${chunkX},${chunkZ}`; it reads back to its coordinates (`ChunkKeyRoundTrip`). */
  function GetChunkKey(chunkX: int, chunkZ: int): string
  {
    IntToString(chunkX) + "," + IntToString(chunkZ)
  }

  /** The number a digit string denotes. */
  function DigitsValue(s: string): nat
    requires IsDigits(s)
  {
    if |s| == 0 then 0 else DigitsValue(s[..|s| - 1]) * 10 + (s[|s| - 1] as int - '0' as int)
  }

  /** Reading a decimal integer, with an optional leading minus sign. */
  function ParseInt(s: string): Option<int>
  {
    if |s| >= 2 && s[0] == '-' && IsDigits(s[1..]) then Some(0 - DigitsValue(s[1..]))
    else if |s| >= 1 && IsDigits(s) then Some(DigitsValue(s))
    else None
  }

  /** The position of the first comma in s, if any. */
  function CommaIndex(s: string): (r: Option<nat>)
    ensures r.Some? ==> r.value < |s| && s[r.value] == ',' && forall k :: 0 <= k < r.value ==> s[k] != ','
    ensures r.None? ==> forall k :: 0 <= k < |s| ==> s[k] != ','
  {
    if |s| == 0 then None
    else if s[0] == ',' then Some(0)
    else match CommaIndex(s[1..])
      case None => None
      case Some(k) => Some(k + 1)
  }

  /** Splitting a chunk key at its first comma and reading both coordinates. */
  function ParseChunkKey(key: string): Option<(int, int)>
  {
    match CommaIndex(key)
    case None => None
    case Some(k) =>
      match (ParseInt(key[..k]), ParseInt(key[k + 1..]))
      case (Some(x), Some(z)) => Some((x, z))
      case _ => None
  }

  lemma {:induction false} NatToStringRoundTrip(n: nat)
    ensures DigitsValue(NatToString(n)) == n
  {
    if n >= 10 {
      NatToStringRoundTrip(n / 10);
      var s := NatToString(n);
      assert s[..|s| - 1] == NatToString(n / 10);
    }
  }

  /** Reading back the rendering of an integer gives the integer. */
  lemma IntToStringRoundTrip(i: int)
    ensures ParseInt(IntToString(i)) == Some(i)
  {
    if i < 0 {
      var s := IntToString(i);
      assert s[1..] == NatToString(-i);
      NatToStringRoundTrip(-i);
    } else {
      NatToStringRoundTrip(i);
    }
  }

  /** Reading back a chunk key gives its two coordinates. */
  lemma ChunkKeyRoundTrip(chunkX: int, chunkZ: int)
    ensures ParseChunkKey(GetChunkKey(chunkX, chunkZ)) == Some((chunkX, chunkZ))
  {
    var a := IntToString(chunkX);
    var key := GetChunkKey(chunkX, chunkZ);
    assert key[|a|] == ',';
    assert forall k :: 0 <= k < |a| ==> key[k] == a[k];
    assert CommaIndex(key) == Some(|a|);
    assert key[..|a|] == a;
    assert key[|a| + 1..] == IntToString(chunkZ);
    IntToStringRoundTrip(chunkX);
    IntToStringRoundTrip(chunkZ);
  }

  /** Distinct coordinate pairs have distinct keys, so the chunk maps never conflate two chunks. */
  lemma ChunkKeyInjective(x1: int, z1: int, x2: int, z2: int)
    ensures GetChunkKey(x1, z1) == GetChunkKey(x2, z2) <==> x1 == x2 && z1 == z2
  {
    ChunkKeyRoundTrip(x1, z1);
    ChunkKeyRoundTrip(x2, z2);
  }

  // ---------------------------------------------------------------------
  // World to chunk coordinates

  /** `[Math.floor(worldX / chunkSize), Math.floor(worldZ / chunkSize)]`. */
  function WorldToChunk(worldX: real, worldZ: real, chunkSize: real): (c: (int, int))
    requires chunkSize != 0.0
    ensures c.0 as real <= worldX / chunkSize < c.0 as real + 1.0
    ensures c.1 as real <= worldZ / chunkSize < c.1 as real + 1.0
  {
    ((worldX / chunkSize).Floor, (worldZ / chunkSize).Floor)
  }

  /** For a positive chunk size, the world point lies inside the chunk's square. */
  lemma WorldToChunkContains(worldX: real, worldZ: real, chunkSize: real)
    requires chunkSize > 0.0
    ensures var c := WorldToChunk(worldX, worldZ, chunkSize);
      c.0 as real * chunkSize <= worldX < (c.0 as real + 1.0) * chunkSize
      && c.1 as real * chunkSize <= worldZ < (c.1 as real + 1.0) * chunkSize
  {
    var c := WorldToChunk(worldX, worldZ, chunkSize);
    FloorScaled(worldX, chunkSize, c.0);
    FloorScaled(worldZ, chunkSize, c.1);
  }

  lemma FloorScaled(w: real, size: real, k: int)
    requires size > 0.0 && k as real <= w / size < k as real + 1.0
    ensures k as real * size <= w < (k as real + 1.0) * size
  {
    var q := w / size;
    assert q * size == w;
    var e := q - k as real;
    assert 0.0 <= e < 1.0;
    assert w - k as real * size == e * size;
    assert (k as real + 1.0) * size - w == (1.0 - e) * size;
    NonNegativeProduct(e, size);
    assert (1.0 - e) * size > 0.0;
  }

  // ---------------------------------------------------------------------
  // Heights

  /** The fbm sample point of `getHeightAt`: the coordinate shifted by seed/10, then scaled by 1/100. */
  function NoiseCoord(c: real, seed: real): real
  {
    (c + seed * 0.1) * 0.01
  }

  /**
   * `getHeightAt(x, z, seed, heightScale)`: five octaves of persistence 0.5 at
   * the shifted and scaled point, times the height scale.
   */
  ghost function GetHeightAt(sin: Sine, x: real, z: real, seed: real, heightScale: real): (h: real)
    ensures heightScale >= 0.0 ==> 0.0 <= h <= heightScale
    ensures heightScale > 0.0 ==> h < heightScale
  {
    var f := FbmField(sin, 5, 0.5)(NoiseCoord(x, seed), NoiseCoord(z, seed));
    if heightScale >= 0.0 then WeightedBelow(f, heightScale); f * heightScale
    else f * heightScale
  }

  /** The height is the five-octave fbm at the shifted and scaled point, times the height scale. */
  lemma GetHeightAtIsFbm(sin: Sine, x: real, z: real, seed: real, heightScale: real)
    ensures GetHeightAt(sin, x, z, seed, heightScale) == Fbm(sin, NoiseCoord(x, seed), NoiseCoord(z, seed), 5, 0.5) * heightScale
  {
  }

  /** The computation of `getHeightAt`, running the octave loop of `fbm`. */
  method HeightAt(sin: Sine, x: real, z: real, seed: real, heightScale: real) returns (h: real)
    ensures h == GetHeightAt(sin, x, z, seed, heightScale)
  {
    var f := FbmLoop(sin, NoiseCoord(x, seed), NoiseCoord(z, seed), 5, 0.5);
    h := f * heightScale;
  }

  /** The parameters `generateTerrainChunk` reads from its configuration. */
  datatype TerrainConfig = TerrainConfig(chunkSize: real, resolution: nat, heightScale: real, seed: int)

  /** Where a chunk sits: its world origin and the hash offset that shifts its noise. */
  datatype ChunkPlacement = ChunkPlacement(originX: real, originZ: real, seedOffset: real)

  /**
   * The chunk at (chunkX, chunkZ) starts at (chunkX * chunkSize, chunkZ * chunkSize)
   * and shifts its noise by `hashCoords(chunkX, chunkZ, seed)` instead of the world seed.
   */
  function Placement(chunkX: int, chunkZ: int, config: TerrainConfig): (p: ChunkPlacement)
    ensures 0.0 <= p.seedOffset <= TWO31 as real
  {
    ChunkPlacement(chunkX as real * config.chunkSize, chunkZ as real * config.chunkSize,
                   HashCoords(chunkX, chunkZ, config.seed) as real)
  }

  /**
   * The vertex buffer after the height loop, triple by triple: the first two
   * entries (x, y) are kept and the third becomes `getHeightAt` of the world
   * point (x + originX, y + originZ) with the chunk's hash offset as seed. A
   * trailing part shorter than a triple is kept as it is.
   */
  ghost function HeightField(sin: Sine, positions: seq<real>, placement: ChunkPlacement, heightScale: real): (r: seq<real>)
    ensures |r| == |positions|
    decreases |positions|
  {
    if |positions| < 3 then positions
    else
      [positions[0], positions[1],
       GetHeightAt(sin, positions[0] + placement.originX, positions[1] + placement.originZ, placement.seedOffset, heightScale)]
      + HeightField(sin, positions[3..], placement, heightScale)
  }

  /** Triple v of the buffer: x and y are kept and z becomes the height of the world point of (x, y). */
  lemma {:induction false} HeightFieldAt(sin: Sine, positions: seq<real>, placement: ChunkPlacement, heightScale: real, v: nat)
    requires 3 * v + 2 < |positions|
    ensures var r := HeightField(sin, positions, placement, heightScale);
      r[3 * v] == positions[3 * v] && r[3 * v + 1] == positions[3 * v + 1]
      && r[3 * v + 2] == GetHeightAt(sin, positions[3 * v] + placement.originX, positions[3 * v + 1] + placement.originZ,
                                     placement.seedOffset, heightScale)
    decreases v
  {
    if v > 0 {
      var rest := positions[3..];
      HeightFieldAt(sin, rest, placement, heightScale, v - 1);
      var j := 3 * (v - 1);
      assert rest[j] == positions[3 * v] && rest[j + 1] == positions[3 * v + 1];
      var r := HeightField(sin, positions, placement, heightScale);
      assert r[3..] == HeightField(sin, rest, placement, heightScale);
      assert r[3 * v] == r[3..][j] && r[3 * v + 1] == r[3..][j + 1] && r[3 * v + 2] == r[3..][j + 2];
    }
  }

  /** The height loop works triple by triple, so the field of a concatenation is the concatenation of fields. */
  lemma {:induction false} HeightFieldAppend(sin: Sine, p: seq<real>, t: seq<real>, placement: ChunkPlacement, heightScale: real, v: nat)
    requires |p| == 3 * v
    ensures HeightField(sin, p + t, placement, heightScale)
         == HeightField(sin, p, placement, heightScale) + HeightField(sin, t, placement, heightScale)
    decreases v
  {
    if v == 0 {
      assert p + t == t;
    } else {
      var q := p + t;
      assert q[0] == p[0] && q[1] == p[1] && q[3..] == p[3..] + t;
      HeightFieldAppend(sin, p[3..], t, placement, heightScale, v - 1);
    }
  }

  /**
   * One iteration of the height loop: with the prefix before triple v finished
   * and the rest untouched, writing the height of triple v into its third
   * entry finishes one more triple and leaves the rest untouched.
   */
  lemma HeightLoopStep(sin: Sine, original: seq<real>, before: seq<real>, after: seq<real>,
                       placement: ChunkPlacement, heightScale: real, v: nat, h: real)
    requires 3 * v + 3 <= |original| == |before|
    requires before[..3 * v] == HeightField(sin, original[..3 * v], placement, heightScale)
    requires before[3 * v..] == original[3 * v..]
    requires h == GetHeightAt(sin, before[3 * v] + placement.originX, before[3 * v + 1] + placement.originZ,
                              placement.seedOffset, heightScale)
    requires after == before[3 * v + 2 := h]
    ensures after[..3 * v + 3] == HeightField(sin, original[..3 * v + 3], placement, heightScale)
    ensures after[3 * v + 3..] == original[3 * v + 3..]
  {
    var i := 3 * v;
    assert after[..i + 3] == before[..i] + [original[i], original[i + 1], h] by {
      assert before[i..][0] == before[i] && before[i..][1] == before[i + 1];
    }
    assert original[..i + 3] == original[..i] + original[i..i + 3];
    assert HeightField(sin, original[..i + 3], placement, heightScale)
        == HeightField(sin, original[..i], placement, heightScale) + [original[i], original[i + 1], h] by {
      var t := original[i..i + 3];
      HeightFieldAppend(sin, original[..i], t, placement, heightScale, v);
      assert t[3..] == [];
    }
  }

  /** With a non-zero buffer length a multiple of three, a triple index below the count fits. */
  lemma TripleInside(v: nat, m: nat, i: int, n: int)
    requires i == 3 * v && n == 3 * m && i < n
    ensures v < m && i + 3 <= n
  {
  }

  /** The height loop of `generateTerrainChunk`, in place on the vertex buffer. */
  method ApplyHeights(sin: Sine, positions: array<real>, chunkX: int, chunkZ: int, config: TerrainConfig)
    requires positions.Length % 3 == 0
    modifies positions
    ensures positions[..] == HeightField(sin, old(positions[..]), Placement(chunkX, chunkZ, config), config.heightScale)
  {
    ghost var original := positions[..];
    ghost var placement := Placement(chunkX, chunkZ, config);
    ghost var m := positions.Length / 3;
    var seedOffset := HashCoords(chunkX, chunkZ, config.seed) as real;
    var originX := chunkX as real * config.chunkSize;
    var originZ := chunkZ as real * config.chunkSize;
    assert placement == ChunkPlacement(originX, originZ, seedOffset);
    var i := 0;
    ghost var v := 0;
    while i < positions.Length
      invariant 0 <= v <= m && i == 3 * v
      invariant positions[..i] == HeightField(sin, original[..i], placement, config.heightScale)
      invariant positions[i..] == original[i..]
    {
      TripleInside(v, m, i, positions.Length);
      ghost var before := positions[..];
      var x := positions[i] + originX;
      var z := positions[i + 1] + originZ;
      var h := HeightAt(sin, x, z, seedOffset, config.heightScale);
      positions[i + 2] := h;
      HeightLoopStep(sin, original, before, positions[..], placement, config.heightScale, v, h);
      i := i + 3;
      v := v + 1;
    }
    assert original[..i] == original;
  }

  /** A buffer whose every third entry, triple by triple, lies in [0, heightScale). */
  predicate HeightsBelow(h: seq<real>, heightScale: real)
    decreases |h|
  {
    |h| < 3 || (0.0 <= h[2] < heightScale && HeightsBelow(h[3..], heightScale))
  }

  /** With a positive height scale every written height lies in [0, heightScale). */
  lemma {:induction false} HeightFieldBelow(sin: Sine, positions: seq<real>, placement: ChunkPlacement, heightScale: real)
    requires heightScale > 0.0
    ensures HeightsBelow(HeightField(sin, positions, placement, heightScale), heightScale)
    decreases |positions|
  {
    if |positions| >= 3 {
      HeightFieldBelow(sin, positions[3..], placement, heightScale);
      var r := HeightField(sin, positions, placement, heightScale);
      assert r[3..] == HeightField(sin, positions[3..], placement, heightScale);
    }
  }

  // ---------------------------------------------------------------------
  // Vertex colours

  /** The height normalised so that the range [-heightScale/2, heightScale/2] maps to [0, 1]. */
  function NormalizedHeight(height: real, heightScale: real): real
    requires heightScale != 0.0
  {
    (height + heightScale * 0.5) / heightScale
  }

  /** The (r, g, b) triple the colour loop writes for a vertex of the given height. */
  function ColorTriple(height: real, heightScale: real): seq<real>
    requires heightScale != 0.0
  {
    var n := NormalizedHeight(height, heightScale);
    [0.3 + n * 0.4, 0.5 + n * 0.2, 0.35 - n * 0.1]
  }

  /**
   * The colour buffer: each triple coloured by the height in the third entry
   * of the matching vertex triple; a trailing part shorter than a triple keeps
   * the zeros of the fresh buffer.
   */
  function ColorField(h: seq<real>, heightScale: real): (r: seq<real>)
    requires heightScale != 0.0
    ensures |r| == |h|
    decreases |h|
  {
    if |h| < 3 then [0.0, 0.0][..|h|]
    else ColorTriple(h[2], heightScale) + ColorField(h[3..], heightScale)
  }

  /** Triple v of the colour buffer is the colour of the height stored in vertex triple v. */
  lemma {:induction false} ColorFieldAt(h: seq<real>, heightScale: real, v: nat, c: nat)
    requires heightScale != 0.0 && 3 * v + 2 < |h| && c < 3
    ensures ColorField(h, heightScale)[3 * v + c] == ColorTriple(h[3 * v + 2], heightScale)[c]
    decreases v
  {
    if v > 0 {
      var rest := h[3..];
      ColorFieldAt(rest, heightScale, v - 1, c);
      var j := 3 * (v - 1);
      assert rest[j + 2] == h[3 * v + 2];
      var r := ColorField(h, heightScale);
      assert r[3..] == ColorField(rest, heightScale);
      assert r[3 * v + c] == r[3..][j + c];
    }
  }

  lemma {:induction false} ColorFieldAppend(p: seq<real>, t: seq<real>, heightScale: real, v: nat)
    requires |p| == 3 * v && heightScale != 0.0
    ensures ColorField(p + t, heightScale) == ColorField(p, heightScale) + ColorField(t, heightScale)
    decreases v
  {
    if v == 0 {
      assert p + t == t;
    } else {
      var q := p + t;
      assert q[2] == p[2] && q[3..] == p[3..] + t;
      ColorFieldAppend(p[3..], t, heightScale, v - 1);
    }
  }

  /**
   * One iteration of the colour loop: with the colours of the first v triples
   * in place, writing the colour of vertex triple v extends them by one triple.
   */
  lemma ColorLoopStep(positions: seq<real>, before: seq<real>, after: seq<real>, heightScale: real, v: nat)
    requires heightScale != 0.0 && 3 * v + 3 <= |positions| == |before| == |after|
    requires before[..3 * v] == ColorField(positions[..3 * v], heightScale)
    requires after[..3 * v + 3] == before[..3 * v] + ColorTriple(positions[3 * v + 2], heightScale)
    ensures after[..3 * v + 3] == ColorField(positions[..3 * v + 3], heightScale)
  {
    var i := 3 * v;
    var t := positions[i..i + 3];
    assert positions[..i + 3] == positions[..i] + t;
    ColorFieldAppend(positions[..i], t, heightScale, v);
    assert t[3..] == [];
  }

  lemma DivideBounds(a: real, b: real, lo: real, hi: real)
    requires b > 0.0 && lo * b <= a < hi * b
    ensures lo <= a / b < hi
  {
    var q := a / b;
    assert q * b == a;
    assert (q - lo) * b == a - lo * b;
    SignOfProduct(q - lo, b);
    assert (hi - q) * b == hi * b - a;
    SignOfProduct(hi - q, b);
  }

  lemma SignOfProduct(x: real, b: real)
    requires b > 0.0
    ensures x * b >= 0.0 ==> x >= 0.0
    ensures x * b > 0.0 ==> x > 0.0
  {
  }

  /**
   * A height in [0, heightScale) has normalised height in [0.5, 1.5), so each
   * of its colour components lies inside [0, 1].
   */
  lemma ColorTripleInRange(height: real, heightScale: real)
    requires heightScale > 0.0 && 0.0 <= height < heightScale
    ensures var c := ColorTriple(height, heightScale);
      0.5 <= c[0] < 0.9 && 0.6 <= c[1] < 0.8 && 0.2 < c[2] <= 0.3
  {
    DivideBounds(height + heightScale * 0.5, heightScale, 0.5, 1.5);
  }

  /** Colouring a buffer whose heights lie in [0, heightScale) gives components in [0, 1]. */
  lemma {:induction false} ColorFieldInRange(h: seq<real>, heightScale: real)
    requires heightScale > 0.0 && HeightsBelow(h, heightScale)
    ensures forall k :: 0 <= k < |ColorField(h, heightScale)| ==> 0.0 <= ColorField(h, heightScale)[k] <= 1.0
    decreases |h|
  {
    var c := ColorField(h, heightScale);
    if |h| < 3 {
      assert forall k :: 0 <= k < |c| ==> c[k] == 0.0;
    } else {
      ColorTripleInRange(h[2], heightScale);
      ColorFieldInRange(h[3..], heightScale);
      var rest := ColorField(h[3..], heightScale);
      var first := ColorTriple(h[2], heightScale);
      assert c == first + rest;
      forall k | 0 <= k < |c|
        ensures 0.0 <= c[k] <= 1.0
      {
        if k >= 3 {
          assert c[k] == rest[k - 3];
        }
      }
    }
  }

  /** Over a whole generated chunk every colour component lies in [0, 1] when the height scale is positive. */
  lemma TerrainColorsInRange(sin: Sine, positions: seq<real>, placement: ChunkPlacement, heightScale: real)
    requires heightScale > 0.0
    ensures forall k :: 0 <= k < |positions| ==> 0.0 <= ColorField(HeightField(sin, positions, placement, heightScale), heightScale)[k] <= 1.0
  {
    HeightFieldBelow(sin, positions, placement, heightScale);
    ColorFieldInRange(HeightField(sin, positions, placement, heightScale), heightScale);
  }

  /** The colour loop of `generateTerrainChunk`: a new buffer as long as the vertex buffer. */
  method FillColors(positions: array<real>, heightScale: real) returns (colors: array<real>)
    requires positions.Length % 3 == 0 && heightScale != 0.0
    ensures fresh(colors)
    ensures colors[..] == ColorField(positions[..], heightScale)
  {
    ghost var m := positions.Length / 3;
    colors := new real[positions.Length](_ => 0.0);
    var i := 0;
    ghost var v := 0;
    while i < positions.Length
      invariant 0 <= v <= m && i == 3 * v
      invariant colors[..i] == ColorField(positions[..i], heightScale)
    {
      TripleInside(v, m, i, positions.Length);
      var height := positions[i + 2];
      var normalizedHeight := (height + heightScale * 0.5) / heightScale;
      ghost var before := colors[..];
      colors[i] := 0.3 + normalizedHeight * 0.4;
      colors[i + 1] := 0.5 + normalizedHeight * 0.2;
      colors[i + 2] := 0.35 - normalizedHeight * 0.1;
      assert colors[..i + 3] == before[..i] + ColorTriple(height, heightScale);
      ColorLoopStep(positions[..], before, colors[..], heightScale, v);
      assert positions[..][..i + 3] == positions[..i + 3];
      i := i + 3;
      v := v + 1;
    }
    assert colors[..] == colors[..i] && positions[..] == positions[..i];
  }

  /**
   * The two buffer loops of `generateTerrainChunk`: heights into the vertex
   * buffer, then the colour buffer from them. With a positive height scale
   * every colour component lies in [0, 1].
   */
  method GenerateTerrainChunk(sin: Sine, positions: array<real>, chunkX: int, chunkZ: int, config: TerrainConfig)
    returns (colors: array<real>)
    requires positions.Length % 3 == 0 && config.heightScale != 0.0
    modifies positions
    ensures positions[..] == HeightField(sin, old(positions[..]), Placement(chunkX, chunkZ, config), config.heightScale)
    ensures fresh(colors) && colors[..] == ColorField(positions[..], config.heightScale)
    ensures config.heightScale > 0.0 ==> forall k :: 0 <= k < colors.Length ==> 0.0 <= colors[k] <= 1.0
  {
    ghost var original := positions[..];
    ApplyHeights(sin, positions, chunkX, chunkZ, config);
    colors := FillColors(positions, config.heightScale);
    if config.heightScale > 0.0 {
      TerrainColorsInRange(sin, original, Placement(chunkX, chunkZ, config), config.heightScale);
      assert forall k :: 0 <= k < colors.Length ==> colors[k] == colors[..][k];
    }
  }
}
