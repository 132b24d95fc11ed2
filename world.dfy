/**
 * The streaming manager `ProceduralWorld`: the resident terrain chunks and
 * their building meshes, kept in two maps keyed by chunk key, the seed the
 * world was last built for, the seed-change flush, and the per-frame
 * reconcile that loads the 7 x 7 window of chunks around the aircraft and
 * evicts every other chunk.
 *
 * Meshes are opaque handles: a `Mesh` records what it was generated from, the
 * chunk key and slot it belongs to, and whether it has been disposed. The
 * render group is the set of handles added to it.
 */
module World {
  import opened Wrappers
  import opened SimTypes
  import opened Noise
  import opened Terrain
  import opened Buildings

  const CHUNK_SIZE: real := 200.0
  const RESOLUTION: nat := 32
  const HEIGHT_SCALE: real := 30.0
  /** Chunks loaded in each direction around the aircraft's chunk. */
  const RENDER_DISTANCE: int := 3
  /** The side of the window of loaded chunks, 7. */
  const SIDE: int := 2 * RENDER_DISTANCE + 1
  /** Metres around the spawn point kept free of buildings. */
  const EXCLUSION_RADIUS: real := 100.0

  /** The terrain configuration of a chunk generated for `seed`. */
  function TerrainConfigFor(seed: int): TerrainConfig
  {
    TerrainConfig(CHUNK_SIZE, RESOLUTION, HEIGHT_SCALE, seed)
  }

  /** The building configuration of a chunk generated for `seed`: spawn at the origin, radius 100. */
  function BuildingConfigFor(seed: int): BuildingConfig
  {
    BuildingConfig(seed, HEIGHT_SCALE, (0.0, 0.0, 0.0), EXCLUSION_RADIUS)
  }

  // ---------------------------------------------------------------------
  // The window of needed chunks

  /**
   * The key of the `n`-th chunk the two nested loops visit around (cx, cz):
   * row `dx = n / 7 - 3`, column `dz = n % 7 - 3`.
   */
  function WindowKey(cx: int, cz: int, n: int): string
  {
    GetChunkKey(cx + n / SIDE - RENDER_DISTANCE, cz + n % SIDE - RENDER_DISTANCE)
  }

  /** The keys of the first `n` chunks visited. */
  function Visited(cx: int, cz: int, n: int): set<string>
  {
    set j | 0 <= j < n :: WindowKey(cx, cz, j)
  }

  /** The keys of all 49 chunks of the window around (cx, cz). */
  function Window(cx: int, cz: int): set<string>
  {
    Visited(cx, cz, SIDE * SIDE)
  }

  lemma VisitedNext(cx: int, cz: int, n: int)
    requires n >= 0
    ensures Visited(cx, cz, n + 1) == Visited(cx, cz, n) + {WindowKey(cx, cz, n)}
  {
    assert WindowKey(cx, cz, n) in Visited(cx, cz, n + 1);
  }

  /** The key of the chunk `dx` rows and `dz` columns away from (cx, cz). */
  function Neighbour(cx: int, cz: int, dx: int, dz: int): string
  {
    GetChunkKey(cx + dx, cz + dz)
  }

  /** The visit number of (dx, dz) is (dx + 3) * 7 + (dz + 3). */
  lemma WindowKeyAt(cx: int, cz: int, dx: int, dz: int)
    requires -RENDER_DISTANCE <= dz <= RENDER_DISTANCE
    ensures WindowKey(cx, cz, (dx + RENDER_DISTANCE) * SIDE + dz + RENDER_DISTANCE) == Neighbour(cx, cz, dx, dz)
  {
    var n := (dx + RENDER_DISTANCE) * SIDE + dz + RENDER_DISTANCE;
    assert n / SIDE == dx + RENDER_DISTANCE && n % SIDE == dz + RENDER_DISTANCE;
  }

  /** Column `j` of row `i` comes before column `dz` of row `dx` in the row-by-row visit. */
  predicate Before(i: int, j: int, dx: int, dz: int)
  {
    i < dx || (i == dx && j < dz)
  }

  /** The keys of the window chunks visited before column `dz` of row `dx`. */
  function Region(cx: int, cz: int, dx: int, dz: int): set<string>
  {
    set i, j | -RENDER_DISTANCE <= i <= RENDER_DISTANCE && -RENDER_DISTANCE <= j <= RENDER_DISTANCE && Before(i, j, dx, dz)
      :: Neighbour(cx, cz, i, j)
  }

  type RegionFn = (int, int) -> set<string>

  /**
   * `Region(cx, cz, _, _)` as a function value, linked to `Region` only
   * through its terms, so that the loops of a frame track the visited keys
   * without unfolding the comprehension.
   */
  ghost function RegionOf(cx: int, cz: int): (f: RegionFn)
    ensures forall dx, dz {:trigger Region(cx, cz, dx, dz)} :: f(dx, dz) == Region(cx, cz, dx, dz)
  {
    var exact: RegionFn := (dx, dz) => Region(cx, cz, dx, dz);
    assert forall dx, dz :: exact(dx, dz) == Region(cx, cz, dx, dz);
    var f: RegionFn :| forall dx, dz {:trigger Region(cx, cz, dx, dz)} :: f(dx, dz) == Region(cx, cz, dx, dz);
    f
  }

  /** Visiting column `dz` of row `dx` adds the key of chunk (cx + dx, cz + dz). */
  lemma RegionNext(cx: int, cz: int, dx: int, dz: int, needed: set<string>, key: string)
    requires -RENDER_DISTANCE <= dx <= RENDER_DISTANCE && -RENDER_DISTANCE <= dz <= RENDER_DISTANCE
    requires needed == RegionOf(cx, cz)(dx, dz) && key == GetChunkKey(cx + dx, cz + dz)
    ensures needed + {key} == RegionOf(cx, cz)(dx, dz + 1)
  {
    var before, after := Region(cx, cz, dx, dz), Region(cx, cz, dx, dz + 1);
    assert key == Neighbour(cx, cz, dx, dz) && Before(dx, dz, dx, dz + 1);
    forall x | x in after
      ensures x in before + {key}
    {
      var i, j :| -RENDER_DISTANCE <= i <= RENDER_DISTANCE && -RENDER_DISTANCE <= j <= RENDER_DISTANCE
                  && Before(i, j, dx, dz + 1) && x == Neighbour(cx, cz, i, j);
      if !(i == dx && j == dz) {
        assert Before(i, j, dx, dz);
      }
    }
    forall x | x in before
      ensures x in after
    {
      var i, j :| -RENDER_DISTANCE <= i <= RENDER_DISTANCE && -RENDER_DISTANCE <= j <= RENDER_DISTANCE
                  && Before(i, j, dx, dz) && x == Neighbour(cx, cz, i, j);
      assert Before(i, j, dx, dz + 1);
    }
  }

  /** Past the last column of row `dx` is the first column of row `dx + 1`. */
  lemma RegionRow(cx: int, cz: int, dx: int)
    ensures RegionOf(cx, cz)(dx, RENDER_DISTANCE + 1) == RegionOf(cx, cz)(dx + 1, -RENDER_DISTANCE)
  {
    var ending, starting := Region(cx, cz, dx, RENDER_DISTANCE + 1), Region(cx, cz, dx + 1, -RENDER_DISTANCE);
    forall x | x in ending
      ensures x in starting
    {
      var i, j :| -RENDER_DISTANCE <= i <= RENDER_DISTANCE && -RENDER_DISTANCE <= j <= RENDER_DISTANCE
                  && Before(i, j, dx, RENDER_DISTANCE + 1) && x == Neighbour(cx, cz, i, j);
      assert Before(i, j, dx + 1, -RENDER_DISTANCE);
    }
    forall x | x in starting
      ensures x in ending
    {
      var i, j :| -RENDER_DISTANCE <= i <= RENDER_DISTANCE && -RENDER_DISTANCE <= j <= RENDER_DISTANCE
                  && Before(i, j, dx + 1, -RENDER_DISTANCE) && x == Neighbour(cx, cz, i, j);
      assert Before(i, j, dx, RENDER_DISTANCE + 1);
    }
  }

  /** Nothing is visited before the first row, and the whole window after the last. */
  lemma RegionEnds(cx: int, cz: int)
    ensures RegionOf(cx, cz)(-RENDER_DISTANCE, -RENDER_DISTANCE) == {}
    ensures RegionOf(cx, cz)(RENDER_DISTANCE + 1, -RENDER_DISTANCE) == Window(cx, cz)
  {
    var none, all := Region(cx, cz, -RENDER_DISTANCE, -RENDER_DISTANCE), Region(cx, cz, RENDER_DISTANCE + 1, -RENDER_DISTANCE);
    assert none == {};
    forall x
      ensures x in all <==> x in Window(cx, cz)
    {
      WindowMembers(cx, cz, x);
      if x in Window(cx, cz) {
        var i, j :| -RENDER_DISTANCE <= i <= RENDER_DISTANCE && -RENDER_DISTANCE <= j <= RENDER_DISTANCE
                    && x == Neighbour(cx, cz, i, j);
        assert Before(i, j, RENDER_DISTANCE + 1, -RENDER_DISTANCE);
      }
    }
  }

  /** Every neighbour at most 3 rows and 3 columns away is in the window. */
  lemma NeighbourInWindow(cx: int, cz: int, dx: int, dz: int)
    requires -RENDER_DISTANCE <= dx <= RENDER_DISTANCE && -RENDER_DISTANCE <= dz <= RENDER_DISTANCE
    ensures Neighbour(cx, cz, dx, dz) in Window(cx, cz)
  {
    WindowKeyAt(cx, cz, dx, dz);
    var n := (dx + RENDER_DISTANCE) * SIDE + dz + RENDER_DISTANCE;
    assert 0 <= n < SIDE * SIDE;
  }

  /** Every key of the window is such a neighbour. */
  lemma WindowHasNeighboursOnly(cx: int, cz: int, key: string)
    requires key in Window(cx, cz)
    ensures exists dx, dz :: -RENDER_DISTANCE <= dx <= RENDER_DISTANCE && -RENDER_DISTANCE <= dz <= RENDER_DISTANCE
                             && key == Neighbour(cx, cz, dx, dz)
  {
    var j :| 0 <= j < SIDE * SIDE && key == WindowKey(cx, cz, j);
    var dx, dz := j / SIDE - RENDER_DISTANCE, j % SIDE - RENDER_DISTANCE;
    assert key == Neighbour(cx, cz, dx, dz);
  }

  /** A key is in the window exactly when it is the key of a chunk at most 3 rows and 3 columns away. */
  lemma WindowMembers(cx: int, cz: int, key: string)
    ensures key in Window(cx, cz) <==>
      exists dx, dz :: -RENDER_DISTANCE <= dx <= RENDER_DISTANCE && -RENDER_DISTANCE <= dz <= RENDER_DISTANCE
        && key == Neighbour(cx, cz, dx, dz)
  {
    if key in Window(cx, cz) {
      WindowHasNeighboursOnly(cx, cz, key);
    } else {
      forall dx, dz | -RENDER_DISTANCE <= dx <= RENDER_DISTANCE && -RENDER_DISTANCE <= dz <= RENDER_DISTANCE
        ensures key != Neighbour(cx, cz, dx, dz)
      {
        NeighbourInWindow(cx, cz, dx, dz);
      }
    }
  }

  /** Different visits give different keys. */
  lemma WindowKeysDistinct(cx: int, cz: int, i: int, j: int)
    requires 0 <= i < j
    ensures WindowKey(cx, cz, i) != WindowKey(cx, cz, j)
  {
    ChunkKeyInjective(cx + i / SIDE - RENDER_DISTANCE, cz + i % SIDE - RENDER_DISTANCE,
                      cx + j / SIDE - RENDER_DISTANCE, cz + j % SIDE - RENDER_DISTANCE);
  }

  /** The first `n` visits give `n` distinct keys. */
  lemma {:induction false} VisitedCount(cx: int, cz: int, n: nat)
    ensures |Visited(cx, cz, n)| == n
  {
    if n > 0 {
      VisitedCount(cx, cz, n - 1);
      VisitedNext(cx, cz, n - 1);
      if WindowKey(cx, cz, n - 1) in Visited(cx, cz, n - 1) {
        var j :| 0 <= j < n - 1 && WindowKey(cx, cz, j) == WindowKey(cx, cz, n - 1);
        WindowKeysDistinct(cx, cz, j, n - 1);
      }
    }
  }

  /** The window holds 49 keys. */
  lemma WindowCount(cx: int, cz: int)
    ensures |Window(cx, cz)| == SIDE * SIDE == 49
  {
    VisitedCount(cx, cz, SIDE * SIDE);
  }

  // ---------------------------------------------------------------------
  // Mesh handles

  /** What a mesh was generated from. */
  datatype MeshSource =
    | TerrainMesh(chunkX: int, chunkZ: int, config: TerrainConfig)
    | BuildingMesh(building: BuildingInstance)

  /**
   * A mesh handle: the chunk key it belongs to, its slot there (-1 for the
   * terrain mesh, the building's index for a building mesh), what it was
   * generated from, and whether its geometry and material have been disposed.
   */
  class Mesh {
    const owner: string
    const slot: int
    const source: MeshSource
    var disposed: bool

    constructor (owner: string, slot: int, source: MeshSource)
      ensures this.owner == owner && this.slot == slot && this.source == source && !disposed
    {
      this.owner := owner;
      this.slot := slot;
      this.source := source;
      disposed := false;
    }

    /** `geometry.dispose()` and `material.dispose()`. */
    method Dispose()
      modifies this
      ensures disposed
    {
      disposed := true;
    }
  }

  /** A `TerrainChunk` record: its key, its terrain mesh and its chunk coordinate. */
  datatype Chunk = Chunk(key: string, mesh: Mesh, position: (int, int))

  /** The meshes of a building list. */
  function Elems(ms: seq<Mesh>): set<Mesh>
  {
    set i | 0 <= i < |ms| :: ms[i]
  }

  /** The terrain meshes of a chunk map. */
  function ChunkMeshes(chunks: map<string, Chunk>): set<Mesh>
  {
    set k | k in chunks :: chunks[k].mesh
  }

  /** The meshes of a building map. */
  function BuildingMeshes(buildings: map<string, seq<Mesh>>): set<Mesh>
  {
    set k, i | k in buildings && 0 <= i < |buildings[k]| :: buildings[k][i]
  }

  /** The meshes the two maps hold under `key`. */
  function HeldUnder(chunks: map<string, Chunk>, buildings: map<string, seq<Mesh>>, key: string): set<Mesh>
  {
    (if key in chunks then {chunks[key].mesh} else {}) + (if key in buildings then Elems(buildings[key]) else {})
  }

  /** The mesh stored under `m.owner` at `m.slot`: the terrain mesh for slot -1, else that building mesh. */
  ghost predicate StoredAtTag(chunks: map<string, Chunk>, buildings: map<string, seq<Mesh>>, m: Mesh)
  {
    && m.owner in chunks && m.owner in buildings
    && if m.slot == -1 then chunks[m.owner].mesh == m
       else 0 <= m.slot < |buildings[m.owner]| && buildings[m.owner][m.slot] == m
  }

  /**
   * Both maps have the same keys; every mesh in either map records the key
   * and the slot it is stored under and is in `children`; and every mesh in
   * `children` is stored where it says.
   */
  ghost predicate Consistent(chunks: map<string, Chunk>, buildings: map<string, seq<Mesh>>, children: set<Mesh>)
  {
    && buildings.Keys == chunks.Keys
    && (forall k :: k in chunks ==> chunks[k].mesh.owner == k && chunks[k].mesh.slot == -1 && chunks[k].mesh in children)
    && (forall k, i :: k in buildings && 0 <= i < |buildings[k]| ==>
          buildings[k][i].owner == k && buildings[k][i].slot == i && buildings[k][i] in children)
    && (forall m :: m in children ==> StoredAtTag(chunks, buildings, m))
  }

  /** Consistent maps hold exactly the meshes in `children`, and no mesh under two keys. */
  lemma ConsistentHeld(chunks: map<string, Chunk>, buildings: map<string, seq<Mesh>>, children: set<Mesh>)
    requires Consistent(chunks, buildings, children)
    ensures children == ChunkMeshes(chunks) + BuildingMeshes(buildings)
    ensures forall k1, k2 :: k1 in chunks && k2 in chunks && k1 != k2 ==> HeldUnder(chunks, buildings, k1) !! HeldUnder(chunks, buildings, k2)
  {
    forall m | m in children ensures m in ChunkMeshes(chunks) + BuildingMeshes(buildings) {
      assert StoredAtTag(chunks, buildings, m);
      if m.slot == -1 {
        assert m == chunks[m.owner].mesh;
      } else {
        assert m == buildings[m.owner][m.slot];
      }
    }
    forall k1, k2 | k1 in chunks && k2 in chunks && k1 != k2
      ensures HeldUnder(chunks, buildings, k1) !! HeldUnder(chunks, buildings, k2)
    {
      forall m | m in HeldUnder(chunks, buildings, k1) ensures m.owner == k1 {
        if m != chunks[k1].mesh {
          var i :| 0 <= i < |buildings[k1]| && m == buildings[k1][i];
        }
      }
      forall m | m in HeldUnder(chunks, buildings, k2) ensures m.owner == k2 {
        if m != chunks[k2].mesh {
          var i :| 0 <= i < |buildings[k2]| && m == buildings[k2][i];
        }
      }
    }
  }

  /**
   * `chunks` and `buildings` extend `chunks0` and `buildings0` by the keys
   * `added`: the entries already there are untouched, and every other entry
   * is stored under the key of its own coordinate and was generated for `seed`.
   */
  ghost predicate Extends(sin: Sine, seed: int, chunks0: map<string, Chunk>, buildings0: map<string, seq<Mesh>>,
                          chunks: map<string, Chunk>, buildings: map<string, seq<Mesh>>, added: set<string>)
  {
    && chunks.Keys == chunks0.Keys + added
    && (forall k :: k in chunks0 ==> k in buildings0 && chunks[k] == chunks0[k] && k in buildings && buildings[k] == buildings0[k])
    && (forall k :: k in chunks && k !in chunks0 ==>
          && k in buildings && GeneratedEntry(sin, seed, chunks[k], buildings[k])
          && chunks[k].key == k && k == GetChunkKey(chunks[k].position.0, chunks[k].position.1))
  }

  /**
   * Visiting `key` keeps the extension: a resident key was already there, and
   * a missing one is inserted with a generated entry keyed by its position.
   */
  lemma ExtendsVisit(sin: Sine, seed: int, chunks0: map<string, Chunk>, buildings0: map<string, seq<Mesh>>,
                     chunks: map<string, Chunk>, buildings: map<string, seq<Mesh>>, added: set<string>,
                     key: string, chunk: Chunk, meshes: seq<Mesh>)
    requires Extends(sin, seed, chunks0, buildings0, chunks, buildings, added)
    requires key !in chunks ==>
      && GeneratedEntry(sin, seed, chunk, meshes)
      && chunk.key == key && key == GetChunkKey(chunk.position.0, chunk.position.1)
    ensures key in chunks ==> Extends(sin, seed, chunks0, buildings0, chunks, buildings, added + {key})
    ensures key !in chunks ==> Extends(sin, seed, chunks0, buildings0, chunks[key := chunk], buildings[key := meshes], added + {key})
  {
  }


  /** The buildings of every chunk of the world generated for `seed`, as the streaming manager configures them. */
  type BuildingsByChunk = (int, int) -> seq<BuildingInstance>

  /**
   * `generateBuildingsForChunk` with the streaming manager's configuration,
   * as a function value named by the property that characterises it, so that
   * reasoning about the maps does not unfold the placement.
   */
  ghost function ChunkBuildings(sin: Sine, seed: int): (f: BuildingsByChunk)
    ensures forall x, z {:trigger Generate(sin, x, z, CHUNK_SIZE, BuildingConfigFor(seed))} ::
      f(x, z) == Generate(sin, x, z, CHUNK_SIZE, BuildingConfigFor(seed))
  {
    var exact: BuildingsByChunk := (x, z) => Generate(sin, x, z, CHUNK_SIZE, BuildingConfigFor(seed));
    assert forall x, z :: exact(x, z) == Generate(sin, x, z, CHUNK_SIZE, BuildingConfigFor(seed));
    var f: BuildingsByChunk :| forall x, z {:trigger Generate(sin, x, z, CHUNK_SIZE, BuildingConfigFor(seed))} ::
      f(x, z) == Generate(sin, x, z, CHUNK_SIZE, BuildingConfigFor(seed));
    f
  }

  /** The buildings of chunk (chunkX, chunkZ) for `seed`: spawn at the origin, radius 100, height scale 30. */
  method BuildingsFor(sin: Sine, chunkX: int, chunkZ: int, seed: int) returns (bs: seq<BuildingInstance>)
    ensures bs == ChunkBuildings(sin, seed)(chunkX, chunkZ)
  {
    bs := GenerateBuildingsForChunk(sin, chunkX, chunkZ, CHUNK_SIZE, BuildingConfigFor(seed));
  }

  /**
   * A map entry generated for `seed` from the chunk's own coordinate: the
   * terrain mesh from the chunk configuration, and one building mesh per
   * building of `generateBuildingsForChunk`, in order.
   */
  ghost predicate GeneratedEntry(sin: Sine, seed: int, chunk: Chunk, meshes: seq<Mesh>)
  {
    var bs := ChunkBuildings(sin, seed)(chunk.position.0, chunk.position.1);
    && chunk.mesh.source == TerrainMesh(chunk.position.0, chunk.position.1, TerrainConfigFor(seed))
    && |meshes| == |bs|
    && forall i :: 0 <= i < |bs| ==> meshes[i].source == BuildingMesh(bs[i])
  }

  lemma ElemsAppend(ms: seq<Mesh>, m: Mesh)
    ensures Elems(ms + [m]) == Elems(ms) + {m}
  {
    forall x | x in Elems(ms + [m]) ensures x in Elems(ms) + {m} {
      var i :| 0 <= i < |ms| + 1 && x == (ms + [m])[i];
      if i < |ms| { assert x == ms[i]; }
    }
    forall x | x in Elems(ms) + {m} ensures x in Elems(ms + [m]) {
      if x == m {
        assert x == (ms + [m])[|ms|];
      } else {
        var i :| 0 <= i < |ms| && x == ms[i];
        assert x == (ms + [m])[i];
      }
    }
  }

  /** Storing a correctly tagged new chunk, and adding its meshes to the group, keeps the maps consistent. */
  lemma InsertConsistent(chunks: map<string, Chunk>, buildings: map<string, seq<Mesh>>, children: set<Mesh>,
                         key: string, chunk: Chunk, mesh: Mesh, meshes: seq<Mesh>)
    requires Consistent(chunks, buildings, children) && key !in chunks
    requires chunk.mesh == mesh && mesh.owner == key && mesh.slot == -1
    requires forall i :: 0 <= i < |meshes| ==> meshes[i].owner == key && meshes[i].slot == i
    ensures Consistent(chunks[key := chunk], buildings[key := meshes], children + ({mesh} + Elems(meshes)))
    ensures HeldUnder(chunks[key := chunk], buildings[key := meshes], key) == {mesh} + Elems(meshes)
  {
    var chunks', buildings', children' := chunks[key := chunk], buildings[key := meshes], children + ({mesh} + Elems(meshes));
    forall m | m in children' ensures StoredAtTag(chunks', buildings', m) {
      if m in children {
        assert StoredAtTag(chunks, buildings, m);
      } else if m != mesh {
        var i :| 0 <= i < |meshes| && m == meshes[i];
      }
    }
    forall k, i | k in buildings' && 0 <= i < |buildings'[k]|
      ensures buildings'[k][i].owner == k && buildings'[k][i].slot == i && buildings'[k][i] in children'
    {
      if k == key {
        assert buildings'[k][i] == meshes[i];
      }
    }
  }

  /** Deleting a key from both maps, and taking its meshes out of the group, keeps the maps consistent. */
  lemma RemoveConsistent(chunks: map<string, Chunk>, buildings: map<string, seq<Mesh>>, children: set<Mesh>, key: string)
    requires Consistent(chunks, buildings, children) && key in chunks
    ensures HeldUnder(chunks, buildings, key) == {chunks[key].mesh} + Elems(buildings[key])
    ensures Consistent(chunks - {key}, buildings - {key}, children - {chunks[key].mesh} - Elems(buildings[key]))
  {
    var chunks', buildings', children' := chunks - {key}, buildings - {key}, children - {chunks[key].mesh} - Elems(buildings[key]);
    forall m | m in children' ensures StoredAtTag(chunks', buildings', m) {
      assert StoredAtTag(chunks, buildings, m);
    }
    forall k | k in chunks' ensures chunks'[k].mesh in children' {
      assert chunks[k].mesh.owner == k;
    }
    forall k, i | k in buildings' && 0 <= i < |buildings'[k]| ensures buildings'[k][i] in children' {
      assert buildings[k][i].owner == k;
    }
  }

  /** Taking every mesh of consistent maps out of the group leaves it empty, and empty maps are consistent with it. */
  lemma ClearConsistent(chunks: map<string, Chunk>, buildings: map<string, seq<Mesh>>, children: set<Mesh>)
    requires Consistent(chunks, buildings, children)
    ensures children - ChunkMeshes(chunks) - BuildingMeshes(buildings) == {}
    ensures Consistent(map[], map[], {})
  {
    ConsistentHeld(chunks, buildings, children);
  }

  /** `buildings.map(createBuildingMesh)`: one fresh, live mesh per building, tagged with `key` and its index. */
  method NewBuildingMeshes(key: string, bs: seq<BuildingInstance>) returns (meshes: seq<Mesh>)
    ensures |meshes| == |bs| && fresh(Elems(meshes))
    ensures forall m :: m in Elems(meshes) ==> !m.disposed
    ensures forall i :: 0 <= i < |bs| ==>
      && meshes[i].owner == key && meshes[i].slot == i && meshes[i].source == BuildingMesh(bs[i])
      && !meshes[i].disposed
  {
    meshes := [];
    for i := 0 to |bs|
      invariant |meshes| == i && fresh(Elems(meshes))
      invariant forall j :: 0 <= j < i ==>
        && meshes[j].owner == key && meshes[j].slot == j && meshes[j].source == BuildingMesh(bs[j])
        && !meshes[j].disposed
    {
      var m := new Mesh(key, i, BuildingMesh(bs[i]));
      ElemsAppend(meshes, m);
      meshes := meshes + [m];
    }
  }

  /**
   * The component's refs: the chunk map, the building map, the render group
   * (present once the group has been mounted) and the last seed.
   */
  class StreamingWorld {
    const sin: Sine
    var chunks: map<string, Chunk>
    var buildings: map<string, seq<Mesh>>
    var hasGroup: bool
    var children: set<Mesh>
    var lastSeed: int

    /** The meshes held under `key`. */
    function MeshesOf(key: string): set<Mesh>
      reads this
    {
      HeldUnder(chunks, buildings, key)
    }

    /**
     * The maps are tagged, the group's children are exactly the meshes the
     * maps hold, none of them is disposed, and nothing is resident before the
     * group is mounted.
     */
    ghost predicate Valid()
      reads this, children
    {
      && Consistent(chunks, buildings, children)
      && (forall m :: m in children ==> !m.disposed)
      && (!hasGroup ==> chunks == map[])
    }

    /** Empty maps, no group yet, and `lastSeedRef` initialised with the first seed. */
    constructor (sin: Sine, seed: int)
      ensures Valid() && this.sin == sin
      ensures chunks == map[] && buildings == map[] && children == {} && !hasGroup && lastSeed == seed
    {
      this.sin := sin;
      chunks := map[];
      buildings := map[];
      hasGroup := false;
      children := {};
      lastSeed := seed;
    }

    /** The group element is mounted and `groupRef.current` is set. */
    method AttachGroup()
      requires Valid()
      modifies this
      ensures Valid() && hasGroup
      ensures chunks == old(chunks) && buildings == old(buildings) && children == old(children)
      ensures lastSeed == old(lastSeed)
    {
      hasGroup := true;
    }

    /** Dispose one mesh's geometry and material and take it out of the group, if there is one. */
    method DisposeMesh(m: Mesh)
      modifies this, m
      ensures m.disposed
      ensures children == if hasGroup then old(children) - {m} else old(children)
      ensures chunks == old(chunks) && buildings == old(buildings)
      ensures hasGroup == old(hasGroup) && lastSeed == old(lastSeed)
    {
      m.Dispose();
      if hasGroup {
        children := children - {m};
      }
    }

    /** `forEach` over meshes: dispose each one and take it out of the group. */
    method DisposeMeshes(ms: set<Mesh>)
      modifies this, ms
      ensures forall m :: m in ms ==> m.disposed
      ensures children == if hasGroup then old(children) - ms else old(children)
      ensures chunks == old(chunks) && buildings == old(buildings)
      ensures hasGroup == old(hasGroup) && lastSeed == old(lastSeed)
    {
      var rest := ms;
      while rest != {}
        invariant rest <= ms
        invariant forall m :: m in ms - rest ==> m.disposed
        invariant children == if hasGroup then old(children) - (ms - rest) else old(children)
        invariant chunks == old(chunks) && buildings == old(buildings)
        invariant hasGroup == old(hasGroup) && lastSeed == old(lastSeed)
        decreases rest
      {
        var m :| m in rest;
        DisposeMesh(m);
        rest := rest - {m};
      }
    }

    /**
     * Load the missing chunk (chunkX, chunkZ): store it under its key with a
     * fresh terrain mesh, add that mesh to the group, generate the chunk's
     * buildings and store one fresh mesh per building, each added to the group.
     */
    method LoadChunk(key: string, chunkX: int, chunkZ: int, seed: int)
      requires Valid() && hasGroup && key == GetChunkKey(chunkX, chunkZ) && key !in chunks
      modifies this
      ensures Valid() && hasGroup && lastSeed == old(lastSeed)
      ensures key in chunks && key in buildings
      ensures chunks == old(chunks)[key := chunks[key]] && buildings == old(buildings)[key := buildings[key]]
      ensures chunks[key].key == key && chunks[key].position == (chunkX, chunkZ)
      ensures GeneratedEntry(sin, seed, chunks[key], buildings[key])
      ensures children == old(children) + MeshesOf(key) && fresh(MeshesOf(key))
    {
      var mesh := new Mesh(key, -1, TerrainMesh(chunkX, chunkZ, TerrainConfigFor(seed)));
      var chunk := Chunk(key, mesh, (chunkX, chunkZ));
      var bs := BuildingsFor(sin, chunkX, chunkZ, seed);
      var meshes := NewBuildingMeshes(key, bs);
      InsertConsistent(chunks, buildings, children, key, chunk, mesh, meshes);
      var added := {mesh} + Elems(meshes);
      assert fresh(added) && forall m :: m in added ==> !m.disposed;
      chunks := chunks[key := chunk];
      children := children + added;
      buildings := buildings[key := meshes];
      assert MeshesOf(key) == added;
    }

    /**
     * Evict the chunk under `key`: dispose its terrain mesh and take it out of
     * the group, delete it, then do the same for its building meshes.
     */
    method EvictChunk(key: string)
      requires Valid() && hasGroup && key in chunks
      modifies this, MeshesOf(key)
      ensures Valid() && hasGroup && lastSeed == old(lastSeed)
      ensures chunks == old(chunks) - {key} && buildings == old(buildings) - {key}
      ensures children == old(children) - old(MeshesOf(key))
      ensures forall m :: m in old(MeshesOf(key)) ==> m.disposed
    {
      RemoveConsistent(chunks, buildings, children, key);
      var chunk := chunks[key];
      DisposeMesh(chunk.mesh);
      chunks := chunks - {key};
      var meshes := buildings[key];
      DisposeMeshes(Elems(meshes));
      buildings := buildings - {key};
    }

    /**
     * The seed-change effect: for a seed other than the last one, dispose
     * every chunk mesh and every building mesh (taking each out of the group
     * when there is one), clear both maps and remember the seed; for the same
     * seed, do nothing.
     */
    method SeedChanged(seed: int)
      requires Valid()
      modifies this, children
      ensures Valid() && hasGroup == old(hasGroup)
      ensures seed == old(lastSeed) ==> chunks == old(chunks) && buildings == old(buildings) && children == old(children)
      ensures seed != old(lastSeed) ==> chunks == map[] && buildings == map[] && children == {}
      ensures seed != old(lastSeed) ==> forall m :: m in old(children) ==> m.disposed
      ensures lastSeed == seed
    {
      if lastSeed != seed {
        ClearConsistent(chunks, buildings, children);
        DisposeMeshes(ChunkMeshes(chunks));
        chunks := map[];
        DisposeMeshes(BuildingMeshes(buildings));
        buildings := map[];
        lastSeed := seed;
      }
    }

    /**
     * One step of the first pass: record the key of chunk (cx + dx, cz + dz)
     * as needed and load that chunk if it is not resident.
     */
    method VisitChunk(cx: int, cz: int, dx: int, dz: int, seed: int, needed0: set<string>,
                      ghost chunks0: map<string, Chunk>, ghost buildings0: map<string, seq<Mesh>>)
      returns (needed: set<string>)
      requires Valid() && hasGroup && -RENDER_DISTANCE <= dx <= RENDER_DISTANCE && -RENDER_DISTANCE <= dz <= RENDER_DISTANCE
      requires needed0 == RegionOf(cx, cz)(dx, dz)
      requires Extends(sin, seed, chunks0, buildings0, chunks, buildings, needed0)
      modifies this
      ensures Valid() && hasGroup && lastSeed == old(lastSeed)
      ensures needed == RegionOf(cx, cz)(dx, dz + 1)
      ensures Extends(sin, seed, chunks0, buildings0, chunks, buildings, needed)
      ensures old(children) <= children
      ensures forall m :: m in children ==> m in old(children) || fresh(m)
    {
      var chunkX, chunkZ := cx + dx, cz + dz;
      var key := GetChunkKey(chunkX, chunkZ);
      RegionNext(cx, cz, dx, dz, needed0, key);
      needed := needed0 + {key};
      if key !in chunks {
        LoadChunk(key, chunkX, chunkZ, seed);
      }
      ExtendsVisit(sin, seed, chunks0, buildings0, old(chunks), old(buildings), needed0, key, chunks[key], buildings[key]);
    }

    /** The inner loop of the first pass: the seven chunks of row `dx`, column by column. */
    method LoadRow(cx: int, cz: int, dx: int, seed: int, needed0: set<string>,
                   ghost chunks0: map<string, Chunk>, ghost buildings0: map<string, seq<Mesh>>)
      returns (needed: set<string>)
      requires Valid() && hasGroup && -RENDER_DISTANCE <= dx <= RENDER_DISTANCE
      requires needed0 == RegionOf(cx, cz)(dx, -RENDER_DISTANCE)
      requires Extends(sin, seed, chunks0, buildings0, chunks, buildings, needed0)
      modifies this
      ensures Valid() && hasGroup && lastSeed == old(lastSeed)
      ensures needed == RegionOf(cx, cz)(dx + 1, -RENDER_DISTANCE)
      ensures Extends(sin, seed, chunks0, buildings0, chunks, buildings, needed)
      ensures old(children) <= children
      ensures forall m :: m in children ==> m in old(children) || fresh(m)
    {
      RegionRow(cx, cz, dx);
      needed := needed0;
      for dz := -RENDER_DISTANCE to RENDER_DISTANCE + 1
        invariant Valid() && hasGroup && lastSeed == old(lastSeed)
        invariant needed == RegionOf(cx, cz)(dx, dz)
        invariant Extends(sin, seed, chunks0, buildings0, chunks, buildings, needed)
        invariant old(children) <= children
        invariant forall m :: m in children ==> m in old(children) || fresh(m)
      {
        needed := VisitChunk(cx, cz, dx, dz, seed, needed, chunks0, buildings0);
      }
    }

    /**
     * The first pass of a frame: visit the 7 x 7 window around chunk (cx, cz)
     * row by row, collecting the needed keys and loading every chunk of the
     * window that is not resident.
     */
    method LoadWindow(cx: int, cz: int, seed: int) returns (needed: set<string>)
      requires Valid() && hasGroup
      modifies this
      ensures Valid() && hasGroup && lastSeed == old(lastSeed)
      ensures needed == Window(cx, cz)
      ensures Extends(sin, seed, old(chunks), old(buildings), chunks, buildings, needed)
      ensures old(children) <= children
      ensures forall m :: m in children ==> m in old(children) || fresh(m)
    {
      RegionEnds(cx, cz);
      needed := {};
      for dx := -RENDER_DISTANCE to RENDER_DISTANCE + 1
        invariant Valid() && hasGroup && lastSeed == old(lastSeed)
        invariant needed == RegionOf(cx, cz)(dx, -RENDER_DISTANCE)
        invariant Extends(sin, seed, old(chunks), old(buildings), chunks, buildings, needed)
        invariant old(children) <= children
        invariant forall m :: m in children ==> m in old(children) || fresh(m)
      {
        needed := LoadRow(cx, cz, dx, seed, needed, old(chunks), old(buildings));
      }
    }

    /**
     * The second pass of a frame: collect the resident keys that are not
     * needed and evict each of them.
     */
    method EvictOutside(needed: set<string>)
      requires Valid() && hasGroup && needed <= chunks.Keys
      modifies this, children
      ensures Valid() && hasGroup && lastSeed == old(lastSeed)
      ensures chunks.Keys == needed
      ensures forall k :: k in chunks ==> chunks[k] == old(chunks)[k] && buildings[k] == old(buildings)[k]
      ensures children <= old(children)
      ensures forall m :: m in old(children) && m !in children ==> m.disposed
    {
      var toRemove := set k | k in chunks && k !in needed;
      while toRemove != {}
        invariant Valid() && hasGroup && lastSeed == old(lastSeed)
        invariant chunks.Keys == needed + toRemove && needed !! toRemove
        invariant forall k :: k in chunks ==> chunks[k] == old(chunks)[k] && buildings[k] == old(buildings)[k]
        invariant children <= old(children)
        invariant forall m :: m in old(children) && m !in children ==> m.disposed
        decreases toRemove
      {
        var key :| key in toRemove;
        EvictChunk(key);
        toRemove := toRemove - {key};
      }
    }

    /**
     * One `useFrame` callback with the aircraft at `position` and the current
     * `seed` prop. Without a group nothing happens. Otherwise every chunk of
     * the 7 x 7 window around the aircraft's chunk that is not resident is
     * loaded, and then every resident chunk outside that window is evicted.
     */
    method Frame(position: Vec3, seed: int)
      requires Valid()
      modifies this, children
      ensures Valid() && hasGroup == old(hasGroup) && lastSeed == old(lastSeed)
      ensures !old(hasGroup) ==> chunks == old(chunks) && buildings == old(buildings) && children == old(children)
      ensures old(hasGroup) ==>
        var c := WorldToChunk(position.0, position.2, CHUNK_SIZE);
        chunks.Keys == Window(c.0, c.1)
      ensures forall k :: k in old(chunks) && k in chunks ==> chunks[k] == old(chunks)[k] && buildings[k] == old(buildings)[k]
      ensures forall k :: k in chunks && k !in old(chunks) ==>
        && chunks[k].key == k && k == GetChunkKey(chunks[k].position.0, chunks[k].position.1)
        && GeneratedEntry(sin, seed, chunks[k], buildings[k])
      ensures forall m :: m in old(children) && m !in children ==> m.disposed
    {
      if !hasGroup {
        return;
      }
      var (cx, cz) := WorldToChunk(position.0, position.2, CHUNK_SIZE);
      var needed := LoadWindow(cx, cz, seed);
      EvictOutside(needed);
    }
  }

  /** At the spawn point the window is the one around chunk (0, 0), which holds 49 chunks, chunk (0, 0) among them. */
  lemma SpawnWindow()
    ensures WorldToChunk(0.0, 0.0, CHUNK_SIZE) == (0, 0)
    ensures |Window(0, 0)| == 49 && GetChunkKey(0, 0) in Window(0, 0)
  {
    WindowCount(0, 0);
    NeighbourInWindow(0, 0, 0, 0);
  }
}
