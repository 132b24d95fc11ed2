/**
 * The lifecycle store `useSimState`: the current `SimState`, whether the
 * simulation is running, and the `start`, `reset` and `updateSimState`
 * transitions. `Math.random()` is a parameter.
 */
module SimStore {
  import opened Wrappers
  import opened SimTypes
  import Flight

  /** `generateSeed()` for a draw `random` of `Math.random()`: `floor(random * 1000000)`. */
  function GenerateSeed(random: real): (seed: int)
    requires 0.0 <= random < 1.0
    ensures 0 <= seed <= 999999
    ensures seed as real <= random * 1000000.0 < seed as real + 1.0
  {
    var x := random * 1000000.0;
    assert x < 1000000.0;
    x.Floor
  }

  /**
   * `INITIAL_STATE` with the world seed `worldSeed`: level flight at height 100,
   * half throttle, speed 50, heading 0, over the display position of San Francisco.
   * It satisfies the integrator's invariant.
   */
  function InitialState(worldSeed: int): (s: SimState)
    ensures s.worldSeed == worldSeed
    ensures s.altitude == s.position.1 == 100.0
    ensures Flight.Inv(s)
  {
    assert Flight.Degrees(0.0) == 0.0;
    SimState((0.0, 100.0, 0.0), (0.0, 0.0, 0.0), (0.0, 0.0, 0.0), 0.5, 50.0, 100.0, 0.0,
             37.7749, -122.4194, 0)
      .(worldSeed := worldSeed)
  }

  /** Two initial states differ in nothing but their world seed. */
  lemma InitialStatesAgree(a: int, b: int)
    ensures InitialState(a) == InitialState(b).(worldSeed := a)
  {
  }

  /** `Partial<SimState>`: each field either supplied or absent. */
  datatype SimPatch = SimPatch(
    position: Option<Vec3>,
    rotation: Option<Vec3>,
    velocity: Option<Vec3>,
    throttle: Option<real>,
    speed: Option<real>,
    altitude: Option<real>,
    heading: Option<real>,
    latitude: Option<real>,
    longitude: Option<real>,
    worldSeed: Option<int>)

  /** The patch that supplies no field, `{}`. */
  const EMPTY_PATCH: SimPatch := SimPatch(None, None, None, None, None, None, None, None, None, None)

  /** The supplied value if there is one, else `d`. */
  function Pick<T>(o: Option<T>, d: T): T
  {
    if o.Some? then o.value else d
  }

  /** `{ ...prev, ...updates }`. */
  function Merge(prev: SimState, u: SimPatch): SimState
  {
    SimState(Pick(u.position, prev.position), Pick(u.rotation, prev.rotation), Pick(u.velocity, prev.velocity),
             Pick(u.throttle, prev.throttle), Pick(u.speed, prev.speed), Pick(u.altitude, prev.altitude),
             Pick(u.heading, prev.heading), Pick(u.latitude, prev.latitude), Pick(u.longitude, prev.longitude),
             Pick(u.worldSeed, prev.worldSeed))
  }

  /** Every supplied field takes the supplied value; every other field keeps its old value. */
  lemma MergeOverwritesExactly(prev: SimState, u: SimPatch)
    ensures var n := Merge(prev, u);
      && (u.position.Some? ==> n.position == u.position.value) && (u.position.None? ==> n.position == prev.position)
      && (u.rotation.Some? ==> n.rotation == u.rotation.value) && (u.rotation.None? ==> n.rotation == prev.rotation)
      && (u.velocity.Some? ==> n.velocity == u.velocity.value) && (u.velocity.None? ==> n.velocity == prev.velocity)
      && (u.throttle.Some? ==> n.throttle == u.throttle.value) && (u.throttle.None? ==> n.throttle == prev.throttle)
      && (u.speed.Some? ==> n.speed == u.speed.value) && (u.speed.None? ==> n.speed == prev.speed)
      && (u.altitude.Some? ==> n.altitude == u.altitude.value) && (u.altitude.None? ==> n.altitude == prev.altitude)
      && (u.heading.Some? ==> n.heading == u.heading.value) && (u.heading.None? ==> n.heading == prev.heading)
      && (u.latitude.Some? ==> n.latitude == u.latitude.value) && (u.latitude.None? ==> n.latitude == prev.latitude)
      && (u.longitude.Some? ==> n.longitude == u.longitude.value)
      && (u.longitude.None? ==> n.longitude == prev.longitude)
      && (u.worldSeed.Some? ==> n.worldSeed == u.worldSeed.value)
      && (u.worldSeed.None? ==> n.worldSeed == prev.worldSeed)
  {
  }

  /** The empty patch changes nothing. */
  lemma MergeEmpty(prev: SimState)
    ensures Merge(prev, EMPTY_PATCH) == prev
  {
  }

  /** Applying the same patch twice is applying it once. */
  lemma MergeIdempotent(prev: SimState, u: SimPatch)
    ensures Merge(Merge(prev, u), u) == Merge(prev, u)
  {
  }

  /** The patch that supplies what `second` supplies and otherwise what `first` supplies. */
  function Then(first: SimPatch, second: SimPatch): SimPatch
  {
    SimPatch(
      if second.position.Some? then second.position else first.position,
      if second.rotation.Some? then second.rotation else first.rotation,
      if second.velocity.Some? then second.velocity else first.velocity,
      if second.throttle.Some? then second.throttle else first.throttle,
      if second.speed.Some? then second.speed else first.speed,
      if second.altitude.Some? then second.altitude else first.altitude,
      if second.heading.Some? then second.heading else first.heading,
      if second.latitude.Some? then second.latitude else first.latitude,
      if second.longitude.Some? then second.longitude else first.longitude,
      if second.worldSeed.Some? then second.worldSeed else first.worldSeed)
  }

  /** Two successive updates are the one update whose later fields win. */
  lemma MergeThen(prev: SimState, first: SimPatch, second: SimPatch)
    ensures Merge(Merge(prev, first), second) == Merge(prev, Then(first, second))
  {
  }

  /** The store's two state cells. */
  class Store {
    var simState: SimState
    var isRunning: bool

    /**
     * The initial cells: not running, and `INITIAL_STATE`, whose world seed
     * was drawn once with `loadRandom` when the module was loaded.
     */
    constructor (loadRandom: real)
      requires 0.0 <= loadRandom < 1.0
      ensures simState == InitialState(GenerateSeed(loadRandom)) && !isRunning
    {
      simState := InitialState(GenerateSeed(loadRandom));
      isRunning := false;
    }

    /** `start()`: running, state untouched. */
    method Start()
      modifies this
      ensures isRunning && simState == old(simState)
    {
      isRunning := true;
    }

    /** `reset()`: the initial state with a fresh world seed drawn from `random`, not running. */
    method Reset(random: real)
      requires 0.0 <= random < 1.0
      modifies this
      ensures simState == InitialState(GenerateSeed(random)) && !isRunning
    {
      simState := InitialState(GenerateSeed(random));
      isRunning := false;
    }

    /** `updateSimState(updates)`: the supplied fields overwrite the state, running unchanged. */
    method UpdateSimState(updates: SimPatch)
      modifies this
      ensures simState == Merge(old(simState), updates) && isRunning == old(isRunning)
    {
      simState := Merge(simState, updates);
    }
  }
}
