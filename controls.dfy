/**
 * The keyboard mapping `useFlightControls`: a set of held keys, kept
 * lower-case by the keydown and keyup handlers, and the periodic mapping of
 * that set to a control vector in which, on every axis, the later of two
 * assignments wins.
 */
module Controls {

  /** `FlightControls`: pitch, roll, yaw and throttle change, each -1, 0 or 1. */
  datatype FlightControls = FlightControls(pitch: real, roll: real, yaw: real, throttle: real)

  /** All four axes at rest. */
  const IDLE: FlightControls := FlightControls(0.0, 0.0, 0.0, 0.0)

  /**
   * `toLowerCase` on one character, restricted to the ASCII letters A to Z;
   * every other character, non-ASCII capitals included, is kept as it is.
   */
  function LowerChar(c: char): (r: char)
    ensures 'A' <= c <= 'Z' ==> r as int == c as int + 32 && 'a' <= r <= 'z'
    ensures !('A' <= c <= 'Z') ==> r == c
  {
    if 'A' <= c <= 'Z' then (c as int - 'A' as int + 'a' as int) as char else c
  }

  /** `toLowerCase` on a key name, character by character, with the ASCII-only fold of `LowerChar`. */
  function ToLower(s: string): (r: string)
    ensures |r| == |s|
    ensures forall i :: 0 <= i < |s| ==> r[i] == LowerChar(s[i])
  {
    if s == [] then [] else [LowerChar(s[0])] + ToLower(s[1..])
  }

  /** Lower-casing twice is lower-casing once. */
  lemma ToLowerIdempotent(s: string)
    ensures ToLower(ToLower(s)) == ToLower(s)
  {
    var t := ToLower(s);
    assert forall i :: 0 <= i < |t| ==> ToLower(t)[i] == LowerChar(LowerChar(s[i])) == t[i];
  }

  /** A key name with no upper-case letter. */
  predicate IsLower(s: string)
  {
    ToLower(s) == s
  }

  /** The key names each axis listens to. */
  const PITCH_KEYS: set<string> := {"w", "arrowup", "s", "arrowdown"}
  const ROLL_KEYS: set<string> := {"a", "arrowleft", "d", "arrowright"}
  const YAW_KEYS: set<string> := {"q", "e"}
  const THROTTLE_KEYS: set<string> := {"shift", " ", "control", "x"}

  /**
   * The control vector for a set of held keys, stated per axis with the
   * precedence that the order of the assignments gives: the second pair of
   * an axis overrides the first.
   */
  function ControlsFor(keys: set<string>): (c: FlightControls)
    ensures c.pitch in {-1.0, 0.0, 1.0} && c.roll in {-1.0, 0.0, 1.0}
    ensures c.yaw in {-1.0, 0.0, 1.0} && c.throttle in {-1.0, 0.0, 1.0}
  {
    FlightControls(
      if "s" in keys || "arrowdown" in keys then -1.0 else if "w" in keys || "arrowup" in keys then 1.0 else 0.0,
      if "d" in keys || "arrowright" in keys then 1.0 else if "a" in keys || "arrowleft" in keys then -1.0 else 0.0,
      if "e" in keys then 1.0 else if "q" in keys then -1.0 else 0.0,
      if "control" in keys || "x" in keys then -1.0 else if "shift" in keys || " " in keys then 1.0 else 0.0)
  }

  /** With no key held every axis is at rest. */
  lemma NoKeysIdle()
    ensures ControlsFor({}) == IDLE
  {
  }

  /** On every axis the later assignment wins over the earlier one. */
  lemma LaterAssignmentWins(keys: set<string>)
    ensures "s" in keys || "arrowdown" in keys ==> ControlsFor(keys).pitch == -1.0
    ensures "d" in keys || "arrowright" in keys ==> ControlsFor(keys).roll == 1.0
    ensures "e" in keys ==> ControlsFor(keys).yaw == 1.0
    ensures "control" in keys || "x" in keys ==> ControlsFor(keys).throttle == -1.0
  {
  }

  /** Holding one more key changes only the axis that listens to it. */
  lemma AxisIndependence(keys: set<string>, key: string)
    ensures key !in PITCH_KEYS ==> ControlsFor(keys + {key}).pitch == ControlsFor(keys).pitch
    ensures key !in ROLL_KEYS ==> ControlsFor(keys + {key}).roll == ControlsFor(keys).roll
    ensures key !in YAW_KEYS ==> ControlsFor(keys + {key}).yaw == ControlsFor(keys).yaw
    ensures key !in THROTTLE_KEYS ==> ControlsFor(keys + {key}).throttle == ControlsFor(keys).throttle
  {
  }

  /** The `keys` set of the keyboard hook. */
  class Keyboard {
    var keys: set<string>

    /** Every held key is recorded in lower case. */
    ghost predicate Valid()
      reads this
    {
      forall k :: k in keys ==> IsLower(k)
    }

    constructor ()
      ensures Valid() && keys == {}
    {
      keys := {};
    }

    /** The keydown handler. */
    method KeyDown(key: string)
      requires Valid()
      modifies this
      ensures Valid() && keys == old(keys) + {ToLower(key)}
    {
      ToLowerIdempotent(key);
      keys := keys + {ToLower(key)};
    }

    /**
     * The keyup handler. Because every held key is lower case, releasing a
     * key in any spelling releases every held key that folds to the same name.
     */
    method KeyUp(key: string)
      requires Valid()
      modifies this
      ensures Valid() && keys == old(keys) - {ToLower(key)}
      ensures forall k :: k in old(keys) && ToLower(k) == ToLower(key) ==> k !in keys
    {
      keys := keys - {ToLower(key)};
    }

    /**
     * One tick of `updateControls`: start at rest and make the eight
     * conditional assignments in order.
     */
    method UpdateControls() returns (controls: FlightControls)
      ensures controls == ControlsFor(keys)
    {
      controls := IDLE;
      if "w" in keys || "arrowup" in keys { controls := controls.(pitch := 1.0); }
      if "s" in keys || "arrowdown" in keys { controls := controls.(pitch := -1.0); }
      if "a" in keys || "arrowleft" in keys { controls := controls.(roll := -1.0); }
      if "d" in keys || "arrowright" in keys { controls := controls.(roll := 1.0); }
      if "q" in keys { controls := controls.(yaw := -1.0); }
      if "e" in keys { controls := controls.(yaw := 1.0); }
      if "shift" in keys || " " in keys { controls := controls.(throttle := 1.0); }
      if "control" in keys || "x" in keys { controls := controls.(throttle := -1.0); }
    }
  }

}
