/**
 * The seeded Park–Miller generator `SeededRandom` and the coordinate hash
 * `hashCoords` of the world generator.
 *
 * Every quantity here is an integer below 2^53, so the JavaScript doubles
 * are exact and the model works on `int`; `next()` returns an exact rational.
 */
module Prng {
  import opened Wrappers

  /** The Mersenne prime 2^31 - 1. */
  const MODULUS: int := 2147483647
  const MULTIPLIER: int := 16807
  /** The inverse of MULTIPLIER modulo MODULUS: 16807 * 1407677000 == 1 + 11017 * MODULUS. */
  const INVERSE: int := 1407677000

  const TWO31: int := 0x8000_0000
  const TWO32: int := 0x1_0000_0000

  /** JavaScript `a % b` on integers: truncated toward zero, the sign of the dividend. */
  function JsRem(a: int, b: int): (r: int)
    requires b > 0
    ensures a >= 0 ==> r == a % b
    ensures a < 0 ==> -b < r <= 0 && a - r == -b * ((-a) / b)
  {
    if a >= 0 then a % b else -((-a) % b)
  }

  /** The state the constructor leaves behind for a given seed. */
  function InitState(seed: int): (s: int)
    ensures seed >= 0 ==> 1 <= s <= MODULUS - 1
    ensures seed < 0 ==> 0 <= s <= MODULUS - 1
    ensures seed == 0 || seed == MODULUS ==> s == MODULUS - 1
    ensures 1 <= seed < MODULUS ==> s == seed
  {
    var r := JsRem(seed, MODULUS);
    if r <= 0 then r + (MODULUS - 1) else r
  }

  /**
   * The constructor leaves the state 0 exactly for the negative seeds one
   * above a multiple of the modulus (-2147483646, -4294967293, ...), and 0
   * is a fixed point of `next()` whose value is negative.
   */
  lemma NegativeSeedFixedPoint(seed: int)
    ensures InitState(seed) == 0 <==> seed < 0 && seed % MODULUS == 1
    ensures NextState(0) == 0 && Value(NextState(0)) < 0.0
  {
    if seed < 0 {
      var b := -seed;
      var q := b / MODULUS;
      assert b == MODULUS * q + b % MODULUS;
      if b % MODULUS == MODULUS - 1 {
        assert seed == 1 + MODULUS * (-(q + 1));
        ModAddMultiple(1, -(q + 1));
      }
      if seed % MODULUS == 1 {
        var k := seed / MODULUS;
        assert seed == MODULUS * k + 1;
        assert b == (MODULUS - 1) + MODULUS * (-k - 1);
        ModAddMultiple(MODULUS - 1, -k - 1);
      }
    }
  }

  /** The state after one `next()`. */
  function NextState(s: nat): (t: nat)
    ensures t < MODULUS
    ensures 1 <= s < MODULUS ==> 1 <= t
  {
    if 1 <= s < MODULUS then MultiplierInvertible(s); JsRem(s * MULTIPLIER, MODULUS)
    else JsRem(s * MULTIPLIER, MODULUS)
  }

  /** The value `next()` returns once the state has become `s`. */
  function Value(s: int): (v: real)
    ensures 1 <= s <= MODULUS - 1 ==> 0.0 <= v < 1.0
    ensures s == 1 ==> v == 0.0
  {
    (s - 1) as real / (MODULUS - 1) as real
  }

  /**
   * Multiplying a non-zero residue by 16807 never gives 0 modulo the prime,
   * because 16807 has the inverse INVERSE.
   */
  lemma MultiplierInvertible(s: int)
    requires 1 <= s < MODULUS
    ensures (s * MULTIPLIER) % MODULUS != 0
  {
    var p := s * MULTIPLIER;
    var k := p / MODULUS;
    var r := p % MODULUS;
    assert p == k * MODULUS + r;
    assert MULTIPLIER * INVERSE == 1 + 11017 * MODULUS;
    calc {
      s;
    ==
      s * (MULTIPLIER * INVERSE) - s * 11017 * MODULUS;
    ==
      p * INVERSE - s * 11017 * MODULUS;
    ==
      (k * MODULUS + r) * INVERSE - s * 11017 * MODULUS;
    ==
      r * INVERSE + MODULUS * (k * INVERSE - s * 11017);
    }
    var q := k * INVERSE - s * 11017;
    assert s % MODULUS == (r * INVERSE + MODULUS * q) % MODULUS;
    ModAddMultiple(r * INVERSE, q);
    assert (r * INVERSE) % MODULUS == s;
  }

  lemma ModAddMultiple(a: int, q: int)
    ensures (a + MODULUS * q) % MODULUS == a % MODULUS
  {
  }

  /** The state after `n` calls of `next()`. */
  function Iterate(s: nat, n: nat): (t: nat)
    ensures 1 <= s < MODULUS ==> 1 <= t < MODULUS
  {
    if n == 0 then s else NextState(Iterate(s, n - 1))
  }

  lemma {:induction false} IterateAdd(s: nat, a: nat, b: nat)
    ensures Iterate(Iterate(s, a), b) == Iterate(s, a + b)
    decreases b
  {
    if b > 0 {
      IterateAdd(s, a, b - 1);
    }
  }

  /** The first `n` outputs of `next()` of a generator whose state is `s`. */
  function Stream(s: nat, n: nat): (xs: seq<real>)
    ensures |xs| == n
    ensures 1 <= s < MODULUS ==> forall i :: 0 <= i < n ==> 0.0 <= xs[i] < 1.0
  {
    if n == 0 then [] else Stream(s, n - 1) + [Value(Iterate(s, n))]
  }

  /** `min + next() * (max - min)` drawn from state `s`. */
  function RangeDraw(s: nat, min: real, max: real): (r: real)
    ensures 1 <= s < MODULUS && min < max ==> min <= r < max
  {
    var v := Value(NextState(s));
    var d := max - min;
    if 1 <= s < MODULUS && min < max then
      ScaleBelow(v, d);
      min + v * d
    else
      min + v * d
  }

  /** `Math.floor(range(min, max))` drawn from state `s`. */
  function IntDraw(s: nat, min: int, max: int): (r: int)
    ensures 1 <= s < MODULUS && min < max ==> min <= r <= max - 1
  {
    RangeDraw(s, min as real, max as real).Floor
  }

  /** For v in [0, 1) and d > 0, v * d lies in [0, d). */
  lemma ScaleBelow(v: real, d: real)
    requires 0.0 <= v < 1.0 && d > 0.0
    ensures 0.0 <= v * d < d
  {
    assert d - v * d == (1.0 - v) * d;
    assert (1.0 - v) * d > 0.0;
  }

  /** The generator object: its only field is the state that every `next()` overwrites. */
  class SeededRandom {
    var seed: int

    ghost predicate Valid()
      reads this
    {
      0 <= seed < MODULUS
    }

    constructor (seed: int)
      ensures Valid() && this.seed == InitState(seed)
    {
      var s := JsRem(seed, MODULUS);
      if s <= 0 {
        s := s + (MODULUS - 1);
      }
      this.seed := s;
    }

    method Next() returns (r: real)
      requires Valid()
      modifies this
      ensures Valid()
      ensures seed == NextState(old(seed)) && r == Value(seed)
      ensures 1 <= old(seed) ==> 1 <= seed && 0.0 <= r < 1.0
    {
      seed := JsRem(seed * MULTIPLIER, MODULUS);
      r := (seed - 1) as real / (MODULUS - 1) as real;
    }

    method Range(min: real, max: real) returns (r: real)
      requires Valid()
      modifies this
      ensures Valid()
      ensures seed == NextState(old(seed)) && r == RangeDraw(old(seed), min, max)
      ensures 1 <= old(seed) && min < max ==> min <= r < max
    {
      var v := Next();
      var d := max - min;
      r := min + v * d;
      assert r == RangeDraw(old(seed), min, max);
    }

    method Int(min: int, max: int) returns (r: int)
      requires Valid()
      modifies this
      ensures Valid()
      ensures seed == NextState(old(seed)) && r == IntDraw(old(seed), min, max)
      ensures 1 <= old(seed) && min < max ==> min <= r <= max - 1
    {
      var x := Range(min as real, max as real);
      r := x.Floor;
    }
  }

  /**
   * Two generators built from the same seed produce the same `next()` values,
   * and those are the stream of the constructor's state.
   */
  method SameSeedSameStream(seed: int, n: nat) returns (xs: seq<real>, ys: seq<real>)
    ensures xs == ys
    ensures xs == Stream(InitState(seed), n)
  {
    var a := new SeededRandom(seed);
    var b := new SeededRandom(seed);
    xs, ys := [], [];
    var i := 0;
    while i < n
      invariant 0 <= i <= n
      invariant a.Valid() && b.Valid()
      invariant a.seed == b.seed == Iterate(InitState(seed), i)
      invariant xs == Stream(InitState(seed), i) && ys == xs
    {
      var x := a.Next();
      var y := b.Next();
      xs, ys := xs + [x], ys + [y];
      i := i + 1;
    }
  }

  /** JavaScript `v | 0`: the value wrapped to a signed 32-bit integer. */
  function ToInt32(v: int): (r: int)
    ensures -TWO31 <= r < TWO31
    ensures (v - r) % TWO32 == 0
  {
    var m := v % TWO32;
    if m >= TWO31 then m - TWO32 else m
  }

  /** Values congruent modulo 2^32 wrap to the same 32-bit integer. */
  lemma ToInt32Congruent(a: int, b: int)
    requires (a - b) % TWO32 == 0
    ensures ToInt32(a) == ToInt32(b)
  {
    assert a % TWO32 == b % TWO32 by {
      var q := (a - b) / TWO32;
      assert a == b + TWO32 * q;
    }
  }

  /** JavaScript `h << 5`: the operand is wrapped to 32 bits, shifted, and wrapped again. */
  function ShiftLeft5(h: int): int
  {
    ToInt32(ToInt32(h) * 32)
  }

  /** `hashCoords(x, y, baseSeed)`: two rounds of `hash*31 + coord` with 32-bit wrap-around, then |hash|. */
  function HashCoords(x: int, y: int, baseSeed: int): (r: int)
    ensures 0 <= r <= TWO31
  {
    var hash0 := baseSeed;
    var hash1 := ToInt32(ShiftLeft5(hash0) - hash0 + x);
    var hash2 := ToInt32(ShiftLeft5(hash1) - hash1 + y);
    Abs(hash2)
  }

  /** The shift-and-subtract form is `31 * hash + coord` wrapped to 32 bits. */
  lemma ShiftSubtract(h: int, c: int)
    ensures ToInt32(ShiftLeft5(h) - h + c) == ToInt32(31 * h + c)
  {
    var h32 := ToInt32(h);
    var s := ToInt32(h32 * 32);
    var q1 := (h - h32) / TWO32;
    var q2 := (h32 * 32 - s) / TWO32;
    ExactQuotient(h - h32);
    ExactQuotient(h32 * 32 - s);
    var k := -q2 - 32 * q1;
    assert (ShiftLeft5(h) - h + c) - (31 * h + c) == TWO32 * k;
    MultipleRemainder(k);
    ToInt32Congruent(ShiftLeft5(h) - h + c, 31 * h + c);
  }

  lemma ExactQuotient(a: int)
    requires a % TWO32 == 0
    ensures a == TWO32 * (a / TWO32)
  {
  }

  lemma MultipleRemainder(k: int)
    ensures (TWO32 * k) % TWO32 == 0
  {
  }

  lemma HashCoordsClosedForm(x: int, y: int, baseSeed: int)
    ensures HashCoords(x, y, baseSeed) == Abs(ToInt32(31 * ToInt32(31 * baseSeed + x) + y))
  {
    ShiftSubtract(baseSeed, x);
    ShiftSubtract(ToInt32(ShiftLeft5(baseSeed) - baseSeed + x), y);
  }
}
