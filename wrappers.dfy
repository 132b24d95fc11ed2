/** Small helpers shared by the other modules: an option type, min/max/abs and `Math.PI`. */
module Wrappers {

  datatype Option<T> = None | Some(value: T)

  function Min(a: real, b: real): (r: real)
    ensures r <= a && r <= b && (r == a || r == b)
  {
    if a <= b then a else b
  }

  function Max(a: real, b: real): (r: real)
    ensures r >= a && r >= b && (r == a || r == b)
  {
    if a >= b then a else b
  }

  /** `Math.PI`: the double nearest to pi, 884279719003555 / 2^48, as an exact rational. */
  const PI: real := 884279719003555.0 / 281474976710656.0

  lemma PiBounds()
    ensures 3.14 < PI < 3.15
  {
  }

  function Abs(i: int): (r: int)
    ensures r >= 0 && (r == i || r == -i)
  {
    if i < 0 then -i else i
  }
}
