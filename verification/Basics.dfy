/** Types shared by every module of the model. */
module Basics {

  datatype Option<+T> = None | Some(value: T)

  /** An unsigned 8-bit value. */
  type byte = b: int | 0 <= b < 256

  function Min(a: int, b: int): int {
    if a <= b then a else b
  }

  lemma ScaleBounds(c: real, b: real)
    requires 0.0 <= c <= 1.0 && b >= 0.0
    ensures 0.0 <= c * b <= b && 0.0 <= b * c <= b
  {
  }

  /** A share of a non-negative amount. */
  function Share(c: real, b: real): (r: real)
    requires 0.0 <= c <= 1.0 && b >= 0.0
    ensures 0.0 <= r <= b
  {
    ScaleBounds(c, b);
    b * c
  }

  /** A share of an intensity, rounded down. */
  function Dimmed(intensity: byte, c: real): (level: byte)
    requires 0.0 <= c <= 1.0
    ensures level <= intensity
  {
    Share(c, intensity as real).Floor
  }

  lemma Associate<T>(a: seq<T>, b: seq<T>, c: seq<T>)
    ensures (a + b) + c == a + (b + c)
  {
  }
}
