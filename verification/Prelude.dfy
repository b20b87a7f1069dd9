/** Datatypes and sequence facts shared by the whole project. */
module Prelude {
  datatype Option<+T> = None | Some(value: T)

  datatype Result<+T, +E> = Ok(value: T) | Err(error: E)

  /** How a call to a remote system ends: performed, refused without effect, or performed with the
      reply lost, which the caller sees as an error. */
  datatype Outcome = Reached | Refused | ReplyLost

  const TWO_63 := 0x8000_0000_0000_0000
  const TWO_64 := 0x1_0000_0000_0000_0000
  const MAX_INT64 := TWO_63 - 1

  /** The value a Go int64 holds after arithmetic whose exact result is `x`. */
  function Wrap64(x: int): (w: int)
    ensures -TWO_63 <= w < TWO_63
    ensures -TWO_63 <= x < TWO_63 ==> w == x
  {
    (x + TWO_63) % TWO_64 - TWO_63
  }

  /** Wrapping an intermediate result does not change the final wrapped sum. */
  lemma WrapAbsorb(a: int, b: int)
    ensures Wrap64(Wrap64(a) + b) == Wrap64(a + b)
  {
  }

  lemma ModShift(x: int, q: int)
    ensures (x + q * TWO_64) % TWO_64 == x % TWO_64
  {
  }
}
