/** Values shared by every stage of the closed-loop pipeline. */
module Common {

  datatype Option<T> = None | Some(value: T)

  datatype Result<T, E> = Ok(value: T) | Err(error: E)

  /** A floating-point reading of the pipeline: a number or NaN.
      NaN is what a placeholder row holds and what a spectral estimate can
      produce; every ordered comparison with it is false. */
  datatype Sample = Num(v: real) | NaN

  /** `value > threshold` as Python evaluates it (false for NaN). */
  predicate Exceeds(x: Sample, threshold: real)
  {
    x.Num? && x.v > threshold
  }

  /** `value <= threshold` as Python evaluates it (false for NaN). */
  predicate AtOrBelow(x: Sample, threshold: real)
  {
    x.Num? && x.v <= threshold
  }

  /** `int(value > threshold)`: the 0/1 trigger of the comparator nodes. */
  function TriggerBit(x: Sample, threshold: real): (b: int)
    ensures b == 1 <==> Exceeds(x, threshold)
    ensures b == 0 <==> !Exceeds(x, threshold)
  {
    if Exceeds(x, threshold) then 1 else 0
  }
}
