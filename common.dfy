/** Values shared by the modules of the visualiser model. */
module Common {

  /** A value that may be absent: the model's `null` / `undefined`. */
  datatype Option<+T> = None | Some(value: T)

  /** The outcome of an operation that can throw: its value, or the error thrown. */
  datatype Result<+T, +E> = Success(value: T) | Failure(error: E)

  /**
   * A JavaScript number as the visualiser computes with it: either a finite
   * value (Float32 and double rounding are not modelled, so it is a `real`)
   * or `NaN`, which arises from `0 / 0` and from arithmetic on `undefined`.
   */
  datatype Level = Num(v: real) | NaN

  /** `x + y` on JavaScript numbers. */
  function Add(x: Level, y: Level): (r: Level)
    ensures r.Num? <==> x.Num? && y.Num?
    ensures r.Num? ==> r.v == x.v + y.v
  {
    if x.Num? && y.Num? then Num(x.v + y.v) else NaN
  }
}
