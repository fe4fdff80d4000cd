/** Small shared vocabulary for the two visualizer models. */
module Common {

  /** A value that may be absent: JavaScript's `undefined` in a chart point. */
  datatype Option<T> = None | Some(value: T)

  /** Absolute value on exact reals (`Math.abs`). */
  function Abs(r: real): (a: real)
    ensures 0.0 <= a
    ensures a == r || a == -r
  {
    if r < 0.0 then -r else r
  }
}
