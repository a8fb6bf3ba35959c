/** The two JavaScript value shapes the quote script depends on.

    A JS number is either finite or one of NaN, +Infinity, -Infinity; the
    script only ever asks `Number.isFinite`, so the non-finite values are
    collapsed into one constructor and finite numbers are modelled by `real`
    (IEEE-754 rounding is not modelled). `null`/`undefined` become `None`. */
module JsValues {

  /** A JS number as far as `Number.isFinite` can tell. */
  datatype Num = Finite(r: real) | NonFinite

  /** A value that may be `null` (or `undefined`). */
  datatype Option<+T> = None | Some(value: T)

  /** `Number.isFinite(n) ? n : 0`, the script's way of recording a field
      that is not a finite number as 0. */
  function OrZero(n: Num): (r: real)
    ensures n.NonFinite? ==> r == 0.0
    ensures n.Finite? ==> r == n.r
  {
    match n
    case Finite(x) => x
    case NonFinite => 0.0
  }
}
