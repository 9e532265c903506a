/** Value types shared by every part of the post-harvest advice core. */
module Basics {

  /** A value that may be absent: Python's `dict.get` without a default, or a missing JSON key. */
  datatype Option<+T> = None | Some(value: T) {
    function GetOr(default: T): T {
      match this
      case Some(v) => v
      case None => default
    }
  }

  /** Either a computed value or the error a Python function returns (or raises) instead. */
  datatype Result<+R, +E> = Success(value: R) | Failure(error: E)

  /** The three-level risk scale used by the spoilage model and the pocket-cash evaluation. */
  datatype Risk = Low | Medium | High

  /** The traffic-light colours shown to the farmer. */
  datatype Color = Green | Yellow | Red

  function Max(a: real, b: real): real { if a >= b then a else b }

  function Min(a: real, b: real): real { if a <= b then a else b }

  /** Python's `max(lo, min(hi, x))` on integers. */
  function ClampInt(x: int, lo: int, hi: int): (r: int)
    requires lo <= hi
    ensures lo <= r <= hi
    ensures lo <= x <= hi ==> r == x
  {
    if x < lo then lo else if x > hi then hi else x
  }
}
