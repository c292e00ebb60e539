/** The one engine math helper the core relies on: Unity's `Mathf.Clamp`, on reals. */
module Mathf {

  function Distance(a: real, b: real): real {
    if a < b then b - a else a - b
  }

  /** `Mathf.Clamp(value, min, max)`: raise to `min`, else lower to `max`, else keep.
      On a proper range the result is the point of `[min, max]` nearest to `value`. */
  function Clamp(value: real, min: real, max: real): (r: real)
    ensures min <= max ==> min <= r <= max
    ensures min <= value <= max ==> r == value
    ensures min <= max ==> forall x :: min <= x <= max ==> Distance(r, value) <= Distance(x, value)
  {
    if value < min then min
    else if value > max then max
    else value
  }
}
