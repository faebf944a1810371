/** The `clamp` helper of the viewer's utilities. */
module Utils {

  /** `val < min ? min : val > max ? max : val`; the bounds are not required to be ordered. */
  function Clamp(val: int, min: int, max: int): (r: int)
    ensures min <= max ==> min <= r <= max
    ensures r == min || r == max || r == val
  {
    if val < min then min else if val > max then max else val
  }

  /** The three cases of `clamp`, in the order the conditional tests them. */
  lemma ClampCases(val: int, min: int, max: int)
    ensures val < min ==> Clamp(val, min, max) == min
    ensures min <= val && val > max ==> Clamp(val, min, max) == max
    ensures min <= val <= max ==> Clamp(val, min, max) == val
  {
  }

  /** Clamping a value that is already clamped changes nothing. */
  lemma ClampIdempotent(val: int, min: int, max: int)
    requires min <= max
    ensures Clamp(Clamp(val, min, max), min, max) == Clamp(val, min, max)
  {
  }

  /** For fixed ordered bounds, `clamp` is monotone non-decreasing in the value. */
  lemma ClampMonotone(a: int, b: int, min: int, max: int)
    requires a <= b
    requires min <= max
    ensures Clamp(a, min, max) <= Clamp(b, min, max)
  {
  }
}
