/** The windowing transfer function (`transferTomogramColors`): every raw sample is
    mapped linearly from the window `[min, max]` onto the display range `[0, 255]`,
    clamped, and stored into an `Int16Array` cache. */
module Transfer {
  import opened Js
  import opened Utils
  import opened Arith

  /** The value `clamp(((d - lo) * 255) / (hi - lo), 0, 255)` leaves in an `Int16Array`
      for integer operands. The quotient is clamped into `[0, 255]` first, so the
      store's truncation toward zero is a floor. An empty window (`hi == lo`) divides
      by zero: a positive numerator gives +Infinity (255), a negative one -Infinity (0),
      and `0 / 0` is NaN, which clamp passes through and the store turns into 0. */
  function Window(d: int, lo: int, hi: int): (r: int)
    ensures 0 <= r <= 255
  {
    if lo < hi then Clamp(((d - lo) * 255) / (hi - lo), 0, 255)
    else if hi < lo then Clamp(((lo - d) * 255) / (lo - hi), 0, 255)
    else if d > lo then 255
    else 0
  }

  /** What one iteration stores for sample `d`: a bound that is NaN (an absent
      configuration value took part in the arithmetic) makes the quotient NaN, and
      the store turns it into 0. */
  function Store(d: int, lo: Number, hi: Number): (r: int)
    ensures 0 <= r <= 255
    ensures lo.NaN? || hi.NaN? ==> r == 0
  {
    if lo.Int? && hi.Int? then ToInt16(Int(Window(d, lo.i, hi.i))) else 0
  }

  /** The cache after `transferTomogramColors(tomogram, cache, lo, hi)`: index `i` is
      rewritten for every sample `i`; a write past the cache's end is dropped, as a
      typed array drops it, and the indices past the samples keep their values. */
  function Fill(data: seq<int>, cache: seq<int>, lo: Number, hi: Number): (r: seq<int>)
    ensures |r| == |cache|
    ensures forall i :: 0 <= i < |r| && i < |data| ==> 0 <= r[i] <= 255
    ensures forall i :: |data| <= i < |r| ==> r[i] == cache[i]
  {
    seq(|cache|, i requires 0 <= i < |cache| => if i < |data| then Store(data[i], lo, hi) else cache[i])
  }

  /** The loop of `transferTomogramColors`, index by index; it computes `Fill`. */
  method TransferColors(data: seq<int>, cache: seq<int>, lo: Number, hi: Number) returns (r: seq<int>)
    ensures |r| == |cache|
    ensures forall i :: 0 <= i < |data| && i < |cache| ==> r[i] == Store(data[i], lo, hi)
    ensures forall i :: |data| <= i < |cache| ==> r[i] == cache[i]
    ensures r == Fill(data, cache, lo, hi)
  {
    r := cache;
    var i := 0;
    while i < |data|
      invariant 0 <= i <= |data|
      invariant |r| == |cache|
      invariant forall j :: 0 <= j < i && j < |cache| ==> r[j] == Store(data[j], lo, hi)
      invariant forall j :: i <= j < |cache| ==> r[j] == cache[j]
    {
      if i < |r| {
        r := r[i := Store(data[i], lo, hi)];
      }
      i := i + 1;
    }
  }

  /** For a non-empty window the stored value is 0 at or below the window, 255 at or
      above it, and the floored linear interpolation inside it. */
  lemma WindowPiecewise(d: int, lo: int, hi: int)
    requires lo < hi
    ensures d <= lo ==> Window(d, lo, hi) == 0
    ensures d >= hi ==> Window(d, lo, hi) == 255
    ensures lo < d < hi ==> Window(d, lo, hi) == ((d - lo) * 255) / (hi - lo)
  {
    var n := (d - lo) * 255;
    var w := hi - lo;
    if d <= lo {
      DivMonotone(n, 0, w);
    } else if d >= hi {
      MulMonotone(255, w, d - lo);
      DivMonotone(255 * w, n, w);
      assert (255 * w) / w == 255;
    } else {
      MulMonotone(255, d - lo, w - 1);
      DivMonotone(0, n, w);
      DivMonotone(n, 255 * w - 255, w);
      DivBelow(255 * w - 255, 255, w);
    }
  }

  /** `(k * w - k) / w < k` for a positive divisor `w`. */
  lemma DivBelow(a: int, k: int, w: int)
    requires w > 0 && k > 0
    requires a == k * w - k
    ensures a / w < k
  {
    if a / w >= k {
      MulMonotone(w, k, a / w);
      assert false;
    }
  }

  /** For a fixed window with `lo <= hi`, the stored value never decreases as the sample grows. */
  lemma WindowMonotone(d1: int, d2: int, lo: int, hi: int)
    requires d1 <= d2
    requires lo <= hi
    ensures Window(d1, lo, hi) <= Window(d2, lo, hi)
  {
    if lo < hi {
      MulMonotone(255, d1 - lo, d2 - lo);
      DivMonotone((d1 - lo) * 255, (d2 - lo) * 255, hi - lo);
      ClampMonotone(((d1 - lo) * 255) / (hi - lo), ((d2 - lo) * 255) / (hi - lo), 0, 255);
    }
  }

  /** An inverted window (`hi < lo`) maps samples the other way round: the stored value
      never increases as the sample grows. */
  lemma WindowInvertedAntitone(d1: int, d2: int, lo: int, hi: int)
    requires d1 <= d2
    requires hi < lo
    ensures Window(d1, lo, hi) >= Window(d2, lo, hi)
  {
    MulMonotone(255, lo - d2, lo - d1);
    DivMonotone((lo - d2) * 255, (lo - d1) * 255, lo - hi);
    ClampMonotone(((lo - d2) * 255) / (lo - hi), ((lo - d1) * 255) / (lo - hi), 0, 255);
  }

  /** A 2x2x2 volume `[0, 50, 100, 150, 200, 210, 220, 230]` under the window `[0, 100]`:
      50 lands at 127.5 and the `Int16Array` store truncates it to 127. */
  lemma ScenarioWindow()
    ensures Fill([0, 50, 100, 150, 200, 210, 220, 230], Zeros(8), Int(0), Int(100))
         == [0, 127, 255, 255, 255, 255, 255, 255]
  {
    var r := Fill([0, 50, 100, 150, 200, 210, 220, 230], Zeros(8), Int(0), Int(100));
    assert r[1] == 127;
  }
}
