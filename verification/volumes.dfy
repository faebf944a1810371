/** What the two volume strategies (`ThreeDRenderer`, `ThreeDTextureRenderer`) share:
    the private min/width gate around the transfer, the RGBA texel fill, and the rule
    that reuses the texel array while its length stays the same. Both strategies build on
    a `BaseRenderer` that is not part of this model; they are modelled on `Base2D`. */
module Volumes {
  import opened Js
  import opened Arith
  import Base2D
  import Transfer

  /** The window an instance remembers (both `undefined` until the gate first opens). */
  datatype Seen = Seen(min: Value, width: Value)

  /** The gate opens when the configured min or width differs from the remembered one. */
  predicate GateOpen(seen: Seen, c: Base2D.Config)
  {
    seen.min != Base2D.Get(c, Base2D.TransferFunctionMin) || seen.width != Base2D.Get(c, Base2D.TransferFunctionWidth)
  }

  /** The gated transfer: with the gate open, the cache is recomputed with the window
      `[min, min + width]` and the window is remembered; with it closed, nothing changes. */
  function GatedTransfer(seen: Seen, st: Base2D.State): (r: (seq<int>, Seen))
    ensures r.1 == Seen(Base2D.Get(st.config, Base2D.TransferFunctionMin), Base2D.Get(st.config, Base2D.TransferFunctionWidth))
    ensures !GateOpen(seen, st.config) ==> r.0 == st.cache && r.1 == seen
    ensures GateOpen(seen, st.config) ==>
              r.0 == Transfer.Fill(st.tomogram.data, st.cache, Base2D.MinWidthWindow(st.config).0, Base2D.MinWidthWindow(st.config).1)
  {
    if GateOpen(seen, st.config) then
      var w := Base2D.MinWidthWindow(st.config);
      (Transfer.Fill(st.tomogram.data, st.cache, w.0, w.1),
       Seen(Base2D.Get(st.config, Base2D.TransferFunctionMin), Base2D.Get(st.config, Base2D.TransferFunctionWidth)))
    else
      (st.cache, seen)
  }

  /** Running the gated transfer twice on the same state recomputes nothing the second
      time: the gate has closed behind the first run. */
  lemma GateClosesBehind(seen: Seen, st: Base2D.State)
    ensures var first := GatedTransfer(seen, st);
            GatedTransfer(first.1, st.(cache := first.0)) == first
  {
  }

  /** A `texImage2D` or `texImage3D` call: the declared extent and the bytes handed over. */
  datatype Upload = Upload(width: int, height: int, depth: int, pixels: seq<int>)

  /** The RGBA texel array of `n` texels: texel `m` repeats the cache value at
      `offset + m` in its colour channels, and in its alpha channel too unless a fixed
      alpha is given. A read outside the cache stores 0. */
  function Rgba(cache: seq<int>, n: nat, offset: int, alpha: Option<int>): (t: seq<int>)
    ensures |t| == 4 * n
  {
    seq(4 * n, k requires 0 <= k < 4 * n =>
      if k % 4 == 3 && alpha.Some? then ToUint8(Int(alpha.value)) else ToUint8(ToNumber(At(cache, Int(offset + k / 4)))))
  }

  /** The read for texel `m`, at `offset + m`, lands inside the cache. */
  predicate InCache(cache: seq<int>, offset: int, m: int)
  {
    0 <= offset + m < |cache|
  }

  /** Channel `j` of texel `m` sits at `4 m + j`. */
  lemma RgbaAt(cache: seq<int>, n: nat, offset: int, alpha: Option<int>, m: int, j: int)
    requires 0 <= m < n && 0 <= j < 4
    ensures 4 * m + j < |Rgba(cache, n, offset, alpha)|
    ensures Rgba(cache, n, offset, alpha)[4 * m + j]
         == if j == 3 && alpha.Some? then ToUint8(Int(alpha.value)) else ToUint8(ToNumber(At(cache, Int(offset + m))))
  {
    DivModUnique(4 * m + j, 4, m, j);
  }

  /** The fill loop `for (i = 0, offset = start; i < bufSize; i += 4, offset++)` writing
      all four channels of every texel. It overwrites every entry, so the result does not
      depend on what a reused array held before. */
  method FillRgba(buf: seq<int>, cache: seq<int>, n: nat, start: int, alpha: Option<int>) returns (t: seq<int>)
    requires |buf| == 4 * n
    ensures t == Rgba(cache, n, start, alpha)
  {
    t := buf;
    var i, offset := 0, start;
    ghost var m := 0;
    while i < 4 * n
      invariant 0 <= m <= n && i == 4 * m && offset == start + m
      invariant |t| == 4 * n
      invariant forall k :: 0 <= k < i ==> t[k] == Rgba(cache, n, start, alpha)[k]
    {
      var c := ToUint8(ToNumber(At(cache, Int(offset))));
      var a := if alpha.Some? then ToUint8(Int(alpha.value)) else c;
      t := t[i := c][i + 1 := c][i + 2 := c][i + 3 := a];
      forall k | i <= k < i + 4
        ensures t[k] == Rgba(cache, n, start, alpha)[k]
      {
        RgbaAt(cache, n, start, alpha, m, k - i);
      }
      i, offset, m := i + 4, offset + 1, m + 1;
    }
  }

  /** `if (textureBuffer?.length != bufSize) textureBuffer = new Uint8Array(bufSize)`:
      the array is kept while its length matches, and a new one is allocated (or a
      RangeError thrown, for a negative length) otherwise. The flag tells whether an
      allocation happened. */
  function Reuse(texels: Option<seq<int>>, bufSize: int): (r: Result<(seq<int>, bool)>)
    ensures texels.Some? && |texels.value| == bufSize ==> r == Ok((texels.value, false))
    ensures !(texels.Some? && |texels.value| == bufSize) ==>
              (r.Ok? <==> bufSize >= 0) && (r.Ok? ==> r.value.1 && r.value.0 == Zeros(bufSize))
    ensures r.Err? ==> r.error == RangeError
  {
    if texels.Some? && |texels.value| == bufSize then Ok((texels.value, false))
    else if bufSize < 0 then Err(RangeError)
    else Ok((Zeros(bufSize), true))
  }
}
