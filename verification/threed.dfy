/** The atlas strategy (`ThreeDRenderer`): 32 stacked slabs drawn from one RGBA texture
    that is `x` texels wide and `32 y` high, filled from 32 consecutive layers of the
    cache starting at layer 46. The configured layer plays no part. */
module ThreeD {
  import opened Js
  import opened Tomograms
  import opened Arith
  import Base2D
  import Slabs
  import Volumes

  /** The configuration properties whose change re-runs `updateCache`. */
  const Triggers: set<Base2D.Key> := {Base2D.TransferFunctionMin, Base2D.TransferFunctionWidth}

  /** The number of slabs, and the first cache layer the atlas reads. */
  const Layers := 32
  const FirstLayer := 78 - 32

  /** The vertex count given to `drawArrays`: six per slab. */
  const VerticesCount := 32 * 6

  /** The instance's private state: the remembered window, the vertex array (allocated
      zeroed once, with three components per vertex), the texel array (absent until the
      first `updateCache`), the number of texel arrays allocated so far, and the last
      texture uploaded. */
  datatype Private = Private(seen: Volumes.Seen, vertices: seq<Slabs.Component>, texels: Option<seq<int>>,
                             allocations: nat, upload: Option<Volumes.Upload>)

  /** What `render` uploads: the vertex array, and the vertex count it draws. */
  datatype Frame = Frame(vertices: seq<Slabs.Component>, count: int)

  type Renderer = Base2D.Renderer<Private>

  /** The private state an initializer creates. */
  function Fresh(): Private
  {
    Private(Volumes.Seen(Undefined, Undefined), Slabs.Blank(VerticesCount * 3), None, 0, None)
  }

  function Init(): (r: Renderer)
    ensures r.state.None? && |r.buffers.vertices| == 3 * VerticesCount
  {
    Base2D.Initial(Fresh())
  }

  /** The atlas texels for a slice of `xy` samples: `32 xy` texels whose colour is the
      cache value at `46 xy + m` and whose alpha is 128. */
  function Atlas(cache: seq<int>, xy: nat): (t: seq<int>)
    ensures |t| == 4 * (Layers * xy)
  {
    Volumes.Rgba(cache, Layers * xy, FirstLayer * xy, Some(128))
  }

  /** `updateCache`: the gated transfer, the slab loop (which writes the same 32 slabs
      every time), the texel array kept or reallocated by length, the texel fill and the
      upload of an `x` by `32 y` texture. A negative `x * y` makes the allocation throw. */
  function UpdateCache(st: Base2D.State, p: Private): (r: Result<(seq<int>, Private)>)
    ensures var xy := st.tomogram.size.x * st.tomogram.size.y;
            var g := Volumes.GatedTransfer(p.seen, st);
            && (r.Ok? <==> xy >= 0)
            && (r.Err? ==> r.error == RangeError)
            && (r.Ok? ==>
                  && r.value.0 == g.0
                  && r.value.1.seen == g.1
                  && r.value.1.vertices == Slabs.Slab(Layers)
                  && r.value.1.texels == Some(Atlas(g.0, xy))
                  && r.value.1.upload == Some(Volumes.Upload(st.tomogram.size.x, st.tomogram.size.y * Layers, 1, Atlas(g.0, xy)))
                  && (r.value.1.allocations == p.allocations <==> p.texels.Some? && |p.texels.value| == 4 * (Layers * xy))
                  && r.value.1.allocations <= p.allocations + 1)
  {
    var g := Volumes.GatedTransfer(p.seen, st);
    var x, y := st.tomogram.size.x, st.tomogram.size.y;
    var size := x * y * Layers;
    var bufSize := size * 4;
    var buf :- Volumes.Reuse(p.texels, bufSize);
    var pixels := Volumes.Rgba(g.0, size, x * y * FirstLayer, Some(128));
    Ok((g.0, Private(g.1, Slabs.Slab(Layers), Some(pixels), p.allocations + (if buf.1 then 1 else 0),
                     Some(Volumes.Upload(x, y * Layers, 1, pixels)))))
  }

  /** `render`: the vertex array and its 192 vertices; the private state is left alone.
      Over the slab layout the count is exactly the number of three-component vertices. */
  function Draw(st: Base2D.State, p: Private): (r: (Frame, Private))
    ensures r.1 == p && r.0.vertices == p.vertices && r.0.count == 6 * Layers
    ensures p.vertices == Slabs.Slab(Layers) ==> 3 * r.0.count == |r.0.vertices|
  {
    (Frame(p.vertices, VerticesCount), p)
  }

  function Configure(r: Renderer, t: Tomogram, config: Base2D.Config): Result<Renderer>
  {
    Base2D.ConfigureWith(r, t, config, Triggers, UpdateCache)
  }

  function Render(r: Renderer): Result<(Frame, Renderer)>
  {
    Base2D.RenderWith(r, Draw)
  }

  /** The private state agrees with the renderer state: before the first `configure`
      nothing has been computed; afterwards the slabs are written, and the uploaded
      atlas is the one the current cache and slice size give. */
  ghost predicate Consistent(r: Renderer)
  {
    && (r.state.None? ==> r.buffers == Fresh())
    && (r.state.Some? ==>
          var st := r.state.value;
          var xy := st.tomogram.size.x * st.tomogram.size.y;
          && xy >= 0
          && r.buffers.vertices == Slabs.Slab(Layers)
          && r.buffers.texels == Some(Atlas(st.cache, xy))
          && r.buffers.upload == Some(Volumes.Upload(st.tomogram.size.x, st.tomogram.size.y * Layers, 1, Atlas(st.cache, xy))))
  }

  /** Every successful `configure` keeps the private state consistent. */
  lemma ConfigureKeepsConsistent(r: Renderer, t: Tomogram, config: Base2D.Config)
    requires Consistent(r)
    requires Configure(r, t, config).Ok?
    ensures Consistent(Configure(r, t, config).value)
  {
    var step := Base2D.Configure(r.state, t, config, Triggers);
  }

  /** The slab loop of `updateCache` runs over the vertex array as it stands, on every
      call: on the fresh array of the first call and on the layout later ones find, it
      yields the layout `UpdateCache` stores. */
  lemma SlabLoopRewritesLayout(r: Renderer)
    requires Consistent(r)
    ensures |r.buffers.vertices| == 18 * Layers
    ensures Slabs.Overwrite(r.buffers.vertices, Layers) == Slabs.Slab(Layers)
  {
    Slabs.OverwriteBlank(Layers);
    Slabs.OverwriteSlab(Layers);
  }

  /** Once configured, `render` draws 192 vertices forming 32 unit-quad slabs, from an
      array of exactly `3 * 192` components. */
  lemma RenderDrawsSlabs(r: Renderer)
    requires Consistent(r) && r.state.Some?
    ensures Render(r).Ok?
    ensures Render(r).value.0.vertices == Slabs.Slab(Layers)
    ensures 3 * Render(r).value.0.count == |Render(r).value.0.vertices|
  {
  }

  /** The uploaded extent matches the texel array: `4 * width * height` bytes. */
  lemma UploadExtent(r: Renderer)
    requires Consistent(r) && r.state.Some?
    ensures var u := r.buffers.upload.value; 4 * u.width * u.height * u.depth == |u.pixels|
  {
    var st := r.state.value;
    var x, y := st.tomogram.size.x, st.tomogram.size.y;
    assert x * (y * Layers) == (x * y) * Layers;
  }

  /** Every texel read `46 xy + m`, `m < 32 xy`, is inside the cache exactly when the
      cache holds at least `78 xy` entries. */
  lemma AtlasReadsInBounds(cache: seq<int>, xy: nat)
    ensures (forall m :: 0 <= m < Layers * xy ==> Volumes.InCache(cache, FirstLayer * xy, m)) <==> 78 * xy <= |cache|
  {
    if xy > 0 && 78 * xy > |cache| {
      var m := Layers * xy - 1;
      assert !Volumes.InCache(cache, FirstLayer * xy, m);
    }
  }

  /** For a cache as long as the samples of an `x * y * z` volume with a non-empty slice,
      that means at least 78 layers. */
  lemma AtlasNeedsLayers(xy: int, z: int)
    requires xy > 0
    ensures 78 * xy <= xy * z <==> z >= 78
  {
    if z >= 78 {
      MulMonotone(xy, 78, z);
    } else {
      MulMonotone(xy, z, 77);
    }
  }

  /** With every read in bounds, colour channel `j < 3` of texel `m` is the cache value at
      `46 xy + m`, and the alpha channel is 128. */
  lemma AtlasTexel(cache: seq<int>, xy: nat, m: int, j: int)
    requires 78 * xy <= |cache|
    requires 0 <= m < Layers * xy && 0 <= j < 4
    ensures 4 * m + j < |Atlas(cache, xy)|
    ensures Atlas(cache, xy)[4 * m + j] == if j == 3 then 128 else cache[FirstLayer * xy + m] % 0x100
  {
    Volumes.RgbaAt(cache, Layers * xy, FirstLayer * xy, Some(128), m, j);
  }

  /** After switching to another tomogram under the same window, the gate stays shut:
      `updateCache` runs, but the new samples are never windowed, and the cache keeps the
      previous tomogram's colours (or is all zeros when the sample count changed). */
  lemma SwapKeepsStaleCache(r: Renderer, t: Tomogram, config: Base2D.Config)
    requires r.state.Some? && r.state.value.tomogram.id != t.id
    requires !Volumes.GateOpen(r.buffers.seen, r.state.value.config + config)
    requires Configure(r, t, config).Ok?
    ensures var old_ := r.state.value;
            var out := Configure(r, t, config).value;
            && out.refreshes == r.refreshes + 1
            && out.state.value.tomogram == t
            && out.state.value.cache == (if |old_.cache| == |t.data| then old_.cache else Zeros(|t.data|))
  {
    var step := Base2D.Configure(r.state, t, config, Triggers);
    assert step.state.config == r.state.value.config + config;
  }
}
