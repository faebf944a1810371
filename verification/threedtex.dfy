/** The 3D-texture strategy (`ThreeDTextureRenderer`): one slab per layer of the volume,
    textured from an RGBA 3D texture holding the whole cache. The vertex and
    texture-coordinate arrays are rebuilt only when the vertex count `6 z` changes. */
module ThreeDTexture {
  import opened Js
  import opened Tomograms
  import Base2D
  import Slabs
  import Volumes

  /** The configuration properties whose change re-runs `updateCache`. */
  const Triggers: set<Base2D.Key> := {Base2D.TransferFunctionMin, Base2D.TransferFunctionWidth}

  /** The instance's private state: the remembered window, the vertex count and the vertex
      and texture-coordinate arrays (all `undefined` until built), the texel array, the
      number of texel arrays allocated so far, and the last texture uploaded. */
  datatype Private = Private(seen: Volumes.Seen, verticesCount: Value,
                             vertices: Option<seq<Slabs.Component>>, texcoords: Option<seq<Slabs.Component>>,
                             texels: Option<seq<int>>, allocations: nat, upload: Option<Volumes.Upload>)

  /** What `render` uploads and the vertex count it draws. */
  datatype Frame = Frame(vertices: Option<seq<Slabs.Component>>, texcoords: Option<seq<Slabs.Component>>, count: Value)

  type Renderer = Base2D.Renderer<Private>

  /** The private state an initializer creates. */
  function Fresh(): Private
  {
    Private(Volumes.Seen(Undefined, Undefined), Undefined, None, None, None, 0, None)
  }

  function Init(): (r: Renderer)
    ensures r.state.None? && r.buffers.verticesCount.Undefined?
  {
    Base2D.Initial(Fresh())
  }

  /** The texels of an `n`-sample volume: texel `k` repeats the cache value at `k` in all
      four channels. */
  function VolumeTexels(cache: seq<int>, n: nat): (t: seq<int>)
    ensures |t| == 4 * n
  {
    Volumes.Rgba(cache, n, 0, None)
  }

  /** `updateCache`: the gated transfer; the slab arrays rebuilt (with one slab per layer)
      only when `6 z` differs from the stored vertex count, a negative count making the
      allocation throw; the texel array kept or reallocated by length and filled; and
      the upload of an `x` by `y` by `z` texture. */
  function UpdateCache(st: Base2D.State, p: Private): (r: Result<(seq<int>, Private)>)
    ensures var sz := st.tomogram.size;
            var n := sz.x * sz.y * sz.z;
            var g := Volumes.GatedTransfer(p.seen, st);
            var rebuild := p.verticesCount != Num(6 * sz.z);
            && (r.Ok? <==> (!rebuild || sz.z >= 0) && n >= 0)
            && (r.Err? ==> r.error == RangeError)
            && (r.Ok? ==>
                  && n >= 0
                  && r.value.0 == g.0
                  && r.value.1.seen == g.1
                  && r.value.1.verticesCount == Num(6 * sz.z)
                  && (rebuild ==> r.value.1.vertices == Some(Slabs.Slab(sz.z)) && r.value.1.texcoords == Some(Slabs.Slab(sz.z)))
                  && (!rebuild ==> r.value.1.vertices == p.vertices && r.value.1.texcoords == p.texcoords)
                  && r.value.1.texels == Some(VolumeTexels(g.0, n))
                  && r.value.1.upload == Some(Volumes.Upload(sz.x, sz.y, sz.z, VolumeTexels(g.0, n)))
                  && (r.value.1.allocations == p.allocations <==> p.texels.Some? && |p.texels.value| == 4 * n))
  {
    var g := Volumes.GatedTransfer(p.seen, st);
    var sz := st.tomogram.size;
    var count := sz.z * 6;
    var slabs: Result<(Option<seq<Slabs.Component>>, Option<seq<Slabs.Component>>)> :=
      if p.verticesCount == Num(count) then Ok((p.vertices, p.texcoords))
      else if count * 3 < 0 then Err(RangeError)
      else Ok((Some(Slabs.Slab(sz.z)), Some(Slabs.Slab(sz.z))));
    var arrays :- slabs;
    var size := sz.x * sz.y * sz.z;
    var buf :- Volumes.Reuse(p.texels, size * 4);
    var pixels := Volumes.Rgba(g.0, size, 0, None);
    Ok((g.0, Private(g.1, Num(count), arrays.0, arrays.1, Some(pixels), p.allocations + (if buf.1 then 1 else 0),
                     Some(Volumes.Upload(sz.x, sz.y, sz.z, pixels)))))
  }

  /** `render`: the slab arrays and the stored vertex count; the private state is left alone.
      When the arrays hold the slabs of the volume's `z` layers and the count is `6 z`, the
      count is exactly the number of three-component vertices. */
  function Draw(st: Base2D.State, p: Private): (r: (Frame, Private))
    ensures r.1 == p
    ensures r.0.vertices == p.vertices && r.0.texcoords == p.texcoords && r.0.count == p.verticesCount
    ensures var z := st.tomogram.size.z;
            z >= 0 && p.vertices == Some(Slabs.Slab(z)) && p.verticesCount == Num(6 * z) ==>
              r.0.vertices.Some? && r.0.count.Num? && 3 * r.0.count.n == |r.0.vertices.value|
  {
    (Frame(p.vertices, p.texcoords, p.verticesCount), p)
  }

  function Configure(r: Renderer, t: Tomogram, config: Base2D.Config): Result<Renderer>
  {
    Base2D.ConfigureWith(r, t, config, Triggers, UpdateCache)
  }

  function Render(r: Renderer): Result<(Frame, Renderer)>
  {
    Base2D.RenderWith(r, Draw)
  }

  /** The private state agrees with the renderer state: once configured, there is one
      slab per layer, the vertex count is `6 z`, and the uploaded texture is the current
      cache at the volume's extent. */
  ghost predicate Consistent(r: Renderer)
  {
    && (r.state.None? ==> r.buffers == Fresh())
    && (r.state.Some? ==>
          var sz := r.state.value.tomogram.size;
          var n := sz.x * sz.y * sz.z;
          && sz.z >= 0 && n >= 0
          && r.buffers.verticesCount == Num(6 * sz.z)
          && r.buffers.vertices == Some(Slabs.Slab(sz.z))
          && r.buffers.texcoords == Some(Slabs.Slab(sz.z))
          && r.buffers.texels == Some(VolumeTexels(r.state.value.cache, n))
          && r.buffers.upload == Some(Volumes.Upload(sz.x, sz.y, sz.z, VolumeTexels(r.state.value.cache, n))))
  }

  /** Every successful `configure` keeps the private state consistent. */
  lemma ConfigureKeepsConsistent(r: Renderer, t: Tomogram, config: Base2D.Config)
    requires Consistent(r)
    requires Configure(r, t, config).Ok?
    ensures Consistent(Configure(r, t, config).value)
  {
    var step := Base2D.Configure(r.state, t, config, Triggers);
    if step.refresh {
      var sz := step.state.tomogram.size;
      var u := UpdateCache(step.state, r.buffers);
      assert u.Ok?;
      if r.buffers.verticesCount == Num(6 * sz.z) {
        assert r.state.Some?;
        assert 6 * r.state.value.tomogram.size.z == 6 * sz.z;
      }
    }
  }

  /** Once configured, `render` draws `6 z` vertices: `z` unit-quad slabs in arrays of
      three components per vertex. */
  lemma RenderDrawsSlabs(r: Renderer)
    requires Consistent(r) && r.state.Some?
    ensures var z := r.state.value.tomogram.size.z;
            && Render(r).Ok?
            && Render(r).value.0.vertices == Some(Slabs.Slab(z))
            && Render(r).value.0.texcoords == Some(Slabs.Slab(z))
            && Render(r).value.0.count == Num(6 * z)
            && 3 * (6 * z) == |Slabs.Slab(z)|
  {
  }

  /** The uploaded extent matches the texel array: `4 * x * y * z` bytes. */
  lemma UploadExtent(r: Renderer)
    requires Consistent(r) && r.state.Some?
    ensures var u := r.buffers.upload.value; 4 * u.width * u.height * u.depth == |u.pixels|
  {
  }

  /** For a cache holding at least the volume's `n` samples, all four channels of texel
      `k` hold cache entry `k` as a byte. */
  lemma VolumeTexel(cache: seq<int>, n: nat, k: int, j: int)
    requires n <= |cache|
    requires 0 <= k < n && 0 <= j < 4
    ensures 4 * k + j < |VolumeTexels(cache, n)|
    ensures VolumeTexels(cache, n)[4 * k + j] == cache[k] % 0x100
  {
    Volumes.RgbaAt(cache, n, 0, None, k, j);
  }
}
