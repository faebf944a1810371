/** The single-texture strategy (`TextureRenderer`): a fixed quad covering the slice, and
    a byte texture built from the selected layer of the cache. Its `updateCache` carries
    a private gate: the transfer re-runs only when `transferFunctionMax` differs from the
    value it remembers. */
module Texture {
  import opened Js
  import opened Tomograms
  import Base2D
  import Transfer
  import opened Arith
  import Slabs

  /** The configuration properties whose change re-runs `updateCache`. */
  const Triggers: set<Base2D.Key> := {Base2D.TransferFunctionMax, Base2D.Layer}

  /** A `texImage2D` call: the declared width and height, and the bytes handed over. */
  datatype Upload = Upload(width: int, height: int, pixels: seq<int>)

  /** The instance's private state: the remembered `transferFunctionMax` (`undefined` at
      first) and the last texture uploaded. */
  datatype Private = Private(max: Value, texture: Option<Upload>)

  /** What `render` uploads: six 2D vertices, their texture coordinates, and the vertex
      count given to `drawArrays`. */
  datatype Frame = Frame(vertices: seq<int>, texcoords: seq<int>, count: int)

  type Renderer = Base2D.Renderer<Private>

  function Init(): (r: Renderer)
    ensures r.state.None? && r.buffers == Private(Undefined, None)
  {
    Base2D.Initial(Private(Undefined, None))
  }

  /** The byte texture `texBuffer` of `3 * size` entries: for every `i = 0, 4, 8, ...`
      below `size`, entries `i, i + 1, i + 2` receive the cache value at `offset + i / 4`;
      every other entry stays 0. */
  function TexBuffer(cache: seq<int>, size: nat, offset: Number): (t: seq<int>)
    ensures |t| == 3 * size
    ensures forall k :: 0 <= k < |t| ==> 0 <= t[k] < 0x100
  {
    seq(3 * size, k =>
      if k % 4 < 3 && k - k % 4 < size then ToUint8(ToNumber(At(cache, Add(offset, Int(k / 4))))) else 0)
  }

  /** The fill loop as written (`i += 4, offset++`), including the `Uint8Array`
      allocation, which throws for a negative `3 * size`. */
  method FillTexBuffer(cache: seq<int>, size: int, offset0: Number) returns (r: Result<seq<int>>)
    ensures r.Ok? <==> size >= 0
    ensures r.Err? ==> r.error == RangeError
    ensures r.Ok? ==> r.value == TexBuffer(cache, size, offset0)
  {
    if 3 * size < 0 {
      return Err(RangeError);
    }
    var buf := Zeros(3 * size);
    var i, offset := 0, offset0;
    ghost var n := 0;
    while i < size
      invariant 0 <= i == 4 * n
      invariant i <= size + 3
      invariant offset == Add(offset0, Int(n))
      invariant |buf| == 3 * size
      invariant forall k :: 0 <= k < i && k < |buf| ==> buf[k] == TexBuffer(cache, size, offset0)[k]
      invariant forall k :: i <= k < |buf| ==> buf[k] == 0
    {
      var c := ToUint8(ToNumber(At(cache, offset)));
      FillStep(cache, size, offset0, n, buf, c);
      buf := buf[i := c][i + 1 := c][i + 2 := c];
      i, offset, n := i + 4, Add(offset, Int(1)), n + 1;
    }
    TexBufferTail(cache, size, offset0, n);
    return Ok(buf);
  }

  /** `updateCache`: when the configured `transferFunctionMax` differs from the remembered
      one, the transfer runs with the window `[0, transferFunctionMax]` and the new value
      is remembered; either way the layer's texture is rebuilt and uploaded, declared as
      one texel by one. */
  function UpdateCache(st: Base2D.State, p: Private): (r: Result<(seq<int>, Private)>)
    ensures var size := st.tomogram.size.x * st.tomogram.size.y;
            var max := Base2D.Get(st.config, Base2D.TransferFunctionMax);
            var cache := if p.max != max then Transfer.Fill(st.tomogram.data, st.cache, Int(0), ToNumber(max)) else st.cache;
            && (r.Ok? <==> size >= 0)
            && (r.Err? ==> r.error == RangeError)
            && (r.Ok? ==> r.value.0 == cache && r.value.1.max == max)
            && (r.Ok? ==> r.value.1.texture == Some(Upload(1, 1, TexBuffer(cache, size, LayerOffset(st)))))
  {
    var max := Base2D.Get(st.config, Base2D.TransferFunctionMax);
    var cache := if p.max != max then Transfer.Fill(st.tomogram.data, st.cache, Int(0), ToNumber(max)) else st.cache;
    var size := st.tomogram.size.x * st.tomogram.size.y;
    if size < 0 then Err(RangeError)
    else Ok((cache, Private(max, Some(Upload(1, 1, TexBuffer(cache, size, Mul(ToNumber(Base2D.Get(st.config, Base2D.Layer)), Int(size))))))))
  }

  /** The offset of the selected layer, `layer * sizeX * sizeY`. */
  function LayerOffset(st: Base2D.State): (n: Number)
    ensures n.Int? <==> Base2D.Layer in st.config
    ensures n.Int? ==> n.i == st.config[Base2D.Layer] * (st.tomogram.size.x * st.tomogram.size.y)
  {
    Mul(ToNumber(Base2D.Get(st.config, Base2D.Layer)), Int(st.tomogram.size.x * st.tomogram.size.y))
  }

  /** `render`: the unit quad stretched to the slice size, with the unit quad as texture
      coordinates; the private state is left alone. */
  function Draw(st: Base2D.State, p: Private): (r: (Frame, Private))
    ensures r.1 == p
    ensures |r.0.vertices| == |r.0.texcoords| == 2 * r.0.count == 12
    ensures forall k :: 0 <= k < 12 ==>
              r.0.texcoords[k] == Slabs.UnitQuad[k]
              && r.0.vertices[k] == Slabs.UnitQuad[k] * (if k % 2 == 0 then st.tomogram.size.x else st.tomogram.size.y)
  {
    var x, y := st.tomogram.size.x, st.tomogram.size.y;
    (Frame([0, 0, x, 0, 0, y, 0, y, x, 0, x, y], Slabs.UnitQuad, 6), p)
  }

  function Configure(r: Renderer, t: Tomogram, config: Base2D.Config): Result<Renderer>
  {
    Base2D.ConfigureWith(r, t, config, Triggers, UpdateCache)
  }

  function Render(r: Renderer): Result<(Frame, Renderer)>
  {
    Base2D.RenderWith(r, Draw)
  }

  /** Every entry the loop writes, `4 q + j` for `4 q < size` and `j < 3`, is inside the
      `3 * size` buffer, and holds the cache value at `offset + q`. */
  lemma TexBufferWrites(cache: seq<int>, size: nat, offset: Number, q: int, j: int)
    requires 0 <= 4 * q < size && 0 <= j < 3
    ensures 4 * q + j < |TexBuffer(cache, size, offset)|
    ensures TexBuffer(cache, size, offset)[4 * q + j] == ToUint8(ToNumber(At(cache, Add(offset, Int(q)))))
  {
    DivModUnique(4 * q + j, 4, q, j);
  }

  /** One pass of the fill loop: writing group `q`'s three bytes into a buffer that agrees
      with `TexBuffer` below `4 q` and is zero from there on extends the agreement to
      `4 q + 4`. */
  lemma FillStep(cache: seq<int>, size: nat, offset: Number, q: nat, buf: seq<int>, c: int)
    requires 4 * q < size && |buf| == 3 * size
    requires forall k :: 0 <= k < 4 * q && k < |buf| ==> buf[k] == TexBuffer(cache, size, offset)[k]
    requires forall k :: 4 * q <= k < |buf| ==> buf[k] == 0
    requires c == ToUint8(ToNumber(At(cache, Add(offset, Int(q)))))
    ensures 4 * q + 2 < |buf|
    ensures var b := buf[4 * q := c][4 * q + 1 := c][4 * q + 2 := c];
            && (forall k :: 0 <= k < 4 * q + 4 && k < |b| ==> b[k] == TexBuffer(cache, size, offset)[k])
            && (forall k :: 4 * q + 4 <= k < |b| ==> b[k] == 0)
  {
    TexBufferWrites(cache, size, offset, q, 0);
    TexBufferWrites(cache, size, offset, q, 1);
    TexBufferWrites(cache, size, offset, q, 2);
    TexBufferGap(cache, size, offset, q);
  }

  /** The fourth entry of every group of four is never written. */
  lemma TexBufferGap(cache: seq<int>, size: nat, offset: Number, q: int)
    requires 0 <= q
    ensures 4 * q + 3 < 3 * size ==> TexBuffer(cache, size, offset)[4 * q + 3] == 0
  {
    DivModUnique(4 * q + 3, 4, q, 3);
  }

  /** Past the last group the loop visits, the buffer is all zeros. */
  lemma TexBufferTail(cache: seq<int>, size: nat, offset: Number, q: int)
    requires size <= 4 * q
    ensures forall k :: 4 * q <= k < 3 * size ==> TexBuffer(cache, size, offset)[k] == 0
  {
    forall k | 4 * q <= k < 3 * size
      ensures TexBuffer(cache, size, offset)[k] == 0
    {
      DivModUnique(k, 4, k / 4, k % 4);
      DivMonotone(4 * q, k, 4);
      DivModUnique(4 * q, 4, q, 0);
    }
  }

  /** A renderer whose configuration never carried `transferFunctionMax`: the gate has
      never opened, so the cache is still the zeroed one `configure` allocated. */
  ghost predicate Dormant(r: Renderer)
  {
    && r.buffers.max == Undefined
    && (r.state.Some? ==>
          && Base2D.TransferFunctionMax !in r.state.value.config
          && forall k :: 0 <= k < |r.state.value.cache| ==> r.state.value.cache[k] == 0)
    && (r.buffers.texture.Some? ==>
          forall k :: 0 <= k < |r.buffers.texture.value.pixels| ==> r.buffers.texture.value.pixels[k] == 0)
  }

  /** As long as no configuration names `transferFunctionMax` (the viewer's configuration
      has no such property), `configure` keeps the renderer dormant: the transfer never
      runs, and every uploaded texel is 0. */
  lemma ConfigureKeepsDormant(r: Renderer, t: Tomogram, config: Base2D.Config)
    requires Dormant(r)
    requires Base2D.TransferFunctionMax !in config
    requires Configure(r, t, config).Ok?
    ensures Dormant(Configure(r, t, config).value)
  {
    var step := Base2D.Configure(r.state, t, config, Triggers);
    assert Base2D.TransferFunctionMax !in step.state.config by {
      assert Base2D.Get(step.state.config, Base2D.TransferFunctionMax) == Undefined;
    }
    var out := Configure(r, t, config).value;
    if step.refresh {
      assert UpdateCache(step.state, r.buffers).Ok?;
      var size := step.state.tomogram.size.x * step.state.tomogram.size.y;
      var tex := TexBuffer(step.state.cache, size, LayerOffset(step.state));
      assert out.buffers.texture == Some(Upload(1, 1, tex));
      forall k | 0 <= k < |tex| ensures tex[k] == 0 {
        var v := At(step.state.cache, Add(LayerOffset(step.state), Int(k / 4)));
        assert v.Num? ==> v.n == 0;
      }
    }
  }
}
