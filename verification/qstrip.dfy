/** The triangle-strip strategy (`QuadStripRenderer`): four vertices per cell of the
    selected layer in strip order, drawn without an index buffer. Its source builds on
    a `BaseRenderer` that is not part of this model; it is modelled on `Base2D`. */
module QuadStrip {
  import opened Js
  import opened Tomograms
  import Base2D
  import Transfer
  import Mesh

  /** The configuration properties whose change re-runs `updateCache`. */
  const Triggers: set<Base2D.Key> := {Base2D.TransferFunctionMin, Base2D.TransferFunctionWidth}

  /** The quad count the buffers were sized for (`undefined` at first), and the vertex
      and colour arrays. */
  datatype Buffers = Buffers(quads: Value, vertices: seq<int>, colors: seq<int>)

  /** What `drawQuadStrip` uploads, and the vertex count it passes to `drawArrays`. */
  datatype Frame = Frame(vertices: seq<int>, colors: seq<int>, count: int)

  type Renderer = Base2D.Renderer<Buffers>

  function Init(): (r: Renderer)
    ensures r.state.None? && r.buffers.quads.Undefined?
    ensures Sized(r)
  {
    Base2D.Initial(Buffers(Undefined, [], []))
  }

  /** `updateCache`: the transfer always re-runs with the window `[min, min + width]`;
      the vertex and colour arrays are reallocated (zeroed) to `8 q` and `4 q` entries,
      `q = x * y`, only when `q` differs from the count they were sized for. */
  function UpdateCache(st: Base2D.State, b: Buffers): (r: Result<(seq<int>, Buffers)>)
    ensures var q := st.tomogram.size.x * st.tomogram.size.y;
            && (r.Ok? <==> b.quads == Num(q) || q >= 0)
            && (r.Err? ==> r.error == RangeError)
            && (r.Ok? ==> r.value.0 == Transfer.Fill(st.tomogram.data, st.cache,
                                                      Base2D.MinWidthWindow(st.config).0,
                                                      Base2D.MinWidthWindow(st.config).1))
            && (b.quads == Num(q) ==> r.Ok? && r.value.1 == b)
            && (b.quads != Num(q) && q >= 0 ==>
                  r.Ok? && r.value.1 == Buffers(Num(q), Zeros(8 * q), Zeros(4 * q)))
  {
    var w := Base2D.MinWidthWindow(st.config);
    var cache := Transfer.Fill(st.tomogram.data, st.cache, w.0, w.1);
    var q := st.tomogram.size.x * st.tomogram.size.y;
    if b.quads == Num(q) then
      Ok((cache, b))
    else if q < 0 then
      Err(RangeError)  // `new Float32Array(q * 8)` with a negative length
    else
      Ok((cache, Buffers(Num(q), Zeros(q * 8), Zeros(q * 4))))
  }

  /** `render`: strip-ordered vertices and colours written into the private buffers,
      which are then uploaded; `drawArrays` is given the length of the vertex array. */
  function Draw(st: Base2D.State, b: Buffers): (r: (Frame, Buffers))
    ensures r.0.vertices == r.1.vertices && r.0.colors == r.1.colors
    ensures r.0.count == |b.vertices|
    ensures r.1.quads == b.quads && |r.1.vertices| == |b.vertices| && |r.1.colors| == |b.colors|
  {
    var sx, sy := st.tomogram.size.x, st.tomogram.size.y;
    var vertices := Write(b.vertices, Mesh.Vertices(Mesh.StripOrder, sx, sy));
    var colors := Write(b.colors, Mesh.ByteColors(Mesh.StripOrder, sx, sy, sx, Base2D.LayerOffset(st), st.cache));
    (Frame(vertices, colors, |vertices|), Buffers(b.quads, vertices, colors))
  }

  function Configure(r: Renderer, t: Tomogram, config: Base2D.Config): Result<Renderer>
  {
    Base2D.ConfigureWith(r, t, config, Triggers, UpdateCache)
  }

  function Render(r: Renderer): Result<(Frame, Renderer)>
  {
    Base2D.RenderWith(r, Draw)
  }

  /** The buffers are sized for the configured tomogram, and not allocated before the
      first `configure`. */
  ghost predicate Sized(r: Renderer)
  {
    && (r.state.None? ==> r.buffers.quads.Undefined?)
    && (r.state.Some? ==>
          var q := r.state.value.tomogram.size.x * r.state.value.tomogram.size.y;
          r.buffers.quads == Num(q) && |r.buffers.vertices| == 8 * q && |r.buffers.colors| == 4 * q)
  }

  /** Every successful `configure` leaves the buffers sized for the tomogram it holds. */
  lemma ConfigureKeepsSized(r: Renderer, t: Tomogram, config: Base2D.Config)
    requires Sized(r)
    requires Configure(r, t, config).Ok?
    ensures Sized(Configure(r, t, config).value)
  {
    var step := Base2D.Configure(r.state, t, config, Triggers);
    if step.refresh {
      var q := step.state.tomogram.size.x * step.state.tomogram.size.y;
      if r.buffers.quads != Num(q) {
        assert UpdateCache(step.state, r.buffers).value.1 == Buffers(Num(q), Zeros(8 * q), Zeros(4 * q));
      }
    }
  }

  /** Once configured with a tomogram of non-negative size, `render` uploads exactly the
      strip layout of `q = x * y` quads, and asks `drawArrays` for `8 q` vertices: the
      number of coordinates, twice the `4 q` vertices the buffer holds. */
  lemma RenderUploadsLayout(r: Renderer)
    requires Sized(r) && r.state.Some?
    requires r.state.value.tomogram.size.x >= 0 && r.state.value.tomogram.size.y >= 0
    ensures var st := r.state.value;
            var sx, sy := st.tomogram.size.x, st.tomogram.size.y;
            && Render(r).Ok?
            && Render(r).value.0.vertices == Mesh.Vertices(Mesh.StripOrder, sx, sy)
            && Render(r).value.0.colors == Mesh.ByteColors(Mesh.StripOrder, sx, sy, sx, Base2D.LayerOffset(st), st.cache)
            && Render(r).value.0.count == 2 * (4 * sx * sy)
  {
    var st := r.state.value;
    assert Mesh.QuadCount(st.tomogram.size.x, st.tomogram.size.y) == st.tomogram.size.x * st.tomogram.size.y;
  }
}
