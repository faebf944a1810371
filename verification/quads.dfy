/** The quads strategy (`QuadsRenderer`): one independent quad of four vertices and six
    indices per cell of the selected layer, with a colour per vertex read from the cache. */
module Quads {
  import opened Js
  import opened Tomograms
  import Base2D
  import Transfer
  import Mesh

  /** The configuration properties whose change re-runs `updateCache`. */
  const Triggers: set<Base2D.Key> := {Base2D.TransferFunctionMin, Base2D.TransferFunctionWidth}

  /** The strategy's private buffers: the quad count they were sized for (`undefined`
      before the first `updateCache`) and the vertex, index and colour arrays. */
  datatype Buffers = Buffers(quads: Value, vertices: seq<int>, indices: seq<int>, colors: seq<int>)

  /** What `drawQuads` uploads. */
  datatype Frame = Frame(vertices: seq<int>, indices: seq<int>, colors: seq<int>)

  type Renderer = Base2D.Renderer<Buffers>

  /** A renderer fresh from its initializer: nothing allocated yet. */
  function Init(): (r: Renderer)
    ensures r.state.None? && r.buffers.quads.Undefined?
    ensures Sized(r)
  {
    Base2D.Initial(Buffers(Undefined, [], [], []))
  }

  /** `updateCache`: the transfer always re-runs with the window `[min, min + width]`;
      the three buffers are reallocated (zeroed) to `8 q`, `6 q` and `4 q` entries,
      `q = x * y`, only when `q` differs from the count they were sized for. */
  function UpdateCache(st: Base2D.State, b: Buffers): (r: Result<(seq<int>, Buffers)>)
    ensures var q := st.tomogram.size.x * st.tomogram.size.y;
            && (r.Ok? <==> b.quads == Num(q) || q >= 0)
            && (r.Err? ==> r.error == RangeError)
            && (r.Ok? ==> r.value.0 == Transfer.Fill(st.tomogram.data, st.cache,
                                                      Base2D.MinWidthWindow(st.config).0,
                                                      Base2D.MinWidthWindow(st.config).1))
            && (b.quads == Num(q) ==> r.Ok? && r.value.1 == b)
            && (b.quads != Num(q) && q >= 0 ==>
                  r.Ok? && r.value.1 == Buffers(Num(q), Zeros(8 * q), Zeros(6 * q), Zeros(4 * q)))
  {
    var w := Base2D.MinWidthWindow(st.config);
    var cache := Transfer.Fill(st.tomogram.data, st.cache, w.0, w.1);
    var q := st.tomogram.size.x * st.tomogram.size.y;
    if b.quads == Num(q) then
      Ok((cache, b))
    else if q < 0 then
      Err(RangeError)  // `new Float32Array(q * 8)` with a negative length
    else
      Ok((cache, Buffers(Num(q), Zeros(q * 8), Zeros(q * 6), Zeros(q * 4))))
  }

  /** The geometry and colours `render` writes for the configured tomogram and layer. */
  function Layout(st: Base2D.State): (f: Frame)
    ensures var n := Mesh.QuadCount(st.tomogram.size.x, st.tomogram.size.y);
            |f.vertices| == 8 * n && |f.indices| == 6 * n && |f.colors| == 4 * n
  {
    var sx, sy := st.tomogram.size.x, st.tomogram.size.y;
    Frame(Mesh.Vertices(Mesh.TrianglesOrder, sx, sy),
          Mesh.Indices(sx, sy),
          Mesh.ByteColors(Mesh.TrianglesOrder, sx, sy, sx, Base2D.LayerOffset(st), st.cache))
  }

  /** `render`: the layout is written into the private buffers, which are then uploaded. */
  function Draw(st: Base2D.State, b: Buffers): (r: (Frame, Buffers))
    ensures r.0.vertices == r.1.vertices && r.0.indices == r.1.indices && r.0.colors == r.1.colors
    ensures r.1.quads == b.quads
    ensures |r.1.vertices| == |b.vertices| && |r.1.indices| == |b.indices| && |r.1.colors| == |b.colors|
  {
    var f := Layout(st);
    var nb := Buffers(b.quads, Write(b.vertices, f.vertices), Write(b.indices, f.indices), Write(b.colors, f.colors));
    (Frame(nb.vertices, nb.indices, nb.colors), nb)
  }

  function Configure(r: Renderer, t: Tomogram, config: Base2D.Config): Result<Renderer>
  {
    Base2D.ConfigureWith(r, t, config, Triggers, UpdateCache)
  }

  function Render(r: Renderer): Result<(Frame, Renderer)>
  {
    Base2D.RenderWith(r, Draw)
  }

  /** The buffers are sized for the configured tomogram (`q = x * y` quads), and not
      allocated before the first `configure`. */
  ghost predicate Sized(r: Renderer)
  {
    && (r.state.None? ==> r.buffers.quads.Undefined?)
    && (r.state.Some? ==>
          var q := r.state.value.tomogram.size.x * r.state.value.tomogram.size.y;
          && r.buffers.quads == Num(q)
          && |r.buffers.vertices| == 8 * q && |r.buffers.indices| == 6 * q && |r.buffers.colors| == 4 * q)
  }

  /** Every successful `configure` leaves the buffers sized for the tomogram it holds. */
  lemma ConfigureKeepsSized(r: Renderer, t: Tomogram, config: Base2D.Config)
    requires Sized(r)
    requires Configure(r, t, config).Ok?
    ensures Sized(Configure(r, t, config).value)
    ensures Configure(r, t, config).value.state.value.tomogram.id == t.id
  {
    var step := Base2D.Configure(r.state, t, config, Triggers);
    if step.refresh {
      var u := UpdateCache(step.state, r.buffers);
      assert u.Ok?;
      var q := step.state.tomogram.size.x * step.state.tomogram.size.y;
      if r.buffers.quads != Num(q) {
        assert u.value.1 == Buffers(Num(q), Zeros(8 * q), Zeros(6 * q), Zeros(4 * q));
      }
    }
  }

  /** Once configured with a tomogram of non-negative size, `render` writes every entry
      of the buffers: what it uploads is exactly the layout of `q = x * y` quads. */
  lemma RenderUploadsLayout(r: Renderer)
    requires Sized(r) && r.state.Some?
    requires r.state.value.tomogram.size.x >= 0 && r.state.value.tomogram.size.y >= 0
    ensures Render(r).Ok?
    ensures Render(r).value.0 == Layout(r.state.value)
    ensures Render(r).value.1.buffers.quads == r.buffers.quads
  {
    var st := r.state.value;
    assert Mesh.QuadCount(st.tomogram.size.x, st.tomogram.size.y) == st.tomogram.size.x * st.tomogram.size.y;
  }

  /** A change of the layer alone, on the same tomogram, does not re-run `updateCache`:
      the cache and the buffers stay, and only the snapshot's layer moves. */
  lemma LayerChangeKeepsCache(r: Renderer, layer: int)
    requires r.state.Some?
    ensures var st := r.state.value;
            Configure(r, st.tomogram, st.config[Base2D.Layer := layer])
            == Ok(r.(state := Some(st.(config := st.config[Base2D.Layer := layer]))))
  {
    var st := r.state.value;
    var c := st.config[Base2D.Layer := layer];
    assert !Base2D.TriggerChanged(st.config, c, Triggers);
    assert st.config + c == c;
  }

  /** For the last column and row, the corner `(x + 1, y + 1)` reads the cache at
      `offset + sizeX * sizeY + sizeX`: past the end of the selected layer. */
  lemma LastQuadReadsPastLayer(st: Base2D.State)
    requires st.tomogram.size.x >= 1 && st.tomogram.size.y >= 1
    requires Base2D.Layer in st.config
    ensures var sx, sy := st.tomogram.size.x, st.tomogram.size.y;
            var idx := (sx - 1) * sy + (sy - 1);
            var ix := Mesh.CornerIndices(Mesh.TrianglesOrder, sx, sy, sx, Base2D.LayerOffset(st));
            && 4 * idx + 2 < |ix|
            && ix[4 * idx + 2] == Int(Base2D.LayerOffset(st).i + sx * sy + sx)
  {
    var sx, sy := st.tomogram.size.x, st.tomogram.size.y;
    Mesh.CornerIndicesOfCell(Mesh.TrianglesOrder, sx, sy, sx, Base2D.LayerOffset(st), sx - 1, sy - 1, 2);
    assert (sx - 1 + 1) + (sy - 1 + 1) * sx == sx * sy + sx;
  }
}
