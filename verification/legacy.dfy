/** The original quad path (`drawQuads` of the first renderer): fresh buffers sized for
    `sizeX * sizeY` quads, of which the loops `x < sizeX - 1`, `y < sizeY - 1` fill
    `(sizeX - 1) * (sizeY - 1)`, with floating-point colours read straight from the
    cache. */
module Legacy {
  import opened Js
  import opened Arith
  import opened Tomograms
  import Mesh

  /** The buffers handed to the draw call, before the clip-space and `/ 255`
      normalisation. A colour read outside the cache is `undefined`, which a
      `Float32Array` keeps as NaN. */
  datatype Frame = Frame(vertices: seq<int>, indices: seq<int>, colors: seq<Number>)

  /** The colour of every written corner: the cache at `(x + dx) + (y + dy) * sizeX + offset`. */
  function CornerColors(t: CachedTomogram, layer: int): (c: seq<Number>)
    ensures |c| == 4 * Mesh.QuadCount(t.size.x - 1, t.size.y - 1)
  {
    var ix := Mesh.CornerIndices(Mesh.TrianglesOrder, t.size.x - 1, t.size.y - 1, t.size.x,
                                 Int(layer * t.size.x * t.size.y));
    seq(|ix|, k requires 0 <= k < |ix| => ToNumber(At(t.cache, ix[k])))
  }

  /** `drawQuads(tomogram, layer)`: three zeroed typed arrays of `8 q`, `6 q` and `4 q`
      entries (`q = sizeX * sizeY`; a negative `q` throws), overwritten from the front
      by the quads the loops visit. */
  function DrawQuads(t: CachedTomogram, layer: int): (r: Result<Frame>)
    ensures var q := t.size.x * t.size.y;
            && (r.Ok? <==> q >= 0)
            && (r.Err? ==> r.error == RangeError)
            && (r.Ok? ==> |r.value.vertices| == 8 * q && |r.value.indices| == 6 * q && |r.value.colors| == 4 * q)
  {
    var q := t.size.x * t.size.y;
    if q < 0 then Err(RangeError)
    else
      var nx, ny := t.size.x - 1, t.size.y - 1;
      Ok(Frame(Write(Zeros(q * 8), Mesh.Vertices(Mesh.TrianglesOrder, nx, ny)),
               Write(Zeros(q * 6), Mesh.Indices(nx, ny)),
               Write(seq(q * 4, _ => Int(0)), CornerColors(t, layer))))
  }

  /** The quads the loops write fit in the buffers: `(sizeX - 1) * (sizeY - 1)` never
      exceeds `sizeX * sizeY` when the latter is non-negative. */
  lemma WrittenFit(sx: int, sy: int)
    requires sx * sy >= 0
    ensures Mesh.QuadCount(sx - 1, sy - 1) <= sx * sy
  {
    if sx >= 1 && sy >= 1 {
      MulMonotone(sx - 1, sy - 1, sy);
      MulMonotone(sy, sx - 1, sx);
    }
  }

  /** Every slot past the `(sizeX - 1) * (sizeY - 1)` quads written stays 0. */
  lemma UnwrittenSlotsZero(t: CachedTomogram, layer: int)
    requires DrawQuads(t, layer).Ok?
    ensures var f := DrawQuads(t, layer).value;
            var w := Mesh.QuadCount(t.size.x - 1, t.size.y - 1);
            && 8 * w <= |f.vertices| && 6 * w <= |f.indices| && 4 * w <= |f.colors|
            && (forall k :: 8 * w <= k < |f.vertices| ==> f.vertices[k] == 0)
            && (forall k :: 6 * w <= k < |f.indices| ==> f.indices[k] == 0)
            && (forall k :: 4 * w <= k < |f.colors| ==> f.colors[k] == Int(0))
  {
    WrittenFit(t.size.x, t.size.y);
  }

  /** Quad `(x, y)` is number `idx = x * (sizeY - 1) + y`, and its corners are (x,y),
      (x,y+1), (x+1,y+1), (x+1,y). */
  lemma LegacyVertex(t: CachedTomogram, layer: int, x: int, y: int, c: int)
    requires t.size.x * t.size.y >= 0
    requires 0 <= x < t.size.x - 1 && 0 <= y < t.size.y - 1 && 0 <= c < 4
    ensures var f := DrawQuads(t, layer).value;
            var idx := x * (t.size.y - 1) + y;
            && 8 * idx + 2 * c + 1 < |f.vertices|
            && f.vertices[8 * idx + 2 * c] == x + Mesh.TrianglesOrder[c].0
            && f.vertices[8 * idx + 2 * c + 1] == y + Mesh.TrianglesOrder[c].1
  {
    var nx, ny := t.size.x - 1, t.size.y - 1;
    var idx := x * ny + y;
    var v := Mesh.Vertices(Mesh.TrianglesOrder, nx, ny);
    Mesh.VerticesOfCell(Mesh.TrianglesOrder, nx, ny, x, y, c);
    var k := 8 * idx + 2 * c;
    assert k + 1 < 8 * Mesh.QuadCount(nx, ny);
    VertexAt(t, layer, k);
    VertexAt(t, layer, k + 1);
  }

  /** Vertex component `k` of the frame is component `k` of the written quads. */
  lemma VertexAt(t: CachedTomogram, layer: int, k: int)
    requires t.size.x * t.size.y >= 0
    requires 0 <= k < 8 * Mesh.QuadCount(t.size.x - 1, t.size.y - 1)
    ensures k < |DrawQuads(t, layer).value.vertices|
    ensures DrawQuads(t, layer).value.vertices[k] == Mesh.Vertices(Mesh.TrianglesOrder, t.size.x - 1, t.size.y - 1)[k]
  {
    WrittenFit(t.size.x, t.size.y);
  }

  /** The indices of quad `idx` are `4 idx + 3, 4 idx + 2, 4 idx + 1, 4 idx + 3, 4 idx + 1,
      4 idx`, as long as the vertex count fits a `Uint32Array`. */
  lemma LegacyIndex(t: CachedTomogram, layer: int, idx: int, j: int)
    requires t.size.x * t.size.y >= 0
    requires 4 * (t.size.x * t.size.y) <= 0x1_0000_0000
    requires 0 <= idx < Mesh.QuadCount(t.size.x - 1, t.size.y - 1) && 0 <= j < 6
    ensures var f := DrawQuads(t, layer).value;
            && 6 * idx + j < |f.indices|
            && f.indices[6 * idx + j] == 4 * idx + Mesh.IndexPattern[j]
  {
    WrittenFit(t.size.x, t.size.y);
    Mesh.IndicesOfQuad(t.size.x - 1, t.size.y - 1, idx, j);
  }

  /** Colour entry `k` of the frame is the colour of written corner `k`. */
  lemma ColorAt(t: CachedTomogram, layer: int, k: int)
    requires t.size.x * t.size.y >= 0
    requires 0 <= k < 4 * Mesh.QuadCount(t.size.x - 1, t.size.y - 1)
    ensures k < |DrawQuads(t, layer).value.colors|
    ensures DrawQuads(t, layer).value.colors[k] == CornerColors(t, layer)[k]
  {
    WrittenFit(t.size.x, t.size.y);
  }

  /** The corner colours of quad `(x, y)` read the cache at
      `cx + cy * sizeX + layer * sizeX * sizeY`, in the corner order of the vertices. */
  lemma LegacyColor(t: CachedTomogram, layer: int, x: int, y: int, c: int)
    requires t.size.x * t.size.y >= 0
    requires 0 <= x < t.size.x - 1 && 0 <= y < t.size.y - 1 && 0 <= c < 4
    ensures var f := DrawQuads(t, layer).value;
            var idx := x * (t.size.y - 1) + y;
            var corner := Mesh.TrianglesOrder[c];
            && 4 * idx + c < |f.colors|
            && f.colors[4 * idx + c]
               == ToNumber(At(t.cache, Int((x + corner.0) + (y + corner.1) * t.size.x + layer * t.size.x * t.size.y)))
  {
    var nx, ny := t.size.x - 1, t.size.y - 1;
    var offset := Int(layer * t.size.x * t.size.y);
    Mesh.CornerIndicesOfCell(Mesh.TrianglesOrder, nx, ny, t.size.x, offset, x, y, c);
    ColorAt(t, layer, 4 * (x * ny + y) + c);
  }

  /** Every colour read stays inside the selected layer, `[offset, offset + sizeX * sizeY)`:
      the corner coordinates never exceed `sizeX - 1` and `sizeY - 1`. So when the cache
      holds that whole layer, no colour is NaN. */
  lemma ReadsStayInLayer(t: CachedTomogram, layer: int, k: int)
    requires 0 <= k < 4 * Mesh.QuadCount(t.size.x - 1, t.size.y - 1)
    ensures var offset := layer * t.size.x * t.size.y;
            var ix := Mesh.CornerIndices(Mesh.TrianglesOrder, t.size.x - 1, t.size.y - 1, t.size.x, Int(offset))[k];
            && ix.Int? && offset <= ix.i < offset + t.size.x * t.size.y
            && (0 <= offset && offset + t.size.x * t.size.y <= |t.cache| ==> CornerColors(t, layer)[k] == Int(t.cache[ix.i]))
  {
    var nx, ny := t.size.x - 1, t.size.y - 1;
    var idx, c := k / 4, k % 4;
    DivModUnique(k, 4, idx, c);
    Mesh.CellOfIndex(idx, Mesh.Count(nx), Mesh.Count(ny));
    var cell := Mesh.Cell(idx, Mesh.Count(ny));
    var corner := Mesh.TrianglesOrder[c];
    RowMajorBelow(cell.1 + corner.1, cell.0 + corner.0, t.size.y, t.size.x);
    assert (cell.1 + corner.1) * t.size.x == t.size.x * (cell.1 + corner.1);
    assert t.size.y * t.size.x == t.size.x * t.size.y;
  }
}
