/** The quad-grid layout shared by the mesh strategies (`QuadsRenderer`,
    `QuadStripRenderer`) and the legacy `drawQuads`: two nested loops, `x` outside and
    `y` inside, number the quads `idx = 0, 1, 2, ...`, and quad `idx` owns vertex
    components `8 idx .. 8 idx + 7`, indices `6 idx .. 6 idx + 5` and colours
    `4 idx .. 4 idx + 3`. */
module Mesh {
  import opened Js
  import opened Arith

  /** Iterations of `for (let i = 0; i < n; i++)`. */
  function Count(n: int): (r: nat)
    ensures n >= 0 ==> r == n
    ensures n <= 0 ==> r == 0
  {
    if n > 0 then n else 0
  }

  /** The number of quads the nested loops `x < nx`, `y < ny` visit. */
  function QuadCount(nx: int, ny: int): nat
  {
    Count(nx) * Count(ny)
  }

  /** A corner order: the offsets `(dx, dy)` of a quad's four corners, in the order
      its vertices and colours are written. */
  type Order = o: seq<(int, int)> | |o| == 4 witness [(0, 0), (0, 0), (0, 0), (0, 0)]

  /** Two triangles sharing an index buffer: (x,y), (x,y+1), (x+1,y+1), (x+1,y). */
  const TrianglesOrder: Order := [(0, 0), (0, 1), (1, 1), (1, 0)]

  /** A triangle strip: (x,y), (x,y+1), (x+1,y), (x+1,y+1). */
  const StripOrder: Order := [(0, 0), (0, 1), (1, 0), (1, 1)]

  /** The six indices of a quad, relative to its first vertex `4 idx`. */
  const IndexPattern: seq<int> := [3, 2, 1, 3, 1, 0]

  /** The loop position `(x, y)` at which quad number `idx` is written, for an inner
      loop of `ny` iterations. */
  function Cell(idx: int, ny: nat): (int, int)
  {
    if ny == 0 then (0, 0) else (idx / ny, idx % ny)
  }

  /** The nested loops themselves: the cells visited, in order, one per `idx++`. */
  method Walk(nx: int, ny: int) returns (cells: seq<(int, int)>)
    ensures |cells| == QuadCount(nx, ny)
    ensures forall idx :: 0 <= idx < |cells| ==> cells[idx] == Cell(idx, Count(ny))
    ensures forall idx :: 0 <= idx < |cells| ==> 0 <= cells[idx].0 < nx && 0 <= cells[idx].1 < ny
  {
    cells := [];
    var x := 0;
    while x < nx
      invariant 0 <= x <= Count(nx)
      invariant |cells| == x * Count(ny)
      invariant forall idx :: 0 <= idx < |cells| ==> cells[idx] == Cell(idx, Count(ny))
      invariant forall idx :: 0 <= idx < |cells| ==> 0 <= cells[idx].0 < x && 0 <= cells[idx].1 < ny
    {
      var y := 0;
      while y < ny
        invariant 0 <= y <= Count(ny)
        invariant |cells| == x * Count(ny) + y
        invariant forall idx :: 0 <= idx < |cells| ==> cells[idx] == Cell(idx, Count(ny))
        invariant forall idx :: 0 <= idx < |cells| ==> 0 <= cells[idx].0 <= x && 0 <= cells[idx].1 < ny
      {
        GridIndex(x, y, Count(ny));
        cells := cells + [(x, y)];
        y := y + 1;
      }
      x := x + 1;
    }
  }

  /** Quad `(x, y)` is numbered `x * ny + y`. */
  lemma GridIndex(x: int, y: int, ny: nat)
    requires 0 <= y < ny
    ensures Cell(x * ny + y, ny) == (x, y)
  {
    DivModUnique(x * ny + y, ny, x, y);
  }

  /** Every quad number below `nx * ny` is the number of a cell of the grid. */
  lemma CellOfIndex(idx: int, nx: nat, ny: nat)
    requires 0 <= idx < nx * ny
    ensures var c := Cell(idx, ny); 0 <= c.0 < nx && 0 <= c.1 < ny && idx == c.0 * ny + c.1
  {
    var q := idx / ny;
    DivMonotone(0, idx, ny);
    if q >= nx {
      MulMonotone(ny, nx, q);
      assert false;
    }
  }

  /** The vertex components written by the loops: for quad `idx` at cell `(x, y)`,
      corner `c` is `(x + dx_c, y + dy_c)`. */
  function Vertices(order: Order, nx: int, ny: int): (v: seq<int>)
    ensures |v| == 8 * QuadCount(nx, ny)
  {
    seq(8 * QuadCount(nx, ny), k =>
      var cell := Cell(k / 8, Count(ny));
      var corner := order[(k % 8) / 2];
      if k % 2 == 0 then cell.0 + corner.0 else cell.1 + corner.1)
  }

  /** The index buffer written by the loops, as a `Uint32Array` keeps it. */
  function Indices(nx: int, ny: int): (v: seq<int>)
    ensures |v| == 6 * QuadCount(nx, ny)
  {
    seq(6 * QuadCount(nx, ny), k => ToUint32(Int(4 * (k / 6) + IndexPattern[k % 6])))
  }

  /** The cache index each colour entry reads: corner `c` of cell `(x, y)` reads
      `(x + dx_c) + (y + dy_c) * stride + offset` (NaN when the offset is). */
  function CornerIndices(order: Order, nx: int, ny: int, stride: int, offset: Number): (v: seq<Number>)
    ensures |v| == 4 * QuadCount(nx, ny)
  {
    seq(4 * QuadCount(nx, ny), k =>
      var cell := Cell(k / 4, Count(ny));
      var corner := order[k % 4];
      Add(Int((cell.0 + corner.0) + (cell.1 + corner.1) * stride), offset))
  }

  /** What a quad-number offset within a block of `w` entries looks like. */
  lemma BlockIndex(idx: int, w: int, j: int)
    requires w > 0 && 0 <= j < w
    ensures (w * idx + j) / w == idx && (w * idx + j) % w == j
  {
    DivModUnique(w * idx + j, w, idx, j);
  }

  /** Quad `(x, y)` (number `idx = x * ny + y`) occupies vertex components
      `8 idx .. 8 idx + 7`, which hold its four corners in the given order. */
  lemma VerticesOfCell(order: Order, nx: int, ny: int, x: int, y: int, c: int)
    requires 0 <= x < nx && 0 <= y < ny && 0 <= c < 4
    ensures var idx := x * ny + y;
            && 8 * idx + 2 * c + 1 < |Vertices(order, nx, ny)|
            && Vertices(order, nx, ny)[8 * idx + 2 * c] == x + order[c].0
            && Vertices(order, nx, ny)[8 * idx + 2 * c + 1] == y + order[c].1
  {
    var idx := x * ny + y;
    RowMajorBelow(x, y, nx, ny);
    GridIndex(x, y, ny);
    BlockIndex(idx, 8, 2 * c);
    BlockIndex(idx, 8, 2 * c + 1);
  }

  /** Quad number `idx` owns indices `6 idx .. 6 idx + 5`, which are `4 idx + 3, 4 idx + 2,
      4 idx + 1, 4 idx + 3, 4 idx + 1, 4 idx`: all within its own four vertices and below
      the vertex count, as long as the vertex count fits a `Uint32Array`. */
  lemma IndicesOfQuad(nx: int, ny: int, idx: int, j: int)
    requires 0 <= idx < QuadCount(nx, ny) && 0 <= j < 6
    requires 4 * QuadCount(nx, ny) <= 0x1_0000_0000
    ensures 6 * idx + j < |Indices(nx, ny)|
    ensures Indices(nx, ny)[6 * idx + j] == 4 * idx + IndexPattern[j]
    ensures 4 * idx <= Indices(nx, ny)[6 * idx + j] <= 4 * idx + 3 < 4 * QuadCount(nx, ny)
  {
    BlockIndex(idx, 6, j);
  }

  /** Quad `(x, y)` owns colour entries `4 idx .. 4 idx + 3`; corner `c` reads the cache
      at `(x + dx_c) + (y + dy_c) * stride + offset`, in the same corner order as the vertices. */
  lemma CornerIndicesOfCell(order: Order, nx: int, ny: int, stride: int, offset: Number, x: int, y: int, c: int)
    requires 0 <= x < nx && 0 <= y < ny && 0 <= c < 4
    ensures var idx := x * ny + y;
            && 4 * idx + c < |CornerIndices(order, nx, ny, stride, offset)|
            && CornerIndices(order, nx, ny, stride, offset)[4 * idx + c]
               == Add(Int((x + order[c].0) + (y + order[c].1) * stride), offset)
  {
    var idx := x * ny + y;
    RowMajorBelow(x, y, nx, ny);
    GridIndex(x, y, ny);
    BlockIndex(idx, 4, c);
  }

  /** The colour entries as a `Uint8Array` keeps them: the cache value at each corner
      index, and 0 where the index is outside the cache (or NaN). */
  function ByteColors(order: Order, nx: int, ny: int, stride: int, offset: Number, cache: seq<int>): (v: seq<int>)
    ensures |v| == 4 * QuadCount(nx, ny)
    ensures forall k :: 0 <= k < |v| ==> 0 <= v[k] < 0x100
  {
    var ix := CornerIndices(order, nx, ny, stride, offset);
    seq(|ix|, k requires 0 <= k < |ix| => ToUint8(ToNumber(At(cache, ix[k]))))
  }
}
