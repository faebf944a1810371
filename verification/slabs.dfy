/** The geometry of the texture strategies: the unit quad, and the stack of such quads
    ("slabs", one per 18-entry block of a `Float32Array` of 3D vertices) that the volume
    strategies fill in with one loop writing twelve of each block's entries. */
module Slabs {
  import opened Arith

  /** The two triangles (0,0), (1,0), (0,1), (0,1), (1,0), (1,1) of the unit square, as
      2D components. */
  const UnitQuad: seq<int> := [0, 0, 1, 0, 0, 1, 0, 1, 1, 0, 1, 1]

  /** One vertex component: an integer x or y, or the depth of block `b`, which the
      loops compute in floating point as `start - 0.2 * b`. */
  datatype Component = Coord(c: int) | Depth(block: nat)

  /** A fresh `Float32Array` of `n` components: all 0. */
  function Blank(n: nat): (s: seq<Component>)
    ensures |s| == n && forall k :: 0 <= k < n ==> s[k] == Coord(0)
  {
    seq(n, _ => Coord(0))
  }

  /** Entry `m` of block `b`: vertex `m / 3` of the six, component `m % 3`. */
  function Entry(b: nat, m: int): Component
    requires 0 <= m < 18
  {
    if m % 3 == 2 then Depth(b) else Coord(UnitQuad[2 * (m / 3) + m % 3])
  }

  /** The reference layout of `blocks` slabs: in block `b`, vertex `v` (of six) has the
      unit-quad corner `v` as its x and y, and the block's depth as its z. */
  function Slab(blocks: nat): (s: seq<Component>)
    ensures |s| == 18 * blocks
  {
    seq(18 * blocks, k requires 0 <= k < 18 * blocks => Entry(k / 18, k % 18))
  }

  /** Entry `m` of block `b` sits at `18 b + m`. */
  lemma SlabAt(blocks: nat, b: int, m: int)
    requires 0 <= b < blocks && 0 <= m < 18
    ensures 18 * b + m < 18 * blocks
    ensures Slab(blocks)[18 * b + m] == Entry(b, m)
  {
    DivModUnique(18 * b + m, 18, b, m);
  }

  /** Vertex `v` of block `b` is unit-quad corner `v` at the block's depth. */
  lemma SlabVertex(blocks: nat, b: int, v: int)
    requires 0 <= b < blocks && 0 <= v < 6
    ensures 18 * b + 3 * v + 2 < |Slab(blocks)|
    ensures Slab(blocks)[18 * b + 3 * v] == Coord(UnitQuad[2 * v])
    ensures Slab(blocks)[18 * b + 3 * v + 1] == Coord(UnitQuad[2 * v + 1])
    ensures Slab(blocks)[18 * b + 3 * v + 2] == Depth(b)
  {
    SlabAt(blocks, b, 3 * v);
    SlabAt(blocks, b, 3 * v + 1);
    SlabAt(blocks, b, 3 * v + 2);
    DivModUnique(3 * v, 3, v, 0);
    DivModUnique(3 * v + 1, 3, v, 1);
    DivModUnique(3 * v + 2, 3, v, 2);
  }

  /** The entries of an 18-entry block that the slab loop writes: every depth, and the
      six components that are 1. */
  predicate Written(m: int)
  {
    m % 3 == 2 || m == 3 || m == 7 || m == 10 || m == 12 || m == 15 || m == 16
  }

  /** The six components the loop leaves alone are the zero coordinates of the layout. */
  lemma UnwrittenIsZero(b: nat, m: int)
    requires 0 <= m < 18 && !Written(m)
    ensures Entry(b, m) == Coord(0)
  {
    assert m == 0 || m == 1 || m == 4 || m == 6 || m == 9 || m == 13;
  }

  /** An array of `18 * blocks` components after the slab loop has run over it: the
      written entries hold the layout, the others keep what the array held. */
  function Overwrite(init: seq<Component>, blocks: nat): (s: seq<Component>)
    requires |init| == 18 * blocks
    ensures |s| == 18 * blocks
  {
    seq(18 * blocks, k requires 0 <= k < 18 * blocks => if Written(k % 18) then Slab(blocks)[k] else init[k])
  }

  /** Over a fresh array of zeros, the loop produces the reference layout. */
  lemma OverwriteBlank(blocks: nat)
    ensures Overwrite(Blank(18 * blocks), blocks) == Slab(blocks)
  {
    forall k | 0 <= k < 18 * blocks
      ensures Overwrite(Blank(18 * blocks), blocks)[k] == Slab(blocks)[k]
    {
      var b, m := k / 18, k % 18;
      SlabAt(blocks, b, m);
      if !Written(m) {
        UnwrittenIsZero(b, m);
      }
    }
  }

  /** Over an array that already holds the layout, the loop gives the layout back: running
      it again on every later `updateCache` changes nothing. */
  lemma OverwriteSlab(blocks: nat)
    ensures Overwrite(Slab(blocks), blocks) == Slab(blocks)
  {
  }

  /** The loop `for (i = 0, z = start; i < length; i += 18, z -= 0.2)` over an array of
      `18 * blocks` components: it writes the depth into entries 2, 5, 8, 11, 14, 17 of
      each block and 1 into entries 3, 7, 10, 12, 15, 16; the other six entries keep their
      values. Over a fresh array, and over one that already holds the layout, the result
      is the reference layout. */
  method WriteSlabs(init: seq<Component>, blocks: nat) returns (s: seq<Component>)
    requires |init| == 18 * blocks
    ensures s == Overwrite(init, blocks)
    ensures init == Blank(18 * blocks) ==> s == Slab(blocks)
    ensures init == Slab(blocks) ==> s == Slab(blocks)
  {
    s := init;
    var i := 0;
    var b := 0;
    while i < 18 * blocks
      invariant 0 <= b <= blocks && i == 18 * b
      invariant |s| == 18 * blocks
      invariant forall k :: 0 <= k < i ==> s[k] == Overwrite(init, blocks)[k]
      invariant forall k :: i <= k < |s| ==> s[k] == init[k]
    {
      var z := Depth(b);  // the running depth `z`, one step further per block
      s := s[i + 2 := z][i + 3 := Coord(1)][i + 5 := z][i + 7 := Coord(1)][i + 8 := z]
            [i + 10 := Coord(1)][i + 11 := z][i + 12 := Coord(1)][i + 14 := z]
            [i + 15 := Coord(1)][i + 16 := Coord(1)][i + 17 := z];
      forall k | i <= k < i + 18
        ensures s[k] == Overwrite(init, blocks)[k]
      {
        SlabAt(blocks, b, k - i);
        DivModUnique(k, 18, b, k - i);
      }
      i, b := i + 18, b + 1;
    }
    OverwriteBlank(blocks);
    OverwriteSlab(blocks);
  }
}
