/** The data model of the viewer: a tomogram is a grid of `x * y * z` signed 16-bit
    samples, stored layer after layer (`idx = vx + vy * x + vz * x * y`). */
module Tomograms {
  import opened Js
  import Transfer

  datatype Dimension = Dimension(x: int, y: int, z: int)

  /** A loaded tomogram. `id` stands for the object's reference: two tomograms are
      "the same" to the renderers exactly when their ids agree. */
  datatype Tomogram = Tomogram(id: nat, size: Dimension, data: seq<int>)

  /** A tomogram together with its windowed colour cache (the legacy renderer's input). */
  datatype CachedTomogram = CachedTomogram(size: Dimension, data: seq<int>, cache: seq<int>)

  /** `createCachedTomogram`: the same size and samples, and a zeroed cache of one entry per sample. */
  function CreateCachedTomogram(t: Tomogram): (c: CachedTomogram)
    ensures c.size == t.size && c.data == t.data
    ensures |c.cache| == |t.data|
    ensures forall i :: 0 <= i < |c.cache| ==> c.cache[i] == 0
  {
    CachedTomogram(t.size, t.data, Zeros(|t.data|))
  }

  /** `cacheTomogramColors`: the window `[min, max]` is applied to every sample and the
      result written to the same index of the tomogram's own cache. */
  method CacheTomogramColors(t: CachedTomogram, min: Number, max: Number) returns (r: CachedTomogram)
    ensures r.size == t.size && r.data == t.data
    ensures |r.cache| == |t.cache|
    ensures forall i :: 0 <= i < |t.data| && i < |t.cache| ==> r.cache[i] == Transfer.Store(t.data[i], min, max)
    ensures forall i :: |t.data| <= i < |t.cache| ==> r.cache[i] == t.cache[i]
    ensures forall i :: 0 <= i < |r.cache| && i < |t.data| ==> 0 <= r.cache[i] <= 255
  {
    var cache := Transfer.TransferColors(t.data, t.cache, min, max);
    r := CachedTomogram(t.size, t.data, cache);
  }
}
