/** The volume file decoder (`readTomogram`): three little-endian signed 32-bit
    dimensions `x, y, z` in bytes 0 to 11, then `x * y * z` signed 16-bit samples from
    byte 12 on, in the host's byte order (little-endian here, as the file's header
    assumes). */
module Reader {
  import opened Js
  import opened Arith
  import opened Tomograms

  type Byte = b: int | 0 <= b < 0x100

  /** `getInt32(at, true)`. */
  function Int32LE(buf: seq<Byte>, at: nat): (v: int)
    requires at + 4 <= |buf|
    ensures -0x8000_0000 <= v < 0x8000_0000
  {
    var u := buf[at] as int + 0x100 * (buf[at + 1] as int) + 0x1_0000 * (buf[at + 2] as int) + 0x100_0000 * (buf[at + 3] as int);
    if u >= 0x8000_0000 then u - 0x1_0000_0000 else u
  }

  /** One element of a little-endian `Int16Array`. */
  function Int16LE(buf: seq<Byte>, at: nat): (v: int)
    requires at + 2 <= |buf|
    ensures -0x8000 <= v < 0x8000
  {
    var u := buf[at] as int + 0x100 * (buf[at + 1] as int);
    if u >= 0x8000 then u - 0x1_0000 else u
  }

  /** `readTomogram(buf)`: a RangeError when the buffer is shorter than the header, when
      `x * y * z` is negative, or when the samples run past the end of the buffer;
      bytes after the samples are ignored. The tomogram gets the identity `id`. */
  function ReadTomogram(buf: seq<Byte>, id: nat): (r: Result<Tomogram>)
    ensures r.Ok? <==>
              && |buf| >= 12
              && var n := Int32LE(buf, 0) * Int32LE(buf, 4) * Int32LE(buf, 8);
                 0 <= n && 12 + 2 * n <= |buf|
    ensures r.Err? ==> r.error == RangeError
    ensures r.Ok? ==>
              && r.value.id == id
              && r.value.size == Dimension(Int32LE(buf, 0), Int32LE(buf, 4), Int32LE(buf, 8))
              && |r.value.data| == r.value.size.x * r.value.size.y * r.value.size.z
              && forall i :: 0 <= i < |r.value.data| ==> -0x8000 <= r.value.data[i] < 0x8000
  {
    if |buf| < 12 then Err(RangeError)
    else
      var x, y, z := Int32LE(buf, 0), Int32LE(buf, 4), Int32LE(buf, 8);
      var n := x * y * z;
      if n < 0 || 12 + 2 * n > |buf| then Err(RangeError)
      else Ok(Tomogram(id, Dimension(x, y, z), seq(n, i requires 0 <= i < n => Int16LE(buf, 12 + 2 * i))))
  }

  /** The four little-endian bytes of a signed 32-bit value. */
  function Int32Bytes(v: int): (b: seq<Byte>)
    requires -0x8000_0000 <= v < 0x8000_0000
    ensures |b| == 4
  {
    var u := if v < 0 then v + 0x1_0000_0000 else v;
    [u % 0x100, (u / 0x100) % 0x100, (u / 0x1_0000) % 0x100, u / 0x100_0000]
  }

  /** The two little-endian bytes of a signed 16-bit value. */
  function Int16Bytes(v: int): (b: seq<Byte>)
    requires -0x8000 <= v < 0x8000
    ensures |b| == 2
  {
    var u := if v < 0 then v + 0x1_0000 else v;
    [u % 0x100, u / 0x100]
  }

  /** A tomogram the file format can carry: 32-bit dimensions, as many 16-bit samples as
      the dimensions say. */
  ghost predicate Encodable(t: Tomogram)
  {
    && -0x8000_0000 <= t.size.x < 0x8000_0000
    && -0x8000_0000 <= t.size.y < 0x8000_0000
    && -0x8000_0000 <= t.size.z < 0x8000_0000
    && |t.data| == t.size.x * t.size.y * t.size.z
    && forall i :: 0 <= i < |t.data| ==> -0x8000 <= t.data[i] < 0x8000
  }

  /** The samples, two bytes each. */
  function SampleBytes(data: seq<int>): (b: seq<Byte>)
    requires forall i :: 0 <= i < |data| ==> -0x8000 <= data[i] < 0x8000
    ensures |b| == 2 * |data|
  {
    seq(2 * |data|, k requires 0 <= k < 2 * |data| => Int16Bytes(data[k / 2])[k % 2])
  }

  /** The file that describes `t`: header, then samples. */
  function Encode(t: Tomogram): (b: seq<Byte>)
    requires Encodable(t)
    ensures |b| == 12 + 2 * |t.data|
  {
    Int32Bytes(t.size.x) + Int32Bytes(t.size.y) + Int32Bytes(t.size.z) + SampleBytes(t.data)
  }

  lemma Int32RoundTrip(v: int, buf: seq<Byte>, at: nat)
    requires -0x8000_0000 <= v < 0x8000_0000
    requires at + 4 <= |buf| && buf[at..at + 4] == Int32Bytes(v)
    ensures Int32LE(buf, at) == v
  {
    var u := if v < 0 then v + 0x1_0000_0000 else v;
    var b := Int32Bytes(v);
    assert buf[at] == b[0] && buf[at + 1] == b[1] && buf[at + 2] == b[2] && buf[at + 3] == b[3];
    DivModUnique(u, 0x100, u / 0x100, u % 0x100);
    DivModUnique(u / 0x100, 0x100, u / 0x1_0000, (u / 0x100) % 0x100);
    DivModUnique(u / 0x1_0000, 0x100, u / 0x100_0000, (u / 0x1_0000) % 0x100);
  }

  lemma Int16RoundTrip(v: int, buf: seq<Byte>, at: nat)
    requires -0x8000 <= v < 0x8000
    requires at + 2 <= |buf| && buf[at] == Int16Bytes(v)[0] && buf[at + 1] == Int16Bytes(v)[1]
    ensures Int16LE(buf, at) == v
  {
  }

  /** Sample `i` of the encoded samples decodes back to `data[i]`. */
  lemma SampleRoundTrip(data: seq<int>, buf: seq<Byte>, at: nat, i: int)
    requires forall k :: 0 <= k < |data| ==> -0x8000 <= data[k] < 0x8000
    requires at + 2 * |data| <= |buf| && buf[at..at + 2 * |data|] == SampleBytes(data)
    requires 0 <= i < |data|
    ensures Int16LE(buf, at + 2 * i) == data[i]
  {
    var samples := SampleBytes(data);
    DivModUnique(2 * i, 2, i, 0);
    DivModUnique(2 * i + 1, 2, i, 1);
    assert buf[at + 2 * i] == samples[2 * i];
    assert buf[at + 2 * i + 1] == samples[2 * i + 1];
    Int16RoundTrip(data[i], buf, at + 2 * i);
  }

  /** Where the parts of an encoded file sit. */
  lemma EncodeLayout(t: Tomogram, trailing: seq<Byte>)
    requires Encodable(t)
    ensures var buf := Encode(t) + trailing;
            && 12 + 2 * |t.data| <= |buf|
            && buf[0..4] == Int32Bytes(t.size.x)
            && buf[4..8] == Int32Bytes(t.size.y)
            && buf[8..12] == Int32Bytes(t.size.z)
            && buf[12..12 + 2 * |t.data|] == SampleBytes(t.data)
  {
    var hx, hy, hz, body := Int32Bytes(t.size.x), Int32Bytes(t.size.y), Int32Bytes(t.size.z), SampleBytes(t.data);
    var buf := hx + hy + hz + body + trailing;
    assert buf[0..4] == hx;
    assert buf[4..8] == hy;
    assert buf[8..12] == hz;
    assert buf[12..12 + |body|] == body;
  }

  /** Decoding what `Encode` wrote, with any bytes after it, gives the tomogram back. */
  lemma RoundTrip(t: Tomogram, trailing: seq<Byte>)
    requires Encodable(t)
    ensures ReadTomogram(Encode(t) + trailing, t.id) == Ok(t)
  {
    var buf := Encode(t) + trailing;
    EncodeLayout(t, trailing);
    Int32RoundTrip(t.size.x, buf, 0);
    Int32RoundTrip(t.size.y, buf, 4);
    Int32RoundTrip(t.size.z, buf, 8);
    var r := ReadTomogram(buf, t.id);
    assert r.Ok?;
    forall i | 0 <= i < |t.data|
      ensures r.value.data[i] == t.data[i]
    {
      SampleRoundTrip(t.data, buf, 12, i);
    }
    assert r.value.data == t.data;
  }

  /** Sample `i` is decoded from bytes `12 + 2 i` and `13 + 2 i` alone: changing any other
      byte after the header leaves it as it was. */
  lemma SampleBytesOnly(buf: seq<Byte>, buf': seq<Byte>, id: nat, i: int)
    requires ReadTomogram(buf, id).Ok? && |buf'| == |buf|
    requires buf[..12] == buf'[..12]
    requires 0 <= i < |ReadTomogram(buf, id).value.data|
    requires buf[12 + 2 * i] == buf'[12 + 2 * i] && buf[13 + 2 * i] == buf'[13 + 2 * i]
    ensures ReadTomogram(buf', id).Ok?
    ensures ReadTomogram(buf', id).value.data[i] == ReadTomogram(buf, id).value.data[i]
  {
    assert buf[0..4] == buf'[0..4] && buf[4..8] == buf'[4..8] && buf[8..12] == buf'[8..12];
    assert forall k :: 0 <= k < 12 ==> buf[k] == buf'[k];
  }
}
