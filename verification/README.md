# Tomogram viewer core, modelled in Dafny

This project models the core of a WebGL tomogram viewer. A tomogram is a
three-dimensional grid of signed 16-bit samples, stored layer after layer. The
viewer decodes it from a binary file and maps every sample through a windowing
transfer function onto a 0..255 colour cache. A rendering context then draws the
volume with one of five interchangeable strategies:

- `quads`: independent quads with an index buffer;
- `qstrip`: a triangle strip;
- `texture`: one textured quad;
- `threed`: 32 slabs textured from a 2D atlas;
- `threedtex`: one slab per layer, textured from a 3D texture.

Each strategy sits on a shared renderer state (`Base2DRenderer`). That state
keeps a snapshot of the configuration and decides, property by property,
whether the expensive `updateCache` must run again. The first, pre-strategy
`drawQuads` path is modelled as well.

Modules, one per file:

| module | models |
|---|---|
| `Js` | The JavaScript semantics the code depends on: `undefined` property reads, NaN arithmetic, typed-array stores (`ToUint8`, `ToInt16`, `ToUint32`), out-of-bounds reads, zero-filled allocation with its RangeError, and thrown errors as a `Result`. |
| `Arith` | Multiplication and flooring-division facts used by the proofs. |
| `Utils` | `clamp`. |
| `Transfer` | `transferTomogramColors`, the windowing transfer function. |
| `Tomograms` | The tomogram data model, `createCachedTomogram` and `cacheTomogramColors`. |
| `Base2D` | The shared renderer state with its `configure` diff and its `render` hand-off. |
| `Mesh` | The quad-grid layout that `quads`, `qstrip` and the first `drawQuads` share. |
| `Quads`, `QuadStrip`, `Texture`, `ThreeD`, `ThreeDTexture` | The five strategies. |
| `Slabs`, `Volumes` | Geometry and texel code that the texture strategies share. |
| `Legacy` | The first renderer's `drawQuads`. |
| `Core` | The rendering context: `setRenderer`, `configure`, `render`, `clear` and `flush`. |
| `Reader` | `readTomogram`, the file decoder. |

Modelling decisions:

- **No mutation.** Each strategy's closure variables (buffers, remembered
  window, texture) become an immutable `Private`/`Buffers` value that the
  shared renderer carries. Every operation returns the new value.
- **Identity by reference.** Two tomograms are the same object exactly when
  their `id`s agree. This is the reference comparison `tomogram != state.tomogram`.
- **Exceptions.** A thrown exception is `Err(e)`, and the state the call had
  built so far is discarded. In the source, an exception part-way through
  `updateCache` can leave earlier assignments in place. The model does not
  keep that partial state.
- **GPU calls.** A WebGL call that hands data to the GPU is modelled as the
  data it hands over: the `Frame` a `render` uploads, or the `Upload` a
  `texImage2D`/`texImage3D` receives.
- **The `qstrip`, `threed` and `threedtex` base.** These three strategies build
  on a `BaseRenderer` from `src/renderer/base`. That file is not part of this
  model. They are modelled on `Base2D`, whose interface they use in the same way.

## Notes on the code

The model follows the code as written, including these behaviours of it:

- **Truncation in the cache.** The volume `[0, 50, 100, 150, ...]` under the
  window `[0, 100]` gives `[0, 127, 255, 255, ...]`, not a rounded 128: the code
  stores 127.5 into an `Int16Array`, which truncates it
  (`Transfer.ScenarioWindow`).
- **`render` before `configure`.** It is not a no-op: the state is `null`, and
  reading from it throws a TypeError (`Base2D.RenderWith`). A strategy that
  has just been switched in starts without a state, so its first `render`
  throws until a `configure` reaches it
  (`Core.NewRendererStartsUnconfigured`, `Core.ConfigureThenRender`).
- **Disposal on a failed switch.** `setRenderer` disposes the current renderer
  before the initializer runs. When the initializer throws, the disposed
  renderer stays current, and the next switch disposes it again
  (`Core.FailedInitDisposesTwice`). When every initializer succeeds, nothing
  is disposed twice (`Core.RunDisposesOnce`).
- **The `texture` strategy's gate.** The strategy re-runs the transfer only
  when `transferFunctionMax` changes. No configuration the viewer builds has
  that property, so the gate never opens and its cache stays zero
  (`Texture.ConfigureKeepsDormant`). Its texture is also declared as one texel
  by one.
- **The `qstrip` draw count.** It passes `vertices.length`, the number of
  coordinates, as the vertex count. That is twice the number of vertices in
  the buffer (`QuadStrip.RenderUploadsLayout`).
- **The `threed` atlas.** It always reads the 32 layers starting at layer 46,
  whatever layer is configured. It needs a volume of at least 78 layers
  (`ThreeD.AtlasReadsInBounds`, `ThreeD.AtlasNeedsLayers`).
- **Stale colours after a swap.** The volume strategies gate the transfer on
  their own remembered window. Switching to another tomogram under the same
  window keeps the previous tomogram's colours (`ThreeD.SwapKeepsStaleCache`).
- **Reads past the layer.** The last row and column of the `quads` grid read
  the cache past the end of the selected layer
  (`Quads.LastQuadReadsPastLayer`). The first `drawQuads` stops one short and
  stays inside the layer (`Legacy.ReadsStayInLayer`).

## Model

| member | source | states |
|---|---|---|
| Utils.Clamp | src/utils.ts:1-3 | The result is one of `min`, `max` and `val`. For ordered bounds it lies in `[min, max]`. |
| Utils.ClampCases | src/utils.ts:2 | Below `min` the result is `min`. Above `max` (and not below `min`) it is `max`. Inside the bounds it is `val`. |
| Utils.ClampIdempotent | src/utils.ts:1-3 | Clamping an already clamped value changes nothing. |
| Utils.ClampMonotone | src/utils.ts:1-3 | For ordered bounds, a larger value never clamps to a smaller result. |
| Transfer.Window | src/renderer/common.ts:6 | The stored colour of one sample always lies in `0..255`, for any window, including an empty or inverted one. |
| Transfer.Store | src/renderer/common.ts:6 | A stored colour lies in `0..255`. It is 0 whenever a window bound is NaN, that is, when the configuration lacked a property. |
| Transfer.Fill | src/renderer/common.ts:4-8 | The cache keeps its length. Every index below the sample count holds a colour in `0..255`. Indices past the samples keep their old values. |
| Transfer.TransferColors | src/renderer/common.ts:4-8 | The loop rewrites cache index `i` from sample `i` alone. It leaves the other indices as they were and computes exactly `Fill`. |
| Transfer.WindowPiecewise | src/renderer/common.ts:6 | For `lo < hi`, the colour is 0 at or below `lo` and 255 at or above `hi`. In between it is `floor((d - lo) * 255 / (hi - lo))`. |
| Transfer.WindowMonotone | src/renderer/common.ts:6 | For `lo <= hi`, a larger sample never gets a smaller colour. |
| Transfer.WindowInvertedAntitone | src/renderer/common.ts:6 | For `hi < lo`, a larger sample never gets a larger colour. |
| Transfer.ScenarioWindow | src/renderer/common.ts:4-8 | The 2x2x2 volume `[0, 50, 100, 150, 200, 210, 220, 230]` under the window `[0, 100]` gives `[0, 127, 255, 255, 255, 255, 255, 255]`. |
| Tomograms.CreateCachedTomogram | src/tomogram.ts:10-13 | The size and samples are kept, and the cache is zeroed with one entry per sample. |
| Tomograms.CacheTomogramColors | src/tomogram.ts:4-8 | Size and samples are unchanged. Cache entry `i` is the windowed colour of sample `i`, in `0..255`, and entries past the samples are untouched. |
| Base2D.Get | src/renderer/types.ts:20-25 | A property read is a number exactly when the configuration has the property, and then it is the property's value. |
| Base2D.MinWidthWindow | src/renderer/quads/index.ts:112-117 | The window's upper bound is a number exactly when both min and width are present, and then it equals `min + width`. |
| Base2D.Configure | src/renderer/base2d.ts:22-52 | The first call adopts the tomogram and a zeroed cache, and refreshes. A different tomogram always refreshes, and the cache is reallocated only when its length differs from the sample count. With the same tomogram, the call refreshes exactly when some incoming triggering property differs from the snapshot. Every incoming property is copied into the snapshot, and absent ones keep their stored values. |
| Base2D.ConfigureKeys | src/renderer/base2d.ts:33-46 | The key-by-key loop, in any key order, yields the same state and refresh decision as `Configure`. |
| Base2D.ConfigureIdempotent | src/renderer/base2d.ts:22-52 | Configuring again with the same tomogram and configuration does not refresh and changes nothing. |
| Base2D.Initial | src/renderer/base2d.ts:16 | A new renderer has no state and has run `updateCache` zero times. |
| Base2D.LayerOffset | src/renderer/quads/index.ts:72-74 | The offset the mesh strategies read the selected layer from is `layer * sizeX * sizeY`, or NaN when no layer is configured. |
| Base2D.ConfigureWith | src/renderer/base2d.ts:49-51 | `updateCache` runs exactly when the diff asks for it, at most once per call. Without a refresh, the buffers and count are unchanged. With one, the call succeeds exactly when `updateCache` does, and the call adopts its cache and buffers. |
| Base2D.RenderWith | src/renderer/base2d.ts:19-21 | `render` succeeds exactly when the renderer has a state. Otherwise it throws a TypeError. On success it draws from that state. |
| Mesh.Walk | src/renderer/quads/index.ts:70-102 | The nested loops visit `max(nx,0) * max(ny,0)` cells. Visit `idx` is the cell `(idx / ny, idx % ny)`, and every visited cell lies inside the grid. |
| Mesh.GridIndex | src/renderer/quads/index.ts:70-101 | The cell `(x, y)` gets the quad number `x * ny + y`. |
| Mesh.CellOfIndex | src/renderer/quads/index.ts:70-101 | Every quad number below `nx * ny` belongs to exactly one cell inside the grid. |
| Mesh.VerticesOfCell | src/renderer/quads/index.ts:76-86 | Quad `(x, y)` writes its four corners, in the given corner order, into vertex components `8 idx .. 8 idx + 7`. |
| Mesh.IndicesOfQuad | src/renderer/quads/index.ts:88-93 | The six indices of quad `idx` follow the pattern `3, 2, 1, 3, 1, 0` above `4 idx`. They stay within the quad's own four vertices and below the vertex count. |
| Mesh.CornerIndicesOfCell | src/renderer/quads/index.ts:95-98 | Colour `c` of quad `(x, y)` reads the cache at `(x + dx) + (y + dy) * sizeX + offset`, in the same corner order as the vertices. |
| Mesh.ByteColors | src/renderer/quads/index.ts:95-98 | There is one colour per corner, each a byte. |
| Quads.Init | src/renderer/quads/index.ts:61-64 | Before the first `configure`, nothing is allocated and the buffers count as sized. |
| Quads.UpdateCache | src/renderer/quads/index.ts:111-126 | The transfer runs with the window `[min, min + width]`. The buffers are reallocated to `8q`, `6q` and `4q` zeros only when `q = x * y` changes. It fails with a RangeError only for a new, negative `q`. |
| Quads.Layout | src/renderer/quads/index.ts:67-102 | The layout has `8`, `6` and `4` entries per visited quad. |
| Quads.Draw | src/renderer/quads/index.ts:67-105 | It uploads exactly the contents of its buffers and keeps their lengths. |
| Quads.ConfigureKeepsSized | src/renderer/quads/index.ts:119-125 | After every successful `configure`, the buffers are sized for the tomogram held. |
| Quads.RenderUploadsLayout | src/renderer/quads/index.ts:67-105 | Once configured with a sized renderer, `render` succeeds. It overwrites every buffer entry and uploads exactly the `x * y`-quad layout. |
| Quads.LayerChangeKeepsCache | src/renderer/quads/index.ts:107-110 | Changing only the layer on the same tomogram re-runs nothing: the cache and buffers stay, and only the snapshot's layer changes. |
| Quads.LastQuadReadsPastLayer | src/renderer/quads/index.ts:95-98 | The last quad's corner `(x+1, y+1)` reads index `offset + sizeX*sizeY + sizeX`, which is past the selected layer. |
| QuadStrip.Init | src/renderer/qstrip/index.ts:52-54 | Before the first `configure`, nothing is allocated. |
| QuadStrip.UpdateCache | src/renderer/qstrip/index.ts:94-108 | The transfer runs with `[min, min + width]`. The vertex and colour arrays are reallocated to `8q` and `4q` zeros only when `q` changes. A new, negative `q` throws a RangeError. |
| QuadStrip.Draw | src/renderer/qstrip/index.ts:57-88 | It uploads its buffers, and the vertex count passed on is the length of the vertex array. |
| QuadStrip.ConfigureKeepsSized | src/renderer/qstrip/index.ts:102-107 | After every successful `configure`, the buffers are sized for the tomogram held. |
| QuadStrip.RenderUploadsLayout | src/renderer/qstrip/index.ts:49 | It uploads the strip-ordered vertices and colours. `drawArrays` is asked for `2 * (4 * x * y)` vertices, twice the number the buffer holds. |
| Texture.Init | src/renderer/texture/index.ts:10 | The remembered max is `undefined`, and no texture has been uploaded. |
| Texture.TexBuffer | src/renderer/texture/index.ts:77-83 | The texture has `3 * size` bytes. |
| Texture.FillTexBuffer | src/renderer/texture/index.ts:77-83 | The `i += 4` loop succeeds exactly when `size >= 0`, and otherwise throws a RangeError. It produces `TexBuffer`: entries `4q, 4q+1, 4q+2` hold the cache at `offset + q`, and all other entries are 0. |
| Texture.UpdateCache | src/renderer/texture/index.ts:69-100 | The transfer with `[0, max]` runs exactly when `transferFunctionMax` differs from the remembered one, and the new value is remembered. The layer's texture is uploaded as one texel by one. A negative slice size throws. |
| Texture.LayerOffset | src/renderer/texture/index.ts:79 | The offset is `layer * (sizeX * sizeY)`, or NaN without a layer. |
| Texture.Draw | src/renderer/texture/index.ts:35-64 | There are six vertices: the unit quad scaled by the slice size, with the unit quad as texture coordinates. |
| Texture.TexBufferWrites | src/renderer/texture/index.ts:79-83 | Each entry the loop writes lies inside the buffer and holds the byte of the cache at `offset + q`. |
| Texture.FillStep | src/renderer/texture/index.ts:79-83 | One pass of the loop writes group `q` and extends the agreement with `TexBuffer` from `4q` to `4q + 4` entries, leaving the rest 0. |
| Texture.TexBufferGap | src/renderer/texture/index.ts:79-83 | The fourth entry of each group of four is never written. |
| Texture.TexBufferTail | src/renderer/texture/index.ts:79-83 | Past the last group the loop visits, the buffer stays zero. |
| Texture.ConfigureKeepsDormant | src/renderer/texture/index.ts:70-73 | Without `transferFunctionMax` in any configuration, the transfer never runs, the cache stays zero and every uploaded texel is 0. |
| Slabs.Slab | src/renderer/threed/index.ts:125-140 | The slab array has 18 components per block. |
| Slabs.SlabAt | src/renderer/threed/index.ts:125-140 | Entry `m` of block `b` sits at `18 b + m`. |
| Slabs.SlabVertex | src/renderer/threed/index.ts:125-140 | Vertex `v` of block `b` is unit-quad corner `v` at block `b`'s depth. |
| Slabs.UnwrittenIsZero | src/renderer/threed/index.ts:125-140 | The six entries of a block the loop never writes are zero coordinates in the layout. |
| Slabs.Overwrite | src/renderer/threed/index.ts:125-140 | The array after the loop has the same `18 * blocks` components. |
| Slabs.OverwriteBlank | src/renderer/threed/index.ts:36 | Over the freshly allocated zero array, the loop yields the layout. |
| Slabs.OverwriteSlab | src/renderer/threed/index.ts:125-140 | Over an array already holding the layout, the loop gives the layout back. |
| Slabs.WriteSlabs | src/renderer/threed/index.ts:125-140 | The loop writes the depth and the ones into each block and leaves the other entries as they were. Over a fresh zero array, and over one already holding the layout, it yields exactly the reference layout. |
| Volumes.GatedTransfer | src/renderer/threed/index.ts:105-115 | The window is always remembered. With an unchanged window, the cache is untouched. With a changed one, it is recomputed with `[min, min + width]`. |
| Volumes.GateClosesBehind | src/renderer/threedtex/index.ts:110-120 | A second run on the same state recomputes nothing. |
| Volumes.Rgba | src/renderer/threedtex/index.ts:169-179 | There are four bytes per texel. |
| Volumes.RgbaAt | src/renderer/threedtex/index.ts:174-179 | Channel `j` of texel `m` sits at `4m + j` and holds the cache byte at `offset + m`, or the fixed alpha. |
| Volumes.FillRgba | src/renderer/threedtex/index.ts:174-179 | The `i += 4` loop overwrites every entry, so a reused array's old contents never survive. It produces exactly `Rgba`. |
| Volumes.Reuse | src/renderer/threedtex/index.ts:171-173 | An array of the right length is kept without allocating. Otherwise a zeroed array of that length is allocated, or a RangeError is thrown for a negative length. |
| ThreeD.Init | src/renderer/threed/index.ts:35-36 | The vertex array holds `3 * 192` components from the start. |
| ThreeD.Atlas | src/renderer/threed/index.ts:142-154 | The atlas holds `4 * 32 * x * y` bytes. |
| ThreeD.UpdateCache | src/renderer/threed/index.ts:104-171 | It runs the gated transfer and writes the 32 slabs. The atlas texels come from the new cache, and the texture uploaded is `x` by `32y`. A texel array is allocated exactly when its length changes, at most one per call. It succeeds exactly when `x * y >= 0`, and otherwise throws a RangeError. |
| ThreeD.Draw | src/renderer/threed/index.ts:64-98 | It draws the vertex array as `6 * 32` vertices. Over the slab layout that count is exactly the array length divided by three. |
| ThreeD.ConfigureKeepsConsistent | src/renderer/threed/index.ts:104-171 | After every successful `configure`, the slabs are written and the uploaded atlas matches the current cache. |
| ThreeD.SlabLoopRewritesLayout | src/renderer/threed/index.ts:125-140 | On every call, the slab loop run over the vertex array as it stands (fresh zeros first, the layout afterwards) yields the layout `updateCache` stores. |
| ThreeD.RenderDrawsSlabs | src/renderer/threed/index.ts:64-98 | Once configured, `render` draws 32 slabs from exactly `3 * 192` components. |
| ThreeD.UploadExtent | src/renderer/threed/index.ts:158-171 | The declared extent times four equals the number of bytes uploaded. |
| ThreeD.AtlasReadsInBounds | src/renderer/threed/index.ts:149-154 | Every atlas read lies inside the cache exactly when the cache holds at least `78 * x * y` entries. |
| ThreeD.AtlasNeedsLayers | src/renderer/threed/index.ts:144-149 | For a non-empty slice, that means at least 78 layers. |
| ThreeD.AtlasTexel | src/renderer/threed/index.ts:149-154 | With in-bounds reads, texel `m` shows the cache at `46xy + m` with alpha 128. |
| ThreeD.SwapKeepsStaleCache | src/renderer/threed/index.ts:105-115 | After a swap to another tomogram under the same window, `updateCache` runs but keeps the old colours, or zeros when the sample count changed. |
| ThreeDTexture.Init | src/renderer/threedtex/index.ts:51-52 | Before the first `configure`, the vertex count is `undefined`. |
| ThreeDTexture.VolumeTexels | src/renderer/threedtex/index.ts:169-179 | There are four bytes per sample. |
| ThreeDTexture.UpdateCache | src/renderer/threedtex/index.ts:109-193 | It runs the gated transfer. The slab arrays are rebuilt with `z` slabs exactly when `6z` differs from the stored count. The texel array is allocated exactly when its length changes. The upload has extent `x` by `y` by `z`. It succeeds exactly when the slab count it must allocate and `x * y * z` are non-negative, and otherwise throws a RangeError. |
| ThreeDTexture.Draw | src/renderer/threedtex/index.ts:77-103 | It draws the slab arrays with the stored vertex count. When the arrays hold the `z` slabs and the count is `6 z`, the count is exactly the array length divided by three. |
| ThreeDTexture.ConfigureKeepsConsistent | src/renderer/threedtex/index.ts:122-179 | After every successful `configure`, there is one slab per layer, the count is `6z`, and the upload matches the current cache. |
| ThreeDTexture.RenderDrawsSlabs | src/renderer/threedtex/index.ts:77-103 | Once configured, `render` draws `6z` vertices forming `z` slabs, three components each. |
| ThreeDTexture.UploadExtent | src/renderer/threedtex/index.ts:181-193 | The declared extent times four equals the number of bytes uploaded. |
| ThreeDTexture.VolumeTexel | src/renderer/threedtex/index.ts:174-179 | All four channels of texel `k` hold the byte of cache entry `k`. |
| Legacy.CornerColors | src/renderer.ts:148-151 | There is one colour per corner of each written quad. |
| Legacy.DrawQuads | src/renderer.ts:117-155 | It succeeds exactly when `sizeX * sizeY >= 0`, and otherwise throws a RangeError. The buffers hold `8`, `6` and `4` entries per `sizeX * sizeY` quads. |
| Legacy.WrittenFit | src/renderer.ts:118-126 | The `(sizeX-1)(sizeY-1)` quads written fit in buffers sized for `sizeX * sizeY`. |
| Legacy.UnwrittenSlotsZero | src/renderer.ts:120-155 | Every slot past the written quads stays 0. |
| Legacy.LegacyVertex | src/renderer.ts:129-139 | Quad `(x, y)` is numbered `x(sizeY-1) + y`, and its corners are `(x,y), (x,y+1), (x+1,y+1), (x+1,y)`. |
| Legacy.LegacyIndex | src/renderer.ts:141-146 | The six indices of quad `idx` are `4idx + 3, 2, 1, 3, 1, 0`. |
| Legacy.VertexAt | src/renderer.ts:129-139 | Vertex component `k` of the frame is component `k` of the written quads. |
| Legacy.ColorAt | src/renderer.ts:148-151 | Colour entry `k` is the colour of written corner `k`. |
| Legacy.LegacyColor | src/renderer.ts:148-151 | The corner colours of quad `(x, y)` read the cache at `cx + cy * sizeX + layer * sizeX * sizeY`. |
| Legacy.ReadsStayInLayer | src/renderer.ts:125-151 | Every colour read stays within the selected layer. When the cache holds that layer, no colour is NaN. |
| Core.Create | src/renderer/core.ts:16 | A newly created renderer is unconfigured. |
| Core.ConfigureStrategy | src/renderer/core.ts:19 | A successful `configure` leaves the renderer configured. |
| Core.RenderStrategy | src/renderer/core.ts:26 | `render` succeeds exactly when the renderer is configured. Otherwise it throws a TypeError. |
| Core.Initial | src/renderer/core.ts:11 | A new context has no renderer and an empty trace. |
| Core.SetRenderer | src/renderer/core.ts:14-17 | The current renderer, if any, is disposed first. A successful initializer becomes current. A throwing one leaves the disposed renderer current. The old trace is kept as a prefix. |
| Core.Configure | src/renderer/core.ts:18-20 | Without a renderer it throws a TypeError. Otherwise the call reaches the current renderer, and that renderer's exception passes through. |
| Core.Render | src/renderer/core.ts:25-27 | Without a renderer it throws a TypeError. Otherwise it succeeds exactly when the current renderer is configured. |
| Core.Clear | src/renderer/core.ts:22-24 | It touches only the GL context. |
| Core.Flush | src/renderer/core.ts:28-30 | It touches only the GL context. |
| Core.ApplyKeepsDisposedOnce | src/renderer/core.ts:14-30 | Each call, other than a throwing `setRenderer`, keeps every renderer disposed at most once and the current renderer undisposed. |
| Core.RunDisposesOnce | src/renderer/core.ts:14-17 | Over any sequence of calls with succeeding initializers, no renderer is disposed twice. |
| Core.FirstSetRendererDisposesNothing | src/renderer/core.ts:15 | The first `setRenderer` disposes nothing. |
| Core.FailedInitDisposesTwice | src/renderer/core.ts:14-17 | After a throwing initializer, the next switch disposes the same renderer a second time. |
| Core.NewRendererStartsUnconfigured | src/renderer/core.ts:14-27 | After a switch, `render` reaches the new renderer and throws until it is configured. |
| Core.ConfigureThenRender | src/renderer/core.ts:14-27 | After a switch, `configure` reaches the new renderer, and once it succeeds `render` succeeds. |
| Reader.Int32LE | src/data/reader.ts:8-10 | A header field is a signed 32-bit value. |
| Reader.Int16LE | src/data/reader.ts:12 | A sample is a signed 16-bit value. |
| Reader.ReadTomogram | src/data/reader.ts:5-18 | Decoding succeeds exactly when the 12-byte header is present, `x*y*z >= 0`, and the samples fit in the buffer. Otherwise it throws a RangeError. The result has the header's size and `x*y*z` 16-bit samples. |
| Reader.Int32RoundTrip | src/data/reader.ts:8-10 | A 32-bit value's four bytes decode back to it. |
| Reader.Int16RoundTrip | src/data/reader.ts:12 | A 16-bit value's two bytes decode back to it. |
| Reader.SampleRoundTrip | src/data/reader.ts:12 | Each encoded sample decodes back to itself. |
| Reader.RoundTrip | src/data/reader.ts:5-18 | Decoding an encoded tomogram, followed by any trailing bytes, gives the tomogram back. |
| Reader.SampleBytesOnly | src/data/reader.ts:12 | Sample `i` depends only on bytes `12 + 2i` and `13 + 2i`, given the header. |

## Left out

- WebGL itself is not modelled: shader compilation, program linking, buffer and texture binding, attribute and uniform setup, blending and depth state. The initializer's success is a parameter of `Core.SetRenderer`, and a failure throws the error the shader helpers raise (`src/renderer/utils.ts`).
- `dispose` is recorded only as an event in the context's trace. The GL deletions it performs are not modelled.
- Floating-point values are not modelled:
  - the slab depths `0.9 - 0.2b` and `0.8 - 0.2b` appear as symbolic `Depth(b)`;
  - `threed`'s atlas texture coordinates are left out;
  - `threedtex`'s gl-matrix rotation and its `angle` counter are left out;
  - the first `drawQuads` maps vertices to clip space and divides colours by 255, and both steps are left out.
- Transfer.Window: the model computes the windowed colour exactly, in integers. The source computes it in double precision. The two agree while the intermediate products are exactly representable, which holds for 16-bit samples and slider-range windows.
- Quads.Layout, QuadStrip.Draw and Legacy.DrawQuads store vertex coordinates as integers. A `Float32Array` would round coordinates above 2^24.
- Configuration values are modelled as integers, while the source's configuration properties are `number`s. The viewer sets them from `parseInt` of slider inputs, so they are always integers there. A NaN property, which would make every `configure` refresh, and fractional window bounds or layers are not modelled.
- The state an exception leaves behind part-way through `updateCache` is not kept. For example, `quads` may already have been updated when a later allocation throws. The model discards the whole call.
- Reader.ReadTomogram assumes a little-endian host for the `Int16Array` view of the samples. It also does not model the view's alignment rule, because byte offset 12 is always aligned.
- `src/renderer/base` is not part of this model. `qstrip`, `threed` and `threedtex` are modelled on `Base2DRenderer`.
- `threedtex` calls `createProgram` in an object form, `createProgram(gl, { shaders, attribs, uniforms })`, and takes `shaders` from its result (`src/renderer/threedtex/index.ts:26-43`). The `createProgram` in `src/renderer/utils.ts:20-44` takes a shader array and two extractor functions and returns no `shaders`, so against that helper the initializer would throw a TypeError on every call. The model assumes the object-form API the file is written for, under which the initializer can succeed: `Core.SetRenderer` takes its success as a parameter for `threedtex` as for the other strategies.
- The first renderer's `clearView` and `flush`, and the context's `clear` and `flush`, only call WebGL. They are recorded as events or left out.
- `src/main.ts` (the UI, fetching the sample file, debouncing, the animation loop), the `debounce` helper, `vite.config.js` and the type-only and barrel files are outside the core.
