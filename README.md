# Shadow renderer of xeogl, modelled in Dafny

This project models `src/renderer/shadow/shadowRenderer.js`, the renderer
xeogl uses to draw meshes into a light's shadow map. The file has two parts.

- **Registry.** A module-level `renderers` map shares one renderer per hash.
  - The hash is the `;`-join of the canvas id, the clips hash, the geometry
    hash and the mesh state hash.
  - `ShadowRenderer.get` creates a renderer lazily and hands out the cached
    one on a hit.
  - `put` gives a reference back. At use count zero it destroys the program,
    evicts the entry and decrements `stats.memory.programs`.
  - A renderer whose program did not compile is never cached.
- **The `drawMesh` protocol.** State diffing against "last bound" cursors.
  - Each renderer keeps its last light, material, vertex-buffer set and
    geometry.
  - The caller's frame keeps the last program, culling, winding and line
    width.
  - A WebGL call is issued only when what it would set differs from the
    cursor.
  - The model matrix is issued on every call, whatever the cursors say.
    The clippable flag is issued on every call whose program has the
    `clippable` uniform. The draw call is issued on every call whose layout
    has something to draw: an index buffer, or, for a separate layout,
    raw positions.
  - The frame counts program binds, buffer binds and draw calls.
  - `webglContextRestored` drops the program, and the next `drawMesh`
    reallocates it through `_allocate`.

## Modules

| file | module | what it holds |
|---|---|---|
| wrappers.dfy | `Wrappers` | `Option` |
| fingerprint.dfy | `Fingerprint` | the `;`-join of the four hash parts, its inverse `Split`, and when two hashes coincide |
| types.dfy | `ShadowTypes` | programs, scenes, meshes, lights and buffers as records with ids; the WebGL command `Cmd` and its `Kind`; counting commands of a kind in a log; clip uniform locations and pushes |
| protocol.dfy | `ShadowProtocol` | the renderer and frame state as values, and each step of `drawMesh` as a function (`Allocated`, `BindStep`, `LightStep`, `MaterialStep`, …, `DrawSpec`) |
| protocol_proofs.dfy | `ShadowProtocolProofs` | `Issued`, the whole list of commands one call appends; closed forms for the state it leaves; per-kind counts |
| draw_properties.dfy | `ShadowDrawProperties` | what one call, and two consecutive calls, issue and leave behind |
| renderer.dfy | `ShadowRenderer` | classes `Gl` (the command log), `Frame` and `Renderer`, with methods for `_allocate`, `_bindProgram`, `webglContextRestored` and `drawMesh`, each proved to follow its step function |
| registry.dfy | `ShadowRegistry` | class `Registry` with the `renderers` map and the `programs` counter, `Get`, `Put`, and scenarios built from them |

How the model is set up:
- WebGL calls are entries appended to `Gl.log`.
- Matrices are opaque payloads.
- Compiling a program is the parameter `build: Program`. It carries an id,
  optional errors, and the locations the program would hand out.
- The properties of a call are stated over `Issued(c, mesh, light, build)`,
  the commands the call appends, and `DrawSpec(c, mesh, light, build)`, the
  state it leaves.
  - `c` is the renderer, frame and log before the call.
  - `CursorsAtDraw` are the renderer cursors the steps after the program
    bind compare against.
  - `FrameBound` is the frame after the bind.
- `Count(log, k)` is the number of commands of kind `k` in a log.

Some behaviour of the code runs against what the code itself sets up, and
it is modelled as written:
- `get` and `put` keep one count per holder (lines 36, 41). But `_allocate`
  also zeroes `_useCount` (line 161). The first `get` therefore hands out a
  count of exactly 1. A reallocation after a context restore, though, sets
  the count to 0 while a holder still has the renderer. Two things follow:
  - if no one else calls `get`, the holder's `put` leaves the count at -1.
    The renderer then stays cached, and `stats.memory.programs` is never
    decremented (`RestoreLeavesRendererCached`);
  - if a second holder calls `get` and then `put`, that `put` brings the
    count back to 0. It destroys the program, evicts the key and decrements
    `stats.memory.programs`, all while the first holder still draws with
    the renderer (`RestoreLetsSecondHolderEvict`).
- `_uPointSize` is never assigned anywhere in the file: `_allocate` does not
  resolve it (lines 167-181). So the point-size branch (lines 98-100) never
  fires.
- `_allocate` clears the material, vertex-buffer and geometry cursors but not
  the light cursor (lines 182-184). Only `_bindProgram` clears that one
  (line 196).
- A combined layout without an index buffer issues no draw call
  (lines 142-144).
- A reallocation inside `drawMesh` whose program fails to compile still
  draws. It keeps the previous locations and records the errors
  (lines 56-58, 162-164).

## Model

| member | source | states |
|---|---|---|
| Fingerprint.SplitJoin | src/renderer/shadow/shadowRenderer.js:21-25 | splitting a `;`-join of parts that contain no `;` gives back the parts |
| Fingerprint.HashDeterminesComponents | src/renderer/shadow/shadowRenderer.js:21-25 | for components free of `;`, two keys are equal if and only if all four components are equal |
| Fingerprint.HashCollidesOnSeparator | src/renderer/shadow/shadowRenderer.js:21-25 | a `;` inside a component lets two different meshes share one key |
| ShadowTypes.ClipUniformsPushed | src/renderer/shadow/shadowRenderer.js:206-221 | every clip triple location that is present has its uniform, with that plane's value, among the pushed commands |
| ShadowTypes.ClipUniformsOnly | src/renderer/shadow/shadowRenderer.js:206-221 | the clip pushes are only clip uniforms, at most three per resolved triple |
| ShadowRenderer.ResolveClipLocations | src/renderer/shadow/shadowRenderer.js:171-179 | the loop resolves exactly one location triple per clip plane, in order |
| ShadowRenderer.PushClipUniforms | src/renderer/shadow/shadowRenderer.js:206-221 | the loop pushes, for each resolved triple in order, the uniforms whose locations are present |
| ShadowRenderer.Renderer.constructor | src/renderer/shadow/shadowRenderer.js:9-15 | a new renderer is the allocated state of a blank one, with use count 0 |
| ShadowRenderer.Renderer.Allocate | src/renderer/shadow/shadowRenderer.js:156-185 | the program is stored and the use count zeroed; on errors only the errors are recorded; otherwise the locations are resolved and three of the four cursors cleared |
| ShadowRenderer.Renderer.BindProgram | src/renderer/shadow/shadowRenderer.js:187-223 | binds the program, counts it, clears all four cursors and pushes the clip uniforms when clip planes exist |
| ShadowRenderer.Renderer.WebglContextRestored | src/renderer/shadow/shadowRenderer.js:50-52 | only the program is dropped; every other field is unchanged |
| ShadowRenderer.Renderer.PrepareProgram | src/renderer/shadow/shadowRenderer.js:56-66 | reallocates a dropped program, then binds only when the frame last bound another program id |
| ShadowRenderer.Renderer.PushLightUniforms | src/renderer/shadow/shadowRenderer.js:68-72 | view and projection matrices go out, and the cursor moves, only for a light other than the last |
| ShadowRenderer.Renderer.ApplyMaterial | src/renderer/shadow/shadowRenderer.js:75-102 | for a new material, each frame field is set and its command issued only when it differs |
| ShadowRenderer.Renderer.BindVertexBufs | src/renderer/shadow/shadowRenderer.js:104-113 | a combined layout binds a new vertex-buffer set's positions when both buffer and attribute exist, counting the bind |
| ShadowRenderer.Renderer.BindGeometry | src/renderer/shadow/shadowRenderer.js:117-137 | a new geometry pushes its decode matrix and binds its buffers, then becomes the cursor |
| ShadowRenderer.Renderer.IssueDraw | src/renderer/shadow/shadowRenderer.js:138-153 | `drawElements` with an index buffer, else `drawArrays` for a separate layout with positions, each counted |
| ShadowRenderer.Renderer.DrawMesh | src/renderer/shadow/shadowRenderer.js:55-154 | the renderer, frame and log end as `DrawSpec` says; the program is the old one or the reallocated build; the use count is zeroed only by a reallocation |
| ShadowProtocolProofs.DrawFacts | src/renderer/shadow/shadowRenderer.js:55-154 | one call leaves the cursors naming what was drawn and the frame with the material values and counters, and appends exactly `Issued` to the log |
| ShadowProtocolProofs.DrawSummary | src/renderer/shadow/shadowRenderer.js:56-58 | after a call the renderer holds the current or the rebuilt program, its bindings are those the reallocation left, and the use count is zero after a reallocation |
| ShadowProtocolProofs.IssuedCount | src/renderer/shadow/shadowRenderer.js:55-154 | the number of commands of any non-clip kind in one call is the bind's share plus a closed form per block |
| ShadowDrawProperties.DrawBindsOnSwitch | src/renderer/shadow/shadowRenderer.js:63-66 | one program bind is issued exactly when the frame last bound a different program id, and none otherwise |
| ShadowDrawProperties.DrawRecordsProgram | src/renderer/shadow/shadowRenderer.js:63-66 | `useProgram` grows by one per bind; the frame then records the program id; a bind (lines 194-222) comes first, followed by the clip uniforms, and leaves all cursors clear |
| ShadowDrawProperties.DrawPushesLightOnChange | src/renderer/shadow/shadowRenderer.js:68-72 | view and projection matrices are each issued once when the light differs from the light cursor, never otherwise |
| ShadowDrawProperties.SameLightPushedOnce | src/renderer/shadow/shadowRenderer.js:68-72 | of two consecutive calls in one scene under the same light, the second pushes neither light matrix |
| ShadowDrawProperties.DrawSetsCullingOnChange | src/renderer/shadow/shadowRenderer.js:75-84 | culling is disabled or enabled, in the material's direction, only for a new material whose setting the frame does not hold |
| ShadowDrawProperties.DrawSetsWindingOnChange | src/renderer/shadow/shadowRenderer.js:85-93 | inside the new-material block, the winding is set only for a new material whose winding the frame does not hold |
| ShadowDrawProperties.DrawSetsLineWidthOnChange | src/renderer/shadow/shadowRenderer.js:94-97 | inside the new-material block, the line width is set only for a new material whose width the frame does not hold |
| ShadowDrawProperties.DrawRecordsMaterial | src/renderer/shadow/shadowRenderer.js:75-102 | after a new material the frame holds its culling, winding and width; after the same material the frame is unchanged; the light and material cursors name what was drawn |
| ShadowDrawProperties.DrawNeverPushesPointSize | src/renderer/shadow/shadowRenderer.js:98-100 | a renderer without a point-size location, which `_allocate` (lines 167-181) never resolves, never sets the point size |
| ShadowDrawProperties.DrawKeepsPointSizeUnresolved | src/renderer/shadow/shadowRenderer.js:167-181 | no call, reallocation included, gives a renderer a point-size location |
| ShadowDrawProperties.DrawModelMatrixOnce | src/renderer/shadow/shadowRenderer.js:103 | every call sets the model matrix exactly once |
| ShadowDrawProperties.DrawClippableOnce | src/renderer/shadow/shadowRenderer.js:114-116 | the clippable flag is set once if the program has the uniform, never otherwise |
| ShadowDrawProperties.DrawPushesDecodeOnChange | src/renderer/shadow/shadowRenderer.js:117-120 | the decode matrix goes out only on entering a new geometry, and only if the uniform exists |
| ShadowDrawProperties.DrawBindsIndicesOnChange | src/renderer/shadow/shadowRenderer.js:121-134 | the index buffer is bound only on entering a new geometry that has one for its layout |
| ShadowDrawProperties.DrawBindsPositionsOnChange | src/renderer/shadow/shadowRenderer.js:104-130 | positions are bound once for a new combined vertex-buffer set and once for a new separate-layout geometry, each only if the attribute exists |
| ShadowDrawProperties.DrawCountsBufferBinds | src/renderer/shadow/shadowRenderer.js:104-137 | `bindArray` grows by exactly the number of buffer binds; the geometry cursor, and for a combined layout the vertex-buffer cursor, then name what was drawn |
| ShadowDrawProperties.DrawIssuesAtMostOneDraw | src/renderer/shadow/shadowRenderer.js:138-153 | `drawElements` is issued if and only if the layout has an index buffer; `drawArrays` if and only if a separate layout has no indices but has positions; never both; a combined layout without indices draws nothing |
| ShadowDrawProperties.DrawCountsDrawCalls | src/renderer/shadow/shadowRenderer.js:138-153 | `drawElements` and `drawArrays` are counted once per call of each, and the texture unit is reset to 0 (line 67) |
| ShadowDrawProperties.SharedMaterialSkipsLightAndMaterial | src/renderer/shadow/shadowRenderer.js:63-102 | the next mesh of the scene, under the same light and with the same material, issues no bind, no light matrices and no material commands |
| ShadowDrawProperties.RedrawIssues | src/renderer/shadow/shadowRenderer.js:55-154 | once the frame records the program and the cursors name the mesh and light, a call issues only the model matrix, the clippable flag and the draw |
| ShadowDrawProperties.RepeatDrawIsMinimal | src/renderer/shadow/shadowRenderer.js:55-154 | drawing the same mesh under the same light straight after issues only the model matrix, the clippable flag and the draw |
| ShadowDrawProperties.RestoreThenDrawReallocates | src/renderer/shadow/shadowRenderer.js:50-58 | after a restore the next call draws with the new build, with the use count 0; a compiled build's locations are resolved afresh; a failed one keeps the old locations and records its errors |
| ShadowDrawProperties.ReallocationKeepsLightCursor | src/renderer/shadow/shadowRenderer.js:182-184 | a reallocation not followed by a bind keeps the light cursor, which only a bind (line 196) clears, so the same light's matrices are not pushed to the new program |
| ShadowRegistry.Registry.Get | src/renderer/shadow/shadowRenderer.js:19-38 | a hit returns the cached renderer with its count raised by one, and nothing else changes; a failed compile returns null and changes nothing; otherwise a fresh renderer is cached under its key with count 1 and `programs` grows by one |
| ShadowRegistry.Registry.Put | src/renderer/shadow/shadowRenderer.js:40-48 | the count drops by one; at zero the program is destroyed, the key is evicted and `programs` drops by one; otherwise nothing else changes |
| ShadowRegistry.ShareOnSameKey | src/renderer/shadow/shadowRenderer.js:26-37 | two meshes with one key share one renderer, counted twice, and one program |
| ShadowRegistry.ReleaseThenReacquire | src/renderer/shadow/shadowRenderer.js:40-48 | after the last `put`, the next `get` builds a fresh renderer with count 1 |
| ShadowRegistry.GetRestoreDraw | src/renderer/shadow/shadowRenderer.js:56-58 | a first get, a restore and a draw leave the renderer cached under its key with the new build and a use count of 0, though one holder remains |
| ShadowRegistry.RestoreLeavesRendererCached | src/renderer/shadow/shadowRenderer.js:161 | get, restore, draw, put leaves the count at -1, because the reallocation zeroes it; the renderer stays cached and `programs` still counts it |
| ShadowRegistry.RestoreLetsSecondHolderEvict | src/renderer/shadow/shadowRenderer.js:161 | after get, restore and draw, a second holder's get and put destroy the program, evict the key and restore `programs`, while the first holder still has the renderer |

## Left out

- WebGL itself is not modelled. `gl.uniform*`, `enable`/`disable`, `frontFace`, `lineWidth`, `bindArrayBuffer`, `bind`, `drawElements` and `drawArrays` are foreign calls, recorded only as log entries.
- Matrix and clip contents (`Float32Array`s) are opaque payloads. So are the shadow view and projection matrices, and the GL constants (`CCW`/`CW`, `UNSIGNED_SHORT`/`FLOAT`, `TRIANGLES`). The quantized flag and the ccw flag stand for those constants.
- `ShadowShaderSource` and `Program` (compile, link, `getLocation`, `getAttribute`, `destroy`) are outside this file. Compiling becomes the `build` parameter, which yields errors or the locations it would hand out. shadowShaderSource.js and program.js are not part of this model.
- `console.log` of the errors in `get` (line 30) is I/O and is left out.
- The four hash components are taken as opaque strings; computing them (`canvas.id`, `_clipsState.getHash()`, the state hashes) is left out. The `;`-join is modelled.
- The undefined `mesh` in `_bindProgram` (lines 188-190) is left out. It is unreachable, because `drawMesh` allocates first.
- `_shaderSource` and `_scene`: the model takes the renderer's scene to be the mesh's scene. The clip planes `_bindProgram` reads are therefore the mesh's scene's planes.
- ShadowRenderer.Renderer.DrawMesh requires that, once there are clip planes, the renderer has resolved no more clip triples than the scene has planes (`ClipsFit`). Beyond the last plane, `clipsState.clips[i]` is `undefined`. `_bindProgram` throws a TypeError only when a location of that triple is present, because lines 210-219 test each location before reading `clip.active`, `clip.pos` or `clip.dir`. The model does not represent the throw, nor the harmless case of an extra triple with no locations.
- `_uClips` is created as `{}` (line 171), and a plain object has no `push`. As written, `_allocate` therefore throws a TypeError at line 174 whenever the scene has clip planes. The constructor then throws inside `get` before anything is cached (lines 28-33), and the `_bindProgram` loop (line 206) never runs. The model does not represent that throw. It assumes `_uClips` is an array, one location triple per clip plane in order, and it is that assumed loop which `ResolveClipLocations`, `PushClipUniforms` and the clip lemmas describe.
- A material's `lineWidth` and `pointSize` are JS numbers, and are modelled as `int`. The model keeps only their equality test and their pass-through to WebGL. It loses fractional widths, and it loses NaN: since NaN `!==` NaN, the source would re-issue `lineWidth` for every new material whose width is NaN.
- `stats` is a single global shared by all renderer kinds. It is modelled as the registry's own `programs` counter.
- Frame reset between frames belongs to frame.js and is not part of this model. `Frame.constructor` gives the start state.
