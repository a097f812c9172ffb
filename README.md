# image-to-sdf, modelled in Dafny

`image-to-sdf` turns an image into a signed distance field (SDF) on the GPU with the jump
flooding algorithm (JFA), and draws outlines and drop shadows from such a field. This project
models the CPU side of that library: the option validation, the order in which render targets,
draw calls, uniform buffers and textures are created, bound, drawn and deleted, the schedule of
jump-flood passes, and the colour parsing of the demo page. The pixels the shaders compute are
outside the model.

The GPU context (a PicoGL `App`) is the class `Gpu.App`:
- `objects` maps each live handle to a texture, framebuffer, vertex buffer, vertex array, draw call
  or uniform buffer.
- `next` is the next handle to hand out. Handles come out in order and are never reused, so every
  contract can name every object by its handle.
- `target` is the framebuffer that is bound.
- `log` records the commands that reach the GPU: clears, draws (with a snapshot of the draw call's
  uniforms), deletions, uniform-buffer slot writes and uploads, read-backs, canvas encodings and
  context loss.

The canvas and `document.body` are the classes `Gpu.Canvas` and `Gpu.Document`. Each stateful
entity of the source is a class whose methods update their fields:
- `SdfGenerator.SDFGenerator` (src/SDFGenerator.ts);
- `GetSdf.SDFGenerator` (src/getSDF.ts);
- `Outline.OutlineRenderer` (src/OutlineRenderer.ts).

Each of their methods is proved equal to a specification function of its inputs and old state,
and the properties of the library are lemmas about those functions.

Modules:
- `Wrappers`: `Option` and `Result`; a thrown message is `Err`.
- `Gpu`: the GPU context, its objects and commands, the canvas and the document.
- `SdfOptions`: `validateOptions` and the viewport arithmetic shared by both generators.
- `Utils`: src/utils.ts. The full-screen plane, its geometry, render targets and draw calls.
- `JumpFlood`: `drawSDF`. One JFA pass is a seed draw followed by P + 1 jump draws, with
  P = ceil(log2(spread)). It is written as the loop that its `requestAnimationFrame` chain
  performs.
- `SdfGenerator`: src/SDFGenerator.ts.
- `GetSdf`: src/getSDF.ts. This is a second version of the generator with a different teardown.
  Its merge draw call shares the SDF draw call's slot.
- `Outline`: src/OutlineRenderer.ts.
- `Stroke`: src/stroke.ts.
- `Hex`: `hexToRgba` from web/utils.ts, with `parseInt(_, 16)`.

The following behaviours of the code are modelled as written:
- A JFA pass issues P + 2 draws: the seed draw, then one jump for each exponent from P down to 0.
- `pixelRatio` = 0 is accepted, although its error message says "> 0".
- A failing height check reports the width message.
- `dispose` throws no error on a later use.
- In src/getSDF.ts, `#getMergeDrawCall` tests and fills the `#drawCall` slot. So in signed mode
  the merge draw is issued by the SDF draw call itself, still using the SDF shader. The
  generator's invariant keeps that slot holding a getSDF.frag draw call, because `render`
  fills it through `#getSDFDrawCall` before the merge. Only a call on an empty slot, which
  `render` never makes, would put a merge-shader draw call there.
- There is no `redraw` operation in the code, so none is modelled.

## Model

| member | source | states |
|---|---|---|
| SdfOptions.ValidateOptions | src/SDFGenerator.ts:37-74 | Missing fields take the defaults: image size, spread 10, padding 0, pixelRatio 1, unsigned. Supplied fields are returned unclamped. The result is accepted iff spread >= 1, padding >= 0, pixelRatio >= 0, width >= 1 and height >= 1. Otherwise the first violated check, in source order, names the error. |
| SdfOptions.ValidateDefaults | src/SDFGenerator.ts:42-48 | With no options, an image of at least 1×1 gets its own size, spread 10, padding 0, ratio 1 and unsigned. |
| SdfOptions.HeightErrorSaysWidth | src/SDFGenerator.ts:59-64 | A bad height and a bad width give the same message. |
| SdfOptions.ZeroPixelRatioAccepted | src/SDFGenerator.ts:56-58 | A pixel ratio of 0 passes validation. |
| SdfOptions.ViewportExtent | src/SDFGenerator.ts:100-101 | The viewport extent is non-negative. It is zero exactly when pixelRatio is 0. |
| SdfOptions.ViewportCoversImage | src/SDFGenerator.ts:100-105 | The viewport is the scaled image plus twice the scaled padding, so it is never smaller than the scaled image. |
| SdfOptions.ViewportWidth | src/SDFGenerator.ts:100 | `viewportWidth` is the padded width times pixelRatio. It covers the scaled image and is zero exactly when pixelRatio is 0. |
| SdfOptions.ViewportHeight | src/SDFGenerator.ts:101 | `viewportHeight` is the padded height times pixelRatio. It covers the scaled image and is zero exactly when pixelRatio is 0. |
| SdfOptions.BufferLength | src/SDFGenerator.ts:201 | The read-back buffer's length is the viewport area times 4, truncated to an integer. |
| SdfOptions.BufferLengthWhole | src/SDFGenerator.ts:201 | A whole-pixel viewport holds exactly four floats per pixel. |
| Utils.CreatePlane | src/utils.ts:4-41 | The plane has six vertices with three coordinates each, and six UV pairs. |
| Utils.PlaneVertices | src/utils.ts:8-35 | Vertex i lies on its corner (LT, LB, RT, RT, LB, RB) at z = 0 and carries that corner's UV. |
| Utils.PlaneCoordinates | src/utils.ts:5-33 | Every x is ±width/2, every y is ±height/2 and every z is 0. |
| Utils.PlaneUvFollowsPosition | src/utils.ts:8-35 | Each UV is (x/w + 1/2, y/h + 1/2), so every component is 0 or 1. |
| Utils.PlaneTriangles | src/utils.ts:8-33 | The two triangles share exactly the LB–RT diagonal and together cover all four corners. |
| Utils.UnitPlaneSpan | src/utils.ts:58-59 | The 2×2 plane spans exactly [-1, 1] on both axes. |
| Utils.CreatePlaneGeometry | src/utils.ts:58-67 | Creates two vertex buffers (xyz and uv of the 2×2 plane) and a vertex array over them on three fresh handles. Nothing else changes. |
| Utils.RenderTargetAt | src/utils.ts:69-76 | A render target's framebuffer is the handle after its colour texture's. |
| Utils.CreateRenderTarget | src/utils.ts:69-76 | Creates a fresh RGBA32F clamp-to-edge texture of the app's current size and a framebuffer on it. No command is logged. |
| Utils.CreateDrawCall | src/utils.ts:43-56 | Creates a fresh draw call of the given shader and geometry whose only uniform is `resolution` = [width, height]. Omitted sizes give [undefined, undefined]. |
| JumpFlood.Pow2 | src/SDFGenerator.ts:257 | 2^k is at least 1. |
| JumpFlood.PassPower | src/SDFGenerator.ts:240 | ceil(log2(spread)) is the exponent k with 2^(k-1) < spread <= 2^k. |
| JumpFlood.PassPowerIsLeast | src/SDFGenerator.ts:240 | No smaller exponent covers the spread. |
| JumpFlood.PassPowerExamples | src/SDFGenerator.ts:240 | Spreads 1, 2, 3, 8, 9 and 100 give exponents 0, 1, 2, 3, 4 and 7. |
| JumpFlood.Jumps | src/SDFGenerator.ts:256-274 | A run of jumps from exponent P down to 0 has P + 1 draws. |
| JumpFlood.Passes | src/SDFGenerator.ts:246-279 | One pass has P + 2 draws. |
| JumpFlood.Events | src/SDFGenerator.ts:252-253 | Each draw issues two commands (clear, then draw). |
| JumpFlood.JumpAt | src/SDFGenerator.ts:257-267 | Jump j writes one target and samples the other, alternating with the parity of j. Its step is 2^(P-j). It is flagged first only when j = 0. Every uniform the pass does not set is left unchanged. |
| JumpFlood.EventsShape | src/SDFGenerator.ts:252-265 | Draw i is command 2i + 1 and is preceded by a clear of its own target. A run of draws deletes nothing. |
| JumpFlood.EventsAppend | src/SDFGenerator.ts:247-278 | Successive frames issue their commands one after another. |
| JumpFlood.JfaRun | src/SDFGenerator.ts:229-281 | `drawSDF` returns one of its two fresh targets and deletes the other. |
| JumpFlood.PassSchedule | src/SDFGenerator.ts:244-268 | Draw 0 is the seed: phase 0, writing target a from the source texture. Draw i >= 1 is a jump: phase 1, step 2^(P+1-i), first exactly when i = 1. It writes b when i is odd and a when i is even, and samples the other target. Every draw carries the pass's `isPositive`. |
| JumpFlood.JumpsHalve | src/SDFGenerator.ts:257-268 | Each jump step halves the previous one. The first step is the least power of two covering the spread, and the last step is 1. |
| JumpFlood.RunShape | src/SDFGenerator.ts:229-281 | One pass issues P + 2 draws, then deletes the spare target's framebuffer as its very last command. The returned target is the last one written, and its framebuffer is not the deleted one. |
| JumpFlood.RunUniforms | src/SDFGenerator.ts:244-268 | After a pass the draw call holds phase 1, step 1, the pass's `isPositive`, and samples the spare target. |
| JumpFlood.RunDraws | src/SDFGenerator.ts:229-281 | A pass issues P + 2 draws in 2P + 5 commands and ends by deleting its spare. |
| JumpFlood.RunKeeps | src/SDFGenerator.ts:244-268 | A pass sets only phase, jump, isFirstJump, tex and isPositive. Every other uniform of the draw call, `useUnsignedFormat` included, is present after the pass iff it was before, with the same value. |
| JumpFlood.DrawSeed | src/SDFGenerator.ts:248-255 | The seed branch sets phase 0, binds and clears its target, and draws sampling the source. Only the draw call's uniforms change. |
| JumpFlood.DrawJump | src/SDFGenerator.ts:256-265 | The jump branch sets phase, jump and isFirstJump, binds and clears the write target, and draws sampling the read target. |
| JumpFlood.DrawOnce | src/SDFGenerator.ts:247-278 | One call of `draw()` performs exactly the first remaining draw and leaves the rest. It reports completion exactly when none are left. |
| JumpFlood.DrawLoop | src/SDFGenerator.ts:246-280 | The frame chain performs exactly the pass's draws in order, deletes the target it did not write last, and resolves with the one it did. |
| JumpFlood.DrawFrames | src/SDFGenerator.ts:246-278 | The frames before the last issue every remaining draw of the pass and change only the draw call's uniforms. |
| JumpFlood.CreateRenderTargets | src/SDFGenerator.ts:237 | Two render targets are created on four fresh handles, with nothing logged. |
| JumpFlood.DrawSdf | src/SDFGenerator.ts:229-281 | `drawSDF` issues exactly `JfaRun`'s commands and returns its output. It consumes four handles. The objects afterwards are both targets minus the spare framebuffer, and the draw call with the pass's final uniforms. |
| JumpFlood.FloodFrom | src/SDFGenerator.ts:244-280 | Setting `isPositive` and running the loop issues every draw of the pass with that flag, then the deletion of the spare. |
| JumpFlood.LoopIsRun | src/SDFGenerator.ts:237-281 | The loop's draws on fresh targets are `JfaRun`'s: same output, spare and commands. |
| JumpFlood.AfterRun | src/SDFGenerator.ts:229-281 | After a pass the draw call holds the pass's final uniforms. |
| SdfGenerator.Prepared | src/SDFGenerator.ts:104-121 | After setup the source texture and the SDF draw call are live, and the draw call samples the texture with the validated padding and spread. |
| SdfGenerator.Merged | src/SDFGenerator.ts:127-130 | The merge draw call (created with the merge shader only when its slot is empty) samples the positive output as tex1 and the negative one as tex2. |
| SdfGenerator.SignedObjects | src/SDFGenerator.ts:123-130 | After signed mode exactly the objects of both passes, the third target and the merge draw call are live. |
| SdfGenerator.FinishEffect | src/SDFGenerator.ts:196-226 | The end of `render` (read-back, or redraw and encode) creates and frees no object and takes no handle. |
| SdfGenerator.FinishShape | src/SDFGenerator.ts:196-226 | The read-back ends on reading the output. The image path ends on encoding the canvas after exactly one more draw. |
| SdfGenerator.AfterRunKeepsSlot | src/SDFGenerator.ts:124-141 | A pass keeps every earlier draw call a draw call of the same shader and geometry. |
| SdfGenerator.PassesKeep | src/SDFGenerator.ts:124-125 | Both passes leave untouched every object that existed before them, other than the SDF draw call. |
| SdfGenerator.PassesHas | src/SDFGenerator.ts:124-125 | After both passes, exactly the earlier objects and both passes' targets minus their spare framebuffers are live. |
| SdfGenerator.AfterRunTargets | src/SDFGenerator.ts:229-281 | A pass leaves both of its textures and its output framebuffer live, and deletes its spare framebuffer. |
| SdfGenerator.UnsignedShape | src/SDFGenerator.ts:140-147 | Unsigned mode issues P + 2 draws, plus one for an image. It consumes four handles and keeps the output alive. The spare is deleted before the end. |
| SdfGenerator.SignedDraws | src/SDFGenerator.ts:123-139 | Signed mode issues 2(P + 2) pass draws and one merge draw, plus one more for an image. |
| SdfGenerator.SignedEnding | src/SDFGenerator.ts:123-139 | Signed mode consumes ten handles, eleven when the merge draw call is new. It ends on reading back the merge target or encoding the canvas. |
| SdfGenerator.PassesDraws | src/SDFGenerator.ts:124-125 | Each pass of signed mode issues P + 2 draws in 2P + 5 commands. |
| SdfGenerator.MergeDraws | src/SDFGenerator.ts:132-133 | The merge step draws once. |
| SdfGenerator.MergeDraw | src/SDFGenerator.ts:127-133 | The merge step clears the third target and draws the merge draw call into it. The draw samples the positive output as tex1 and the negative one as tex2. |
| SdfGenerator.SignedHas | src/SDFGenerator.ts:123-133 | Lists which handles are live after signed mode. |
| SdfGenerator.MergedHas | src/SDFGenerator.ts:127-128 | The merge step adds its target's two handles and, when it creates it, the merge draw call. |
| SdfGenerator.AfterRunHas | src/SDFGenerator.ts:237-271 | A pass adds its four handles except the spare framebuffer. |
| SdfGenerator.SignedTargets | src/SDFGenerator.ts:123-135 | Both pass outputs and the merge target stay alive. Both spare framebuffers are gone. |
| SdfGenerator.SDFGenerator.constructor | src/SDFGenerator.ts:86-90 | Creates a detached 300×150 canvas and an app on it holding only the plane geometry, with both memo slots empty. |
| SdfGenerator.SDFGenerator.Render | src/SDFGenerator.ts:92-148 | Invalid options give the validation error and change nothing. Otherwise the canvas and the app are resized to the viewport. The commands, live objects and handles are those of the signed or unsigned specification. The result is a buffer of `BufferLength` floats or an image of the canvas. A draw call that had `useUnsignedFormat` set still has it. |
| SdfGenerator.SDFGenerator.RenderValid | src/SDFGenerator.ts:100-147 | With valid options, render matches setup followed by the signed or unsigned effect. |
| SdfGenerator.PreparedKeepsFlags | src/SDFGenerator.ts:104-121 | Setup leaves every draw call that has `useUnsignedFormat` set to true still flagged. |
| SdfGenerator.RunKeepsFlags | src/SDFGenerator.ts:229-281 | A JFA pass leaves every flagged draw call flagged, its own draw call included. |
| SdfGenerator.MergedKeepsFlags | src/SDFGenerator.ts:127-133 | The merge step leaves every flagged draw call flagged. |
| SdfGenerator.FinishKeepsFlags | src/SDFGenerator.ts:196-226 | The end of `render` (read-back, or redraw with the flag and encode) leaves every flagged draw call flagged. |
| SdfGenerator.UnsignedKeepsFlags | src/SDFGenerator.ts:140-147 | The unsigned branch leaves every flagged draw call flagged. |
| SdfGenerator.PassesKeepFlags | src/SDFGenerator.ts:124-125 | The two passes of the signed branch leave every flagged draw call flagged. |
| SdfGenerator.SignedKeepsFlags | src/SDFGenerator.ts:123-139 | The signed branch leaves every flagged draw call flagged. |
| SdfGenerator.RenderKeepsFlags | src/SDFGenerator.ts:218-221 | Once `#getImage` has set `useUnsignedFormat` on a memoised draw call, no later `render` resets it. Setup and either branch keep every flagged draw call flagged. |
| SdfGenerator.SDFGenerator.GetSdf | src/SDFGenerator.ts:150-155 | `getSDF` is `render` with the read-back. |
| SdfGenerator.SDFGenerator.GetSdfImage | src/SDFGenerator.ts:157-162 | `getSDFImage` is `render` producing an image. |
| SdfGenerator.SDFGenerator.Setup | src/SDFGenerator.ts:100-118 | Resizes to the viewport, uploads the source on a fresh handle, takes the memoised SDF draw call and binds src, padding and spread. |
| SdfGenerator.SDFGenerator.RenderUnsigned | src/SDFGenerator.ts:140-147 | The unsigned branch performs exactly `UnsignedEffect`. |
| SdfGenerator.SDFGenerator.RenderSigned | src/SDFGenerator.ts:123-139 | The signed branch performs exactly `SignedEffect`. |
| SdfGenerator.SDFGenerator.SignedPasses | src/SDFGenerator.ts:124-125 | Runs the positive pass, then the negative one starting from the uniforms the first pass left. |
| SdfGenerator.SDFGenerator.Finish | src/SDFGenerator.ts:135-146 | The end of either branch performs exactly `FinishEffect`. |
| SdfGenerator.SDFGenerator.MergeStep | src/SDFGenerator.ts:127-133 | Creates the third target and the merge draw call (memoised), binds both outputs, then clears and draws once. |
| SdfGenerator.SDFGenerator.GetSdfDrawCall | src/SDFGenerator.ts:169-180 | The first call creates the draw call with resolution [width, height]. Later calls return the same one unchanged, whatever size they ask for. |
| SdfGenerator.SDFGenerator.GetMergeDrawCall | src/SDFGenerator.ts:182-193 | The same memoisation, on the merge slot with the merge shader. |
| SdfGenerator.SDFGenerator.GetFloat32Array | src/SDFGenerator.ts:196-215 | Reads the framebuffer into a fresh array of `BufferLength` floats and changes no object. |
| SdfGenerator.SDFGenerator.GetImage | src/SDFGenerator.ts:218-226 | Clears the canvas, draws once with `useUnsignedFormat` (which stays set) and encodes the canvas. |
| SdfGenerator.SDFGenerator.Dispose | src/SDFGenerator.ts:164-167 | Loses the context and detaches the canvas. |
| GetSdf.UnsignedDrawn | src/getSDF.ts:136-138 | Unsigned mode runs one positive pass, and its output is the result. |
| GetSdf.SignedDrawn | src/getSDF.ts:123-135 | Signed mode runs two passes, then a third target drawn by the SDF draw call sampling both outputs. |
| GetSdf.Branch | src/getSDF.ts:123-138 | The `if (signed)` block is the signed or unsigned specification. |
| GetSdf.Teardown | src/getSDF.ts:140-174 | Reading back logs the read and detaches the canvas. The image path redraws with `useUnsignedFormat`, encodes, detaches and loses the context. |
| GetSdf.UnsignedDrawnShape | src/getSDF.ts:136-138 | Unsigned mode issues P + 2 draws, consumes four handles and keeps its output alive. |
| GetSdf.SignedDrawnShape | src/getSDF.ts:123-135 | Signed mode issues 2(P + 2) + 1 draws and consumes ten handles, because no merge draw call is created once the SDF one exists. It ends on the third target. |
| GetSdf.SharedMergeDraw | src/getSDF.ts:127-133 | The merge draw is issued by the SDF draw call into the third target, with tex1 and tex2 added to the uniforms the passes left (JFA uniforms). The draw call keeps its shader and geometry, so when it is the SDF draw call the merge runs the SDF shader. |
| GetSdf.SignedDrawnLast | src/getSDF.ts:124-133 | The branch ends on the merge draw, and the draw call keeps that draw's uniforms. |
| GetSdf.TeardownShape | src/getSDF.ts:140-174 | Only the image path draws again. Reading back ends the commands. The image path's last command is the context loss. |
| GetSdf.RenderDraws | src/getSDF.ts:89-175 | `render` issues P + 2 draws unsigned and 2(P + 2) + 1 signed, plus one for an image. |
| GetSdf.SDFGenerator.constructor | src/getSDF.ts:83-87 | Creates a detached 300×150 canvas and an app holding only the plane, with both slots empty. |
| GetSdf.SDFGenerator.Render | src/getSDF.ts:89-175 | Invalid options give the error and change nothing. Otherwise the commands, objects and handles are those of setup, `Branch` and `Teardown`. The draw call that runs both passes and the merge is the SDF-shader one. The canvas is always detached, and the merge slot stays empty. |
| GetSdf.SDFGenerator.RenderValid | src/getSDF.ts:97-174 | With valid options, render matches setup, then `Branch`, then `Teardown`. |
| GetSdf.SDFGenerator.GetSdf | src/getSDF.ts:177-182 | `getSDF` is `render` with the read-back. |
| GetSdf.SDFGenerator.GetSdfImage | src/getSDF.ts:184-189 | `getSDFImage` is `render` producing an image. |
| GetSdf.SDFGenerator.Setup | src/getSDF.ts:97-118 | Resizes, uploads the source, takes the SDF draw call and binds src, padding and spread. |
| GetSdf.SDFGenerator.RenderSigned | src/getSDF.ts:123-135 | The signed block performs exactly `SignedDrawn`. |
| GetSdf.SDFGenerator.BothPasses | src/getSDF.ts:124-125 | Runs the positive pass, then the negative one. |
| GetSdf.SDFGenerator.MergeStep | src/getSDF.ts:127-133 | Creates the third target, uses the SDF draw call as the merge one, binds both outputs, then clears and draws once. |
| GetSdf.SDFGenerator.Finish | src/getSDF.ts:140-174 | The end of `render` performs exactly `Teardown`. |
| GetSdf.SDFGenerator.GetSdfDrawCall | src/getSDF.ts:193-204 | Creates the SDF draw call on first use, then returns it unchanged. |
| GetSdf.SDFGenerator.GetMergeDrawCall | src/getSDF.ts:206-217 | Tests and fills the SDF slot, not the merge slot. When the SDF slot is filled, it returns that draw call and the invariant holds. Only on an empty slot does it create a merge-shader draw call there, and then the slot holds the merge shader. |
| GetSdf.SDFGenerator.Dispose | src/getSDF.ts:191 | `dispose()` is a no-op: the generator, its app and its canvas are unchanged. |
| GetSdf.GetSdfInner | src/getSDF.ts:223-230 | Creates a fresh generator and renders with it. |
| Outline.ValidateOutlineOpts | src/OutlineRenderer.ts:18-38 | Never throws. Each missing field takes its default: alpha 1, outline width 10 and softness 0.5 in red, shadow offset (10, 10), width 30 and softness 0.5 in red. |
| Outline.SdfExtentIsViewport | src/OutlineRenderer.ts:86-93 | With the options the SDF was generated with, the declared SDF texture size equals the generator's viewport. |
| Outline.OutlineDefaults | src/OutlineRenderer.ts:18-38 | With no options: alpha 1, outline width 10 and softness 0.5 in red, shadow offset (10, 10), width 30 and softness 0.5 in red. |
| Outline.OutlineRoundTrip | src/OutlineRenderer.ts:18-38 | A complete record comes back unchanged, and validating twice changes nothing more. |
| Outline.OutlinePassThrough | src/OutlineRenderer.ts:19-26 | A supplied field is returned as given, whatever the others hold. |
| Outline.OutlineSlots | src/OutlineRenderer.ts:124-132 | Exactly one value is written per layout slot. |
| Outline.OutlineSlotsFit | src/OutlineRenderer.ts:113-132 | Each slot gets a value of its declared kind, and each option lands in its own slot. |
| Outline.RenderEventsShape | src/OutlineRenderer.ts:69-102 | A render writes slots 0–7 in order, uploads the buffer, clears once, draws once and deletes both textures last. |
| Outline.OutlineRenderer.constructor | src/OutlineRenderer.ts:47-51 | Creates a detached 300×150 canvas and an app holding only the plane, with nothing memoised. |
| Outline.OutlineRenderer.Render | src/OutlineRenderer.ts:53-103 | The canvas becomes the image scaled by pixelRatio, with the image's CSS size. The buffer and the draw call are memoised. The buffer holds exactly this render's options. The draw call's uniforms are its earlier ones plus the block, resolution, SDF options and both textures. Both textures are deleted again. The two handles taken last were created as the image texture and the SDF texture of the padded, scaled size. |
| Outline.OutlineRenderer.Paint | src/OutlineRenderer.ts:69-102 | Everything after sizing: commands `RenderEvents`, with only the buffer and the draw call changed. The two handles taken last were created as the image texture and the SDF texture. |
| Outline.OutlineRenderer.Size | src/OutlineRenderer.ts:62-67 | Sizes the canvas and the app to the image times pixelRatio, with the image's CSS size. |
| Outline.OutlineRenderer.Prepare | src/OutlineRenderer.ts:69-77 | Fills the buffer, takes the draw call and binds the block, resolution, padding, spread and isSigned. |
| Outline.OutlineRenderer.DrawImages | src/OutlineRenderer.ts:79-102 | Creates exactly two objects: the image texture and the SDF texture of the padded, scaled size. Binds them, clears, draws once and deletes both. |
| Outline.OutlineRenderer.BindTextures | src/OutlineRenderer.ts:80-95 | Creates the image texture and the SDF texture (declared with the padded, scaled size) under the next two handles. Binds them as src and sdf. |
| Outline.OutlineRenderer.BindOptions | src/OutlineRenderer.ts:72-77 | Binds the block, resolution, padding, spread and isSigned. No other uniform changes. |
| Outline.OutlineRenderer.Clear | src/OutlineRenderer.ts:105-108 | Detaches the canvas and loses the context. |
| Outline.OutlineRenderer.CreateUniformBuffer | src/OutlineRenderer.ts:110-137 | Returns the memoised buffer or creates one of the `OutlineOpts` layout. All eight slots are rewritten in order and uploaded, so it holds exactly these options. |
| Outline.OutlineRenderer.CreateDrawCall | src/OutlineRenderer.ts:139-146 | Returns the memoised draw call, or creates one of the outline shader on the plane with resolution [undefined, undefined]. |
| Outline.FillBuffer | src/OutlineRenderer.ts:124-133 | Writing all eight slots and uploading leaves the buffer holding exactly the given values. |
| Outline.WriteEightSlots | src/OutlineRenderer.ts:124-132 | Logs eight slot writes in order, and the buffer gains those slots. |
| Outline.AllSlotsWritten | src/OutlineRenderer.ts:124-132 | Writing slots 0–7 over a buffer with no other slot leaves exactly the new values. |
| Stroke.ValidateOutlineOptions | src/stroke.ts:16-34 | Never throws. Each missing field takes its default: alpha 1, a red stroke of width 10, and a red shadow of width 30 offset (10, 10). |
| Stroke.StyleDefaults | src/stroke.ts:16-34 | With no options: alpha 1, a red stroke of width 10, and a red shadow of width 30 offset (10, 10). |
| Stroke.StyleRoundTrip | src/stroke.ts:16-34 | A complete style comes back unchanged, and validating twice changes nothing more. |
| Stroke.StylePassThrough | src/stroke.ts:19-24 | A supplied field is returned as given. |
| Stroke.StrokeSlots | src/stroke.ts:81-87 | Exactly one value is written per layout slot. |
| Stroke.StrokeSlotsFit | src/stroke.ts:73-87 | Each slot gets a value of its declared kind. |
| Stroke.StrokeEventsShape | src/stroke.ts:81-114 | Slots 0–5 are written in order and uploaded, then the canvas is cleared and drawn exactly once, last. |
| Stroke.UniformsBind | src/stroke.ts:100-107 | The samplers name textures 0 and 1, the block names buffer 2, and resolution is the validated size. |
| Stroke.DrawReadsLiveObjects | src/stroke.ts:57-107 | Every sampler and block names a live object of the right kind. The buffer holds the style. The SDF texture has the viewport size that `getSDF` renders at. |
| Stroke.DrawOutlines | src/stroke.ts:36-115 | Invalid SDF options throw before anything is created or appended. Otherwise a fresh canvas of the size times pixelRatio (CSS size: the size) is appended to the page, and a fresh app on it holds exactly `StrokeObjects` and logged exactly `StrokeEvents`. |
| Stroke.Paint | src/stroke.ts:57-114 | On a fresh app: seven handles, objects `StrokeObjects`, commands `StrokeEvents`. |
| Stroke.Upload | src/stroke.ts:57-88 | Creates both textures and the filled buffer on handles 0–2. |
| Stroke.Bind | src/stroke.ts:100-107 | Binds the block, the options and both textures. The draw call's uniforms become `StrokeUniforms`. |
| Stroke.BindOptions | src/stroke.ts:100-105 | Binds the block, resolution, padding, spread and isSigned. |
| Stroke.FillBuffer | src/stroke.ts:81-88 | Writing the six slots of a new buffer and uploading leaves it holding exactly the style. |
| Stroke.WriteSixSlots | src/stroke.ts:81-87 | Logs six slot writes in order. |
| Gpu.SlotWrites | src/OutlineRenderer.ts:124-132 | One write per slot, in slot order. |
| Gpu.SlotMap | src/OutlineRenderer.ts:124-133 | Slot i holds the i-th value and nothing else is written. |
| Gpu.WriteFourSlots | src/stroke.ts:82-85 | Writes four consecutive slots in order. |
| Gpu.NoDraws | src/stroke.ts:81-88 | Slot writes draw nothing. |
| Gpu.Canvas.constructor | src/stroke.ts:46 | `createElement("canvas")` is 300×150, with no CSS size, and detached. |
| Gpu.Canvas.Remove | src/SDFGenerator.ts:166 | Detaches the canvas and keeps its size. |
| Gpu.Document.AppendChild | src/stroke.ts:51 | The canvas is appended after those already in the body, and is attached. |
| Gpu.App.constructor | src/stroke.ts:54 | The app is sized like its canvas, draws to the screen, holds nothing and has created nothing. |
| Gpu.App.Resize | src/SDFGenerator.ts:103 | Sets the drawing-buffer size only. |
| Gpu.App.Create | src/utils.ts:70-75 | Stores the object under a fresh handle and records it as created there. Every other App operation leaves that record unchanged. |
| Gpu.App.Uniform | src/SDFGenerator.ts:119-121 | Sets exactly one uniform of one draw call. |
| Gpu.App.DrawFramebuffer | src/SDFGenerator.ts:132 | Binds the target. |
| Gpu.App.Clear | src/SDFGenerator.ts:132 | Logs a clear of the bound target. |
| Gpu.App.Draw | src/SDFGenerator.ts:133 | Logs a draw into the bound target with the draw call's current uniforms. |
| Gpu.App.Delete | src/SDFGenerator.ts:271 | Frees exactly one object. |
| Gpu.App.SetSlot | src/OutlineRenderer.ts:125 | Writes one slot of a uniform buffer. |
| Gpu.App.UpdateBuffer | src/OutlineRenderer.ts:133 | Logs the upload. |
| Gpu.App.ReadPixels | src/SDFGenerator.ts:196-215 | Returns an array of exactly the requested length and logs the read. |
| Gpu.App.ToDataUrl | src/SDFGenerator.ts:224 | Encodes the canvas at its current size. |
| Gpu.App.LoseContext | src/SDFGenerator.ts:165 | Marks the context lost. |
| Hex.HexToRgba | web/utils.ts:1-12 | Throws exactly when the string does not have 7 characters, with the length message. Otherwise alpha is passed through. |
| Hex.ParseInt16 | web/utils.ts:8-10 | `parseInt(s, 16)`: a string with no hex digit is NaN. A string that starts with a hex digit (and not `0x`) is a non-negative number. |
| Hex.ParseInt16Below | web/utils.ts:8-10 | A number read from s is smaller in magnitude than 16^(length of s). |
| Hex.DigitsBelow | web/utils.ts:8-10 | n hex digits are worth less than 16^n. |
| Hex.HexPrefix | web/utils.ts:8-10 | `parseInt` reads the longest run of hex digits and stops at the first other character. |
| Hex.ParseTwoDigits | web/utils.ts:8-10 | Two hex digits read as 16·first + second. |
| Hex.ParseDigitThenOther | web/utils.ts:8-10 | A digit followed by a non-digit reads as that one digit. |
| Hex.ParseNonDigit | web/utils.ts:8-10 | A pair that starts with neither a digit, white space nor a sign is NaN. |
| Hex.ChannelsInRange | web/utils.ts:8-11 | With six hex digits every channel is a number in [0, 1]. |
| Hex.FirstCharIgnored | web/utils.ts:8-10 | The first character (normally `#`) is never read. |
| Hex.Digit | web/utils.ts:8-10 | Produces a hex digit whose value is the given one. |
| Hex.HexByte | web/utils.ts:8-10 | Writes a byte as two hex digits. |
| Hex.HexByteRoundTrip | web/utils.ts:8-10 | Writing a byte as two digits and parsing it gives the byte back. |
| Hex.HexToRgbaRoundTrip | web/utils.ts:1-12 | `#rrggbb` built from three bytes, in either case, gives each byte over 255 in its own channel. |
| Hex.Black | web/utils.ts:1-12 | Six zeros give black. |
| Hex.White | web/utils.ts:1-12 | Six F's (or f's) give white. |

## Left out

- The shaders (the JFA, merge, outline and stroke fragment shaders and the common vertex shader) and every pixel value they compute. Textures record their source, size and format, not their texels. `ReadPixels` fixes only the length of the array it returns.
- `requestAnimationFrame` and promises: the frame chain of `drawSDF` is a loop that runs to completion, and `await` is sequential execution. Interleaving with other work on the page is not modelled.
- Shader compilation (`createPrograms`) and its failure, GL errors, and running out of GPU memory.
- `clearColor(0, 0, 0, 1)`: clears are logged without their colour.
- The `validateOpts` that src/OutlineRenderer.ts imports is not part of this model. `Outline.OutlineRenderer.Render` takes its result as `SdfParams`.
- Stroke.DrawOutlines takes its options as two records, the `GetSDFOptions` part and the style part, instead of one intersection object.
- Stroke.DrawOutlines does not model the commented-out `requestAnimationFrame(draw)`: it draws once.
- The CSS sizes are the numbers behind the `${n}px` strings; the string formatting is not modelled.
- Numbers are `real`: float rounding, NaN and infinities of options are not modelled. Canvas and buffer sizes are not truncated to integers, except the `Float32Array` length (`SdfOptions.BufferLength`).
- Hex.ParseInt16: JavaScript's `-0` is returned as 0, and `hex.length` counts characters rather than UTF-16 code units, so strings holding characters outside the Basic Multilingual Plane are measured differently.
- Hex.IsSpace lists the white space and line terminators of ECMAScript's `StrWhiteSpaceChar` by hand.
- web/index.ts and the other helpers of web/utils.ts (drawing images on canvases, file loading) are page wiring and are not part of this model.
