/**
 * `SDFGenerator` (src/SDFGenerator.ts): owns a canvas, a PicoGL app on it and the 2×2 plane,
 * and lazily creates two draw calls (the jump-flooding shader and the signed merge shader).
 * `render` validates the options, sizes the viewport, uploads the source image and runs one
 * jump-flooding pass (unsigned) or two passes and a merge (signed); the result is read back
 * as floats or re-rendered to the canvas and encoded as an image.
 */
module SdfGenerator {
  import opened Wrappers
  import opened Gpu
  import opened Utils
  import opened SdfOptions
  import opened JumpFlood

  /** What `render` resolves to: a `Float32Array`, or an image whose source is the canvas encoded at the given size. */
  datatype Output = Floats(data: seq<real>) | Picture(width: real, height: real)

  /** The texture `createTexture2D(src, {flipY, clamp-to-edge})` uploads: the image itself, at its own size. */
  function SourceTexture(src: Image): Object {
    Texture(FromImage(src), src.width, src.height, Rgba8, true, true)
  }

  /** The draw call's uniforms after `render` binds the source texture, `padding` and `spread`. */
  function SdfUniforms(u: Uniforms, texture: Handle, o: Options): Uniforms {
    u["src" := Tex(texture)]["padding" := Num(o.padding)]["spread" := Num(o.spread)]
  }

  /** The uniforms of a draw call fresh from `createDrawCall(..., width, height)`. */
  function FreshUniforms(width: real, height: real): Uniforms {
    map["resolution" := Resolution(Some(width), Some(height))]
  }

  /** The handle a memoised slot yields: its content, or `free` (the next free handle) when it was still empty. */
  function SlotHandle(slot: Option<Handle>, free: Handle): Handle {
    if slot.Some? then slot.value else free
  }

  /** The first free handle after `render` has uploaded the source image at `next` and taken the SDF draw call from `slot`. */
  function SetupEnd(slot: Option<Handle>, next: Handle): Handle {
    next + (if slot.None? then 2 else 1)
  }

  /** The commands `#getImage(dc)` issues when the draw call's uniforms are `u`. */
  function ImageEvents(dc: Handle, u: Uniforms, width: real, height: real): seq<Event> {
    [Cleared(Screen), Drew(dc, Screen, u["useUnsignedFormat" := Bool(true)]), Encoded(width, height)]
  }

  /**
   * The live objects once `render` has uploaded the source image as handle `texture`, taken
   * the SDF draw call from `slot` (creating it with `fragment` at `texture + 1` when the slot
   * is empty) and bound `src`, `padding` and `spread` on it.
   */
  function Prepared(objs: map<Handle, Object>, texture: Handle, src: Image, slot: Option<Handle>, fragment: Shader,
                    plane: Handle, o: Options): (m: map<Handle, Object>)
    requires slot.Some? ==> slot.value in objs && objs[slot.value].DrawCall? && slot.value < texture
    ensures var dc := SlotHandle(slot, texture + 1);
            texture in m && m[texture] == SourceTexture(src)
            && dc in m && m[dc].DrawCall? && dc < texture + 2 && dc != texture
            && m[dc].uniforms == SdfUniforms(if slot.Some? then objs[dc].uniforms else FreshUniforms(o.width, o.height), texture, o)
            && m.Keys == objs.Keys + {texture, dc}
  {
    var objs1 := objs[texture := SourceTexture(src)];
    var dc := SlotHandle(slot, texture + 1);
    var objs2 := if slot.None? then objs1[dc := DrawCall(fragment, plane, FreshUniforms(o.width, o.height))] else objs1;
    objs2[dc := objs2[dc].(uniforms := SdfUniforms(objs2[dc].uniforms, texture, o))]
  }

  /** The merge draw call's uniforms once it samples the positive pass output (`tex1`) and the negative one (`tex2`). */
  function MergeUniforms(u: Uniforms, positive: RenderTarget, negative: RenderTarget): Uniforms {
    u["tex1" := Tex(positive.color)]["tex2" := Tex(negative.color)]
  }

  /**
   * The live objects after the merge step: a third render target at `base`, the merge draw
   * call from `slot` (created with `fragment` at `base + 2` when empty) sampling both outputs.
   */
  function Merged(objs: map<Handle, Object>, base: Handle, width: real, height: real, slot: Option<Handle>,
                  fragment: Shader, plane: Handle, o: Options, positive: RenderTarget, negative: RenderTarget)
    : (m: map<Handle, Object>)
    requires slot.Some? ==> slot.value in objs && objs[slot.value].DrawCall? && slot.value < base
    ensures var dc := SlotHandle(slot, base + 2);
            dc in m && m[dc].DrawCall? && dc != base && dc != base + 1
            && m[dc].uniforms == MergeUniforms(if slot.Some? then objs[dc].uniforms else FreshUniforms(o.width, o.height),
                                               positive, negative)
            && m.Keys == objs.Keys + {base, base + 1, dc}
  {
    var objs1 := objs[base := TargetTexture(width, height)][base + 1 := Framebuffer(base)];
    var dc := SlotHandle(slot, base + 2);
    var objs2 := if slot.None? then objs1[dc := DrawCall(fragment, plane, FreshUniforms(o.width, o.height))] else objs1;
    objs2[dc := objs2[dc].(uniforms := MergeUniforms(objs2[dc].uniforms, positive, negative))]
  }

  /** `drawCall.uniform("src", texture).uniform("padding", …).uniform("spread", …)`. */
  method BindSource(app: App, dc: Handle, texture: Handle, o: Options)
    requires dc in app.objects && app.objects[dc].DrawCall?
    modifies app
    ensures app.objects == old(app.objects)[dc := old(app.objects[dc]).(uniforms := SdfUniforms(old(app.objects[dc].uniforms), texture, o))]
    ensures app.width == old(app.width) && app.height == old(app.height) && app.next == old(app.next)
    ensures app.target == old(app.target) && app.log == old(app.log) && app.lost == old(app.lost)
  {
    ghost var objs, d := app.objects, app.objects[dc];
    app.Uniform(dc, "src", Tex(texture));
    app.Uniform(dc, "padding", Num(o.padding));
    app.Uniform(dc, "spread", Num(o.spread));
    Overwrite(objs, dc, d.(uniforms := d.uniforms["src" := Tex(texture)]),
                d.(uniforms := d.uniforms["src" := Tex(texture)]["padding" := Num(o.padding)]));
  }

  /** `mergeDrawCall.uniform("tex1", positive.color).uniform("tex2", negative.color)`. */
  method BindOutputs(app: App, dc: Handle, positive: RenderTarget, negative: RenderTarget)
    requires dc in app.objects && app.objects[dc].DrawCall?
    modifies app
    ensures app.objects == old(app.objects)[dc := old(app.objects[dc]).(uniforms := MergeUniforms(old(app.objects[dc].uniforms), positive, negative))]
    ensures app.width == old(app.width) && app.height == old(app.height) && app.next == old(app.next)
    ensures app.target == old(app.target) && app.log == old(app.log) && app.lost == old(app.lost)
  {
    app.Uniform(dc, "tex1", Tex(positive.color));
    app.Uniform(dc, "tex2", Tex(negative.color));
  }

  /** A filled slot names a live draw call of `fragment` on `plane`. */
  predicate SlotHolds(objs: map<Handle, Object>, slot: Option<Handle>, fragment: Shader, plane: Handle) {
    slot.Some? ==>
      slot.value in objs && objs[slot.value].DrawCall?
      && objs[slot.value].fragment == fragment && objs[slot.value].geometry == plane
  }

  /** A pass leaves every draw call created before it a draw call of the same shader and geometry. */
  lemma AfterRunKeepsSlot(objs: map<Handle, Object>, dc: Handle, base: Handle, width: real, height: real, r: Run,
                          slot: Option<Handle>, fragment: Shader, plane: Handle)
    requires dc in objs && objs[dc].DrawCall? && r.spare.framebuffer != dc && r.spare.framebuffer >= base
    requires SlotHolds(objs, slot, fragment, plane) && (slot.Some? ==> slot.value < base)
    ensures SlotHolds(AfterRun(objs, dc, base, width, height, r), slot, fragment, plane)
  {
  }

  lemma ConcatAssoc<T>(a: seq<T>, b: seq<T>, c: seq<T>, d: seq<T>)
    ensures a + b + c + d == a + (b + c + d)
  {
  }

  /** What a stage of `render` does to the app: the commands it issues, the objects then live, the next free handle and the bound framebuffer. */
  datatype Effect = Effect(events: seq<Event>, objects: map<Handle, Object>, next: Handle, target: Target)

  /**
   * The end of `render`: `#getFloat32Array` reads `out` back, or `#getImage(dc)` redraws
   * to the canvas (of size `width` by `height`) with `useUnsignedFormat` set and encodes it.
   */
  function FinishEffect(objs: map<Handle, Object>, next: Handle, dc: Handle, out: RenderTarget, width: real, height: real,
                  float: bool): (e: Effect)
    requires dc in objs && objs[dc].DrawCall?
    ensures e.next == next && e.objects.Keys == objs.Keys
  {
    if float then Effect([PixelsRead(out.framebuffer, width, height)], objs, next, Offscreen(out.framebuffer))
    else
      var u := objs[dc].uniforms;
      Effect(ImageEvents(dc, u, width, height), objs[dc := objs[dc].(uniforms := u["useUnsignedFormat" := Bool(true)])],
             next, Screen)
  }

  /** Unsigned mode: one positive pass of `dc` over targets from `base` on, then the output of that pass is returned. */
  function UnsignedEffect(objs: map<Handle, Object>, dc: Handle, texture: Handle, base: Handle, o: Options,
                          width: real, height: real, float: bool): Effect
    requires dc in objs && objs[dc].DrawCall? && dc < base
  {
    var run := JfaRun(dc, objs[dc].uniforms, texture, true, base, PassPower(o.spread));
    var done := FinishEffect(AfterRun(objs, dc, base, width, height, run), base + 4, dc, run.output, width, height, float);
    done.(events := run.events + done.events)
  }

  /** The first free handle after signed mode from `base`: ten handles, and one more when the merge draw call is created. */
  function SignedEnd(slot: Option<Handle>, base: Handle): Handle {
    base + (if slot.None? then 11 else 10)
  }

  /** The positive pass of signed mode (and the only pass of unsigned mode), over targets from `base`. */
  function PositiveRun(objs: map<Handle, Object>, dc: Handle, texture: Handle, base: Handle, o: Options): Run
    requires dc in objs && objs[dc].DrawCall?
  {
    JfaRun(dc, objs[dc].uniforms, texture, true, base, PassPower(o.spread))
  }

  /** The negative pass of signed mode, over targets from `base + 4`, starting from the uniforms the positive pass left. */
  function NegativeRun(objs: map<Handle, Object>, dc: Handle, texture: Handle, base: Handle, o: Options): Run
    requires dc in objs && objs[dc].DrawCall?
  {
    JfaRun(dc, PositiveRun(objs, dc, texture, base, o).uniforms, texture, false, base + 4, PassPower(o.spread))
  }

  /** The live objects after both passes of signed mode. */
  function PassesObjects(objs: map<Handle, Object>, dc: Handle, texture: Handle, base: Handle, o: Options,
                         width: real, height: real): map<Handle, Object>
    requires dc in objs && objs[dc].DrawCall? && dc < base
  {
    var run1, run2 := PositiveRun(objs, dc, texture, base, o), NegativeRun(objs, dc, texture, base, o);
    AfterRun(AfterRun(objs, dc, base, width, height, run1), dc, base + 4, width, height, run2)
  }

  /** Both passes leave an object older than their targets, other than the SDF draw call, as it was. */
  lemma PassesKeep(objs: map<Handle, Object>, dc: Handle, texture: Handle, base: Handle, o: Options,
                   width: real, height: real, slot: Option<Handle>)
    requires dc in objs && objs[dc].DrawCall? && dc < base
    requires slot.Some? ==> slot.value in objs && slot.value < base && slot.value != dc
    ensures slot.Some? ==>
              var m := PassesObjects(objs, dc, texture, base, o, width, height);
              slot.value in m && m[slot.value] == objs[slot.value]
  {
  }

  /** Which handles are live after both passes of signed mode. */
  lemma PassesHas(objs: map<Handle, Object>, dc: Handle, texture: Handle, base: Handle, o: Options,
                  width: real, height: real, k: Handle)
    requires dc in objs && objs[dc].DrawCall? && dc < base
    ensures var run1, run2 := PositiveRun(objs, dc, texture, base, o), NegativeRun(objs, dc, texture, base, o);
            k in PassesObjects(objs, dc, texture, base, o, width, height) <==>
              (base + 4 <= k < base + 8 && k != run2.spare.framebuffer)
              || ((k in objs || base <= k < base + 4) && k != run1.spare.framebuffer && k != run2.spare.framebuffer)
  {
    var run1, run2 := PositiveRun(objs, dc, texture, base, o), NegativeRun(objs, dc, texture, base, o);
    AfterRunHas(objs, dc, base, width, height, run1, k);
    AfterRunHas(AfterRun(objs, dc, base, width, height, run1), dc, base + 4, width, height, run2, k);
  }

  /**
   * The live objects after both passes of signed mode and the merge step (a third target at
   * `base + 8`, the merge draw call from `slot` sampling both outputs).
   */
  function SignedObjects(objs: map<Handle, Object>, dc: Handle, texture: Handle, base: Handle, slot: Option<Handle>,
                    fragment: Shader, plane: Handle, o: Options, width: real, height: real): (m: map<Handle, Object>)
    requires dc in objs && objs[dc].DrawCall? && dc < base
    requires slot.Some? ==> slot.value in objs && objs[slot.value].DrawCall? && slot.value < base && slot.value != dc
    ensures SlotHandle(slot, base + 10) in m && m[SlotHandle(slot, base + 10)].DrawCall?
    ensures m.Keys == PassesObjects(objs, dc, texture, base, o, width, height).Keys + {base + 8, base + 9, SlotHandle(slot, base + 10)}
  {
    PassesKeep(objs, dc, texture, base, o, width, height, slot);
    Merged(PassesObjects(objs, dc, texture, base, o, width, height), base + 8, width, height, slot, fragment, plane, o,
           PositiveRun(objs, dc, texture, base, o).output, NegativeRun(objs, dc, texture, base, o).output)
  }

  /** The merge step's commands: clear the third target (framebuffer `base + 9`) and draw the merge draw call into it. */
  function MergeEvents(objs: map<Handle, Object>, dc: Handle, texture: Handle, base: Handle, slot: Option<Handle>,
                    fragment: Shader, plane: Handle, o: Options, width: real, height: real): seq<Event>
    requires dc in objs && objs[dc].DrawCall? && dc < base
    requires slot.Some? ==> slot.value in objs && objs[slot.value].DrawCall? && slot.value < base && slot.value != dc
  {
    var m := SlotHandle(slot, base + 10);
    var u := SignedObjects(objs, dc, texture, base, slot, fragment, plane, o, width, height)[m].uniforms;
    [Cleared(Offscreen(base + 9)), Drew(m, Offscreen(base + 9), u)]
  }

  /** The end of `render` after signed mode: the merge target read back, or the merge draw call redrawn to the canvas. */
  function SignedDone(objs: map<Handle, Object>, dc: Handle, texture: Handle, base: Handle, slot: Option<Handle>,
                    fragment: Shader, plane: Handle, o: Options, width: real, height: real, float: bool): Effect
    requires dc in objs && objs[dc].DrawCall? && dc < base
    requires slot.Some? ==> slot.value in objs && objs[slot.value].DrawCall? && slot.value < base && slot.value != dc
  {
    FinishEffect(SignedObjects(objs, dc, texture, base, slot, fragment, plane, o, width, height), SignedEnd(slot, base),
                 SlotHandle(slot, base + 10), RenderTargetAt(base + 8), width, height, float)
  }

  /**
   * Signed mode: the positive pass (targets from `base`), the negative pass (from `base + 4`),
   * then the merge draw into a third target at `base + 8` with the merge draw call from
   * `slot`; the merge target is returned.
   */
  function SignedEffect(objs: map<Handle, Object>, dc: Handle, texture: Handle, base: Handle, slot: Option<Handle>,
                    fragment: Shader, plane: Handle, o: Options, width: real, height: real, float: bool): Effect
    requires dc in objs && objs[dc].DrawCall? && dc < base
    requires slot.Some? ==> slot.value in objs && objs[slot.value].DrawCall? && slot.value < base && slot.value != dc
  {
    var done := SignedDone(objs, dc, texture, base, slot, fragment, plane, o, width, height, float);
    done.(events := (PositiveRun(objs, dc, texture, base, o).events + NegativeRun(objs, dc, texture, base, o).events)
                    + MergeEvents(objs, dc, texture, base, slot, fragment, plane, o, width, height) + done.events)
  }

  /** `#getFloat32Array` ends on the read-back of `out`; `#getImage` ends on encoding the canvas, after one more draw. */
  lemma FinishShape(objs: map<Handle, Object>, next: Handle, dc: Handle, out: RenderTarget, width: real, height: real,
                    float: bool)
    requires dc in objs && objs[dc].DrawCall?
    ensures var e := FinishEffect(objs, next, dc, out, width, height, float);
            DrawCount(e.events) == (if float then 0 else 1)
            && |e.events| > 0
            && e.events[|e.events| - 1] == (if float then PixelsRead(out.framebuffer, width, height) else Encoded(width, height))
            && e.target == (if float then Offscreen(out.framebuffer) else Screen)
            && e.objects.Keys == objs.Keys
            && (float ==> e.objects == objs)
            && (!float ==> e.objects == objs[dc := objs[dc].(uniforms := objs[dc].uniforms["useUnsignedFormat" := Bool(true)])])
  {
    var e := FinishEffect(objs, next, dc, out, width, height, float);
    if !float {
      var u := objs[dc].uniforms;
      var es := ImageEvents(dc, u, width, height);
      DrawCountPair(es[1], es[2]);
      assert es[1..] == [es[1], es[2]];
    } else {
      assert DrawCount(e.events) == DrawCount(e.events[1..]);
    }
  }

  /** `run` leaves both of its targets allocated, keeps its output's framebuffer and deletes its spare's. */
  lemma AfterRunTargets(objs: map<Handle, Object>, dc: Handle, base: Handle, width: real, height: real, r: Run)
    requires dc in objs && objs[dc].DrawCall? && dc < base
    requires r.output != r.spare
    requires r.output in {RenderTargetAt(base), RenderTargetAt(base + 2)}
    requires r.spare in {RenderTargetAt(base), RenderTargetAt(base + 2)}
    ensures var m := AfterRun(objs, dc, base, width, height, r);
            r.output.framebuffer in m && m[r.output.framebuffer] == Framebuffer(r.output.color)
            && r.output.color in m && r.spare.color in m && r.spare.framebuffer !in m
            && m.Keys == objs.Keys + {base, base + 1, base + 2, base + 3} - {r.spare.framebuffer}
  {
  }

  /**
   * Unsigned mode issues P + 2 draws for the pass (P = `PassPower(spread)`), plus one
   * when the result is an image; it consumes four handles, keeps the pass output alive,
   * deletes the spare target's framebuffer and ends on reading back that output or
   * encoding the canvas.
   */
  lemma UnsignedShape(objs: map<Handle, Object>, dc: Handle, texture: Handle, base: Handle, o: Options,
                      width: real, height: real, float: bool)
    requires dc in objs && objs[dc].DrawCall? && dc < base
    ensures var run := JfaRun(dc, objs[dc].uniforms, texture, true, base, PassPower(o.spread));
            var e := UnsignedEffect(objs, dc, texture, base, o, width, height, float);
            DrawCount(e.events) == PassPower(o.spread) + 2 + (if float then 0 else 1)
            && e.next == base + 4
            && run.output.framebuffer in e.objects && run.spare.framebuffer !in e.objects
            && Deleted(run.spare.framebuffer) in e.events
            && e.events[|e.events| - 1] == (if float then PixelsRead(run.output.framebuffer, width, height) else Encoded(width, height))
            && e.target == (if float then Offscreen(run.output.framebuffer) else Screen)
  {
    var run := JfaRun(dc, objs[dc].uniforms, texture, true, base, PassPower(o.spread));
    var objs1 := AfterRun(objs, dc, base, width, height, run);
    var done := FinishEffect(objs1, base + 4, dc, run.output, width, height, float);
    RunShape(dc, objs[dc].uniforms, texture, true, base, PassPower(o.spread));
    AfterRunTargets(objs, dc, base, width, height, run);
    FinishShape(objs1, base + 4, dc, run.output, width, height, float);
    DrawCountAppend(run.events, done.events);
    assert run.events[|run.events| - 1] in run.events;
  }

  /**
   * Signed mode issues 2(P + 2) draws for the two passes (P = `PassPower(spread)`) and one
   * merge draw, plus one when the result is an image.
   */
  lemma SignedDraws(objs: map<Handle, Object>, dc: Handle, texture: Handle, base: Handle, slot: Option<Handle>,
                    fragment: Shader, plane: Handle, o: Options, width: real, height: real, float: bool)
    requires dc in objs && objs[dc].DrawCall? && dc < base
    requires slot.Some? ==> slot.value in objs && objs[slot.value].DrawCall? && slot.value < base && slot.value != dc
    ensures var e := SignedEffect(objs, dc, texture, base, slot, fragment, plane, o, width, height, float);
            DrawCount(e.events) == 2 * (PassPower(o.spread) + 2) + 1 + (if float then 0 else 1)
  {
    var merge := MergeEvents(objs, dc, texture, base, slot, fragment, plane, o, width, height);
    var done := SignedDone(objs, dc, texture, base, slot, fragment, plane, o, width, height, float);
    PassesDraws(objs, dc, texture, base, o);
    FinishShape(SignedObjects(objs, dc, texture, base, slot, fragment, plane, o, width, height), SignedEnd(slot, base),
                SlotHandle(slot, base + 10), RenderTargetAt(base + 8), width, height, float);
    MergeDraws(objs, dc, texture, base, slot, fragment, plane, o, width, height);
    DrawCountConcat(PositiveRun(objs, dc, texture, base, o).events, NegativeRun(objs, dc, texture, base, o).events,
                    merge, done.events);
  }

  /**
   * Signed mode consumes ten handles (eleven when the merge draw call is created) and ends
   * on reading back the merge target (framebuffer `base + 9`) or encoding the canvas.
   */
  lemma SignedEnding(objs: map<Handle, Object>, dc: Handle, texture: Handle, base: Handle, slot: Option<Handle>,
                     fragment: Shader, plane: Handle, o: Options, width: real, height: real, float: bool)
    requires dc in objs && objs[dc].DrawCall? && dc < base
    requires slot.Some? ==> slot.value in objs && objs[slot.value].DrawCall? && slot.value < base && slot.value != dc
    ensures var e := SignedEffect(objs, dc, texture, base, slot, fragment, plane, o, width, height, float);
            e.next == SignedEnd(slot, base)
            && |e.events| > 0
            && e.events[|e.events| - 1] == (if float then PixelsRead(base + 9, width, height) else Encoded(width, height))
            && e.target == (if float then Offscreen(base + 9) else Screen)
  {
    FinishShape(SignedObjects(objs, dc, texture, base, slot, fragment, plane, o, width, height), SignedEnd(slot, base),
                SlotHandle(slot, base + 10), RenderTargetAt(base + 8), width, height, float);
  }

  /** Each pass of signed mode issues P + 2 draws in 2P + 5 commands. */
  lemma PassesDraws(objs: map<Handle, Object>, dc: Handle, texture: Handle, base: Handle, o: Options)
    requires dc in objs && objs[dc].DrawCall?
    ensures var P := PassPower(o.spread);
            DrawCount(PositiveRun(objs, dc, texture, base, o).events) == P + 2
            && |PositiveRun(objs, dc, texture, base, o).events| == 2 * P + 5
            && DrawCount(NegativeRun(objs, dc, texture, base, o).events) == P + 2
            && |NegativeRun(objs, dc, texture, base, o).events| == 2 * P + 5
  {
    RunDraws(dc, objs[dc].uniforms, texture, true, base, PassPower(o.spread));
    RunDraws(dc, PositiveRun(objs, dc, texture, base, o).uniforms, texture, false, base + 4, PassPower(o.spread));
  }

  /** The merge step draws once. */
  lemma MergeDraws(objs: map<Handle, Object>, dc: Handle, texture: Handle, base: Handle, slot: Option<Handle>,
                    fragment: Shader, plane: Handle, o: Options, width: real, height: real)
    requires dc in objs && objs[dc].DrawCall? && dc < base
    requires slot.Some? ==> slot.value in objs && objs[slot.value].DrawCall? && slot.value < base && slot.value != dc
    ensures DrawCount(MergeEvents(objs, dc, texture, base, slot, fragment, plane, o, width, height)) == 1
  {
    var merge := MergeEvents(objs, dc, texture, base, slot, fragment, plane, o, width, height);
    DrawCountPair(merge[0], merge[1]);
    assert merge == [merge[0], merge[1]];
  }

  /**
   * The merge step of signed mode clears the third target (framebuffer `base + 9`) and draws
   * the merge draw call from `slot` into it, sampling the positive pass output as `tex1` and
   * the negative one as `tex2`, two different textures.
   */
  lemma MergeDraw(objs: map<Handle, Object>, dc: Handle, texture: Handle, base: Handle, slot: Option<Handle>,
                  fragment: Shader, plane: Handle, o: Options, width: real, height: real)
    requires dc in objs && objs[dc].DrawCall? && dc < base
    requires slot.Some? ==> slot.value in objs && objs[slot.value].DrawCall? && slot.value < base && slot.value != dc
    ensures var run1, run2 := PositiveRun(objs, dc, texture, base, o), NegativeRun(objs, dc, texture, base, o);
            var es := MergeEvents(objs, dc, texture, base, slot, fragment, plane, o, width, height);
            run1.output.color != run2.output.color
            && |es| == 2 && es[0] == Cleared(Offscreen(base + 9))
            && var d := es[1];
               d.Drew? && d.drawCall == SlotHandle(slot, base + 10) && d.target == Offscreen(base + 9)
               && var u := d.uniforms;
                  "tex1" in u && u["tex1"] == Tex(run1.output.color) && "tex2" in u && u["tex2"] == Tex(run2.output.color)
  {
  }

  /** Which handles are live after both passes and the merge step of signed mode. */
  lemma SignedHas(objs: map<Handle, Object>, dc: Handle, texture: Handle, base: Handle, slot: Option<Handle>,
                  fragment: Shader, plane: Handle, o: Options, width: real, height: real, k: Handle)
    requires dc in objs && objs[dc].DrawCall? && dc < base
    requires slot.Some? ==> slot.value in objs && objs[slot.value].DrawCall? && slot.value < base && slot.value != dc
    ensures k in SignedObjects(objs, dc, texture, base, slot, fragment, plane, o, width, height) <==>
              k in PassesObjects(objs, dc, texture, base, o, width, height)
              || k == base + 8 || k == base + 9 || k == SlotHandle(slot, base + 10)
  {
  }

  /** The merge step adds its target's two handles and, when it creates one, the merge draw call. */
  lemma MergedHas(objs: map<Handle, Object>, base: Handle, width: real, height: real, slot: Option<Handle>,
                  fragment: Shader, plane: Handle, o: Options, positive: RenderTarget, negative: RenderTarget, k: Handle)
    requires slot.Some? ==> slot.value in objs && objs[slot.value].DrawCall? && slot.value < base
    ensures k in Merged(objs, base, width, height, slot, fragment, plane, o, positive, negative) <==>
              k in objs || k == base || k == base + 1 || k == SlotHandle(slot, base + 2)
  {
  }

  /** A pass leaves live what was live, and its four target handles, except the spare framebuffer. */
  lemma AfterRunHas(objs: map<Handle, Object>, dc: Handle, base: Handle, width: real, height: real, r: Run, k: Handle)
    requires dc in objs && objs[dc].DrawCall? && r.spare.framebuffer != dc
    ensures k in AfterRun(objs, dc, base, width, height, r) <==> (k in objs || base <= k < base + 4) && k != r.spare.framebuffer
  {
  }

  /** After signed mode both pass outputs and the merge target are alive, and both spare framebuffers are gone. */
  lemma SignedTargets(objs: map<Handle, Object>, dc: Handle, texture: Handle, base: Handle, slot: Option<Handle>,
                    fragment: Shader, plane: Handle, o: Options, width: real, height: real, float: bool)
    requires dc in objs && objs[dc].DrawCall? && dc < base
    requires slot.Some? ==> slot.value in objs && objs[slot.value].DrawCall? && slot.value < base && slot.value != dc
    ensures var run1, run2 := PositiveRun(objs, dc, texture, base, o), NegativeRun(objs, dc, texture, base, o);
            var e := SignedEffect(objs, dc, texture, base, slot, fragment, plane, o, width, height, float);
            run1.output.framebuffer in e.objects && run2.output.framebuffer in e.objects && base + 9 in e.objects
            && run1.spare.framebuffer !in e.objects && run2.spare.framebuffer !in e.objects
  {
    var run1, run2 := PositiveRun(objs, dc, texture, base, o), NegativeRun(objs, dc, texture, base, o);
    FinishShape(SignedObjects(objs, dc, texture, base, slot, fragment, plane, o, width, height), SignedEnd(slot, base),
                SlotHandle(slot, base + 10), RenderTargetAt(base + 8), width, height, float);
    SignedHas(objs, dc, texture, base, slot, fragment, plane, o, width, height, run1.output.framebuffer);
    PassesHas(objs, dc, texture, base, o, width, height, run1.output.framebuffer);
    SignedHas(objs, dc, texture, base, slot, fragment, plane, o, width, height, run2.output.framebuffer);
    PassesHas(objs, dc, texture, base, o, width, height, run2.output.framebuffer);
    SignedHas(objs, dc, texture, base, slot, fragment, plane, o, width, height, base + 9);
    PassesHas(objs, dc, texture, base, o, width, height, base + 9);
    SignedHas(objs, dc, texture, base, slot, fragment, plane, o, width, height, run1.spare.framebuffer);
    PassesHas(objs, dc, texture, base, o, width, height, run1.spare.framebuffer);
    SignedHas(objs, dc, texture, base, slot, fragment, plane, o, width, height, run2.spare.framebuffer);
    PassesHas(objs, dc, texture, base, o, width, height, run2.spare.framebuffer);
  }

  /**
   * The app right after the head of `render`: the live objects, the handle of the uploaded
   * source image, the SDF draw call and the first free handle.
   */
  datatype Stage = Stage(objects: map<Handle, Object>, texture: Handle, drawCall: Handle, next: Handle)

  /**
   * The head of `render` from objects `objs` with `next` the first free handle: the source
   * image goes to `next`, and the SDF draw call comes from `slot` or is created with `fragment` at `next + 1`.
   */
  function SetupStage(objs: map<Handle, Object>, next: Handle, slot: Option<Handle>, src: Image, fragment: Shader,
                      plane: Handle, o: Options): Stage
    requires slot.Some? ==> slot.value in objs && objs[slot.value].DrawCall? && slot.value < next
  {
    Stage(Prepared(objs, next, src, slot, fragment, plane, o), next, SlotHandle(slot, next + 1), SetupEnd(slot, next))
  }

  /** After set-up, both draw calls are live, distinct, and older than the first free handle. */
  predicate StageReady(s: Stage, mergeSlot: Option<Handle>) {
    s.drawCall in s.objects && s.objects[s.drawCall].DrawCall? && s.drawCall < s.next
    && (mergeSlot.Some? ==>
          mergeSlot.value in s.objects && s.objects[mergeSlot.value].DrawCall?
          && mergeSlot.value < s.next && mergeSlot.value != s.drawCall)
  }

  /** What `render` resolves to, for a viewport of `width` by `height`: a buffer of `BufferLength` floats, or the canvas of that size encoded. */
  predicate OutputFits(out: Output, width: real, height: real, float: bool)
    requires width >= 0.0 && height >= 0.0
  {
    if float then out.Floats? && |out.data| == BufferLength(width, height) else out == Picture(width, height)
  }

  /** Draw call `h` is live and has `useUnsignedFormat` set, as `#getImage` leaves it. */
  predicate Flagged(objs: map<Handle, Object>, h: Handle) {
    h in objs && objs[h].DrawCall? && "useUnsignedFormat" in objs[h].uniforms
    && objs[h].uniforms["useUnsignedFormat"] == Bool(true)
  }

  /** Every draw call flagged in `before` is still flagged in `after`: nothing resets the flag. */
  ghost predicate KeepsFlags(before: map<Handle, Object>, after: map<Handle, Object>) {
    forall h | Flagged(before, h) :: Flagged(after, h)
  }

  /** Set-up binds `src`, `padding` and `spread` only. */
  lemma PreparedKeepsFlags(objs: map<Handle, Object>, texture: Handle, src: Image, slot: Option<Handle>, fragment: Shader,
                           plane: Handle, o: Options)
    requires slot.Some? ==> slot.value in objs && objs[slot.value].DrawCall? && slot.value < texture
    requires Below(objs, texture)
    ensures KeepsFlags(objs, Prepared(objs, texture, src, slot, fragment, plane, o))
  {
  }

  /** A pass of `dc` over targets from `base` keeps every flag, its own draw call's included. */
  lemma RunKeepsFlags(objs: map<Handle, Object>, dc: Handle, texture: Handle, isPositive: bool, base: Handle,
                      power: nat, width: real, height: real)
    requires dc in objs && objs[dc].DrawCall? && Below(objs, base)
    ensures var r := JfaRun(dc, objs[dc].uniforms, texture, isPositive, base, power);
            var m := AfterRun(objs, dc, base, width, height, r);
            KeepsFlags(objs, m) && Below(m, base + 4)
  {
    var r := JfaRun(dc, objs[dc].uniforms, texture, isPositive, base, power);
    RunKeeps(dc, objs[dc].uniforms, texture, isPositive, base, power, "useUnsignedFormat");
    assert r.spare.framebuffer >= base;
  }

  /** The merge step binds `tex1` and `tex2` only. */
  lemma MergedKeepsFlags(objs: map<Handle, Object>, base: Handle, width: real, height: real, slot: Option<Handle>,
                         fragment: Shader, plane: Handle, o: Options, positive: RenderTarget, negative: RenderTarget)
    requires slot.Some? ==> slot.value in objs && objs[slot.value].DrawCall? && slot.value < base
    requires Below(objs, base)
    ensures KeepsFlags(objs, Merged(objs, base, width, height, slot, fragment, plane, o, positive, negative))
  {
  }

  /** Reading back changes no object; `#getImage` sets the flag. */
  lemma FinishKeepsFlags(objs: map<Handle, Object>, next: Handle, dc: Handle, out: RenderTarget, width: real,
                         height: real, float: bool)
    requires dc in objs && objs[dc].DrawCall?
    ensures KeepsFlags(objs, FinishEffect(objs, next, dc, out, width, height, float).objects)
  {
  }

  lemma KeepsFlagsTrans(a: map<Handle, Object>, b: map<Handle, Object>, c: map<Handle, Object>)
    requires KeepsFlags(a, b) && KeepsFlags(b, c)
    ensures KeepsFlags(a, c)
  {
  }

  /** Unsigned mode, from draw call `dc` and targets at `base`, keeps every flag. */
  lemma UnsignedKeepsFlags(objs: map<Handle, Object>, dc: Handle, texture: Handle, base: Handle, o: Options,
                           width: real, height: real, float: bool)
    requires dc in objs && objs[dc].DrawCall? && dc < base && Below(objs, base)
    ensures KeepsFlags(objs, UnsignedEffect(objs, dc, texture, base, o, width, height, float).objects)
  {
    var run := JfaRun(dc, objs[dc].uniforms, texture, true, base, PassPower(o.spread));
    var objs1 := AfterRun(objs, dc, base, width, height, run);
    RunKeepsFlags(objs, dc, texture, true, base, PassPower(o.spread), width, height);
    FinishKeepsFlags(objs1, base + 4, dc, run.output, width, height, float);
    KeepsFlagsTrans(objs, objs1, UnsignedEffect(objs, dc, texture, base, o, width, height, float).objects);
  }

  /** Both passes of signed mode keep every flag. */
  lemma PassesKeepFlags(objs: map<Handle, Object>, dc: Handle, texture: Handle, base: Handle, o: Options,
                        width: real, height: real)
    requires dc in objs && objs[dc].DrawCall? && dc < base && Below(objs, base)
    ensures var m := PassesObjects(objs, dc, texture, base, o, width, height);
            KeepsFlags(objs, m) && Below(m, base + 8)
  {
    var run1 := PositiveRun(objs, dc, texture, base, o);
    var objs1 := AfterRun(objs, dc, base, width, height, run1);
    RunKeepsFlags(objs, dc, texture, true, base, PassPower(o.spread), width, height);
    RunKeepsFlags(objs1, dc, texture, false, base + 4, PassPower(o.spread), width, height);
    KeepsFlagsTrans(objs, objs1, PassesObjects(objs, dc, texture, base, o, width, height));
  }

  /** Signed mode, from draw call `dc`, the merge slot `slot` and targets at `base`, keeps every flag. */
  lemma SignedKeepsFlags(objs: map<Handle, Object>, dc: Handle, texture: Handle, base: Handle, slot: Option<Handle>,
                         fragment: Shader, plane: Handle, o: Options, width: real, height: real, float: bool)
    requires dc in objs && objs[dc].DrawCall? && dc < base && Below(objs, base)
    requires slot.Some? ==> slot.value in objs && objs[slot.value].DrawCall? && slot.value < base && slot.value != dc
    ensures KeepsFlags(objs, SignedEffect(objs, dc, texture, base, slot, fragment, plane, o, width, height, float).objects)
  {
    var objs2 := PassesObjects(objs, dc, texture, base, o, width, height);
    PassesKeepFlags(objs, dc, texture, base, o, width, height);
    PassesKeep(objs, dc, texture, base, o, width, height, slot);
    var objs3 := SignedObjects(objs, dc, texture, base, slot, fragment, plane, o, width, height);
    MergedKeepsFlags(objs2, base + 8, width, height, slot, fragment, plane, o,
                     PositiveRun(objs, dc, texture, base, o).output, NegativeRun(objs, dc, texture, base, o).output);
    KeepsFlagsTrans(objs, objs2, objs3);
    FinishKeepsFlags(objs3, SignedEnd(slot, base), SlotHandle(slot, base + 10), RenderTargetAt(base + 8),
                     width, height, float);
    KeepsFlagsTrans(objs, objs3, SignedEffect(objs, dc, texture, base, slot, fragment, plane, o, width, height, float).objects);
  }

  /**
   * `useUnsignedFormat`, once `#getImage` has set it on a memoised draw call, is never reset:
   * a later `render`, signed or unsigned, leaves every flagged draw call flagged, so its
   * passes and its merge draw with the flag still set.
   */
  lemma RenderKeepsFlags(objs: map<Handle, Object>, next: Handle, slot: Option<Handle>, mergeSlot: Option<Handle>,
                         src: Image, plane: Handle, o: Options, float: bool)
    requires slot.Some? ==> slot.value in objs && objs[slot.value].DrawCall? && slot.value < next
    requires Below(objs, next) && InRange(o)
    requires StageReady(SetupStage(objs, next, slot, src, SdfGeneratorMain, plane, o), mergeSlot)
    ensures var s := SetupStage(objs, next, slot, src, SdfGeneratorMain, plane, o);
            var w, h := ViewportWidth(o), ViewportHeight(o);
            (o.signed ==>
               KeepsFlags(objs, SignedEffect(s.objects, s.drawCall, s.texture, s.next, mergeSlot, SdfGeneratorMerge,
                                             plane, o, w, h, float).objects))
            && (!o.signed ==>
                  KeepsFlags(objs, UnsignedEffect(s.objects, s.drawCall, s.texture, s.next, o, w, h, float).objects))
  {
    var s := SetupStage(objs, next, slot, src, SdfGeneratorMain, plane, o);
    var w, h := ViewportWidth(o), ViewportHeight(o);
    PreparedKeepsFlags(objs, next, src, slot, SdfGeneratorMain, plane, o);
    assert Below(s.objects, s.next);
    if o.signed {
      var e := SignedEffect(s.objects, s.drawCall, s.texture, s.next, mergeSlot, SdfGeneratorMerge, plane, o, w, h, float);
      SignedKeepsFlags(s.objects, s.drawCall, s.texture, s.next, mergeSlot, SdfGeneratorMerge, plane, o, w, h, float);
      KeepsFlagsTrans(objs, s.objects, e.objects);
    } else {
      var e := UnsignedEffect(s.objects, s.drawCall, s.texture, s.next, o, w, h, float);
      UnsignedKeepsFlags(s.objects, s.drawCall, s.texture, s.next, o, w, h, float);
      KeepsFlagsTrans(objs, s.objects, e.objects);
    }
  }

  class SDFGenerator {
    const canvas: Canvas
    const app: App
    const plane: Handle
    var drawCall: Option<Handle>
    var mergeDrawCall: Option<Handle>

    /** The app draws into this generator's canvas, and a filled slot holds a live draw call of its own shader on the plane. */
    ghost predicate Valid()
      reads this, app
    {
      app.Valid() && app.canvas == canvas
      && SlotHolds(app.objects, drawCall, SdfGeneratorMain, plane)
      && SlotHolds(app.objects, mergeDrawCall, SdfGeneratorMerge, plane)
    }

    /** A detached 300×150 canvas, an app on it holding only the plane geometry, and both slots empty. */
    constructor ()
      ensures Valid() && fresh(canvas) && fresh(app)
      ensures canvas.width == 300.0 && canvas.height == 150.0 && !canvas.attached
      ensures app.width == 300.0 && app.height == 150.0 && app.log == [] && !app.lost && app.target == Screen
      ensures plane == 2 && app.next == 3
      ensures app.objects == map[0 := VertexBuffer(3, CreatePlane(2.0, 2.0).positions),
                                 1 := VertexBuffer(2, CreatePlane(2.0, 2.0).uvs),
                                 2 := VertexArray(0, 1)]
      ensures drawCall == None && mergeDrawCall == None
    {
      var c := new Canvas();
      var a := new App(c);
      var p := CreatePlaneGeometry(a);
      canvas, app, plane := c, a, p;
      drawCall, mergeDrawCall := None, None;
    }

    /**
     * `render(src, opts, float)`: validates the options against the image's size (a thrown
     * message is `Err`, and then nothing has been touched), then sets up (`stage`) and runs the
     * signed or the unsigned branch. The result is `BufferLength` floats read back from the
     * last target, or the canvas, of the viewport's size, encoded as an image.
     */
    method Render(src: Image, opts: PartialOptions, float: bool) returns (r: Result<Output, string>, ghost stage: Stage)
      requires Valid()
      modifies this, app, canvas
      ensures Valid()
      ensures var v := ValidateOptions(opts, src.width, src.height);
              v.Err? ==> r == Err(v.error) && unchanged(this, app, canvas)
      ensures var v := ValidateOptions(opts, src.width, src.height);
              v.Ok? ==>
                var o := v.value;
                r.Ok? &&
                OutputFits(r.value, ViewportWidth(o), ViewportHeight(o), float)
                && stage == SetupStage(old(app.objects), old(app.next), old(drawCall), src, SdfGeneratorMain, plane, o)
                && StageReady(stage, old(mergeDrawCall))
                && (o.signed ==>
                      var e := SignedEffect(stage.objects, stage.drawCall, stage.texture, stage.next, old(mergeDrawCall),
                                            SdfGeneratorMerge, plane, o, ViewportWidth(o), ViewportHeight(o), float);
                      app.log == old(app.log) + e.events && app.objects == e.objects && app.next == e.next
                      && app.target == e.target
                      && mergeDrawCall.Some? && mergeDrawCall.value == SlotHandle(old(mergeDrawCall), stage.next + 10))
                && (!o.signed ==>
                      var e := UnsignedEffect(stage.objects, stage.drawCall, stage.texture, stage.next, o,
                                              ViewportWidth(o), ViewportHeight(o), float);
                      app.log == old(app.log) + e.events && app.objects == e.objects && app.next == e.next
                      && app.target == e.target && mergeDrawCall == old(mergeDrawCall))
                && app.width == ViewportWidth(o) && app.height == ViewportHeight(o)
                && canvas.width == ViewportWidth(o) && canvas.height == ViewportHeight(o)
                && drawCall.Some? && drawCall.value == stage.drawCall
      ensures ValidateOptions(opts, src.width, src.height).Ok? ==> KeepsFlags(old(app.objects), app.objects)
      ensures app.lost == old(app.lost) && canvas.attached == old(canvas.attached)
    {
      var v := ValidateOptions(opts, src.width, src.height);
      if v.Err? {
        r, stage := Err(v.error), Stage(app.objects, app.next, app.next, app.next);
        return;
      }
      var out;
      ghost var objs, next, slot, mergeSlot := app.objects, app.next, drawCall, mergeDrawCall;
      out, stage := RenderValid(src, v.value, float);
      RenderKeepsFlags(objs, next, slot, mergeSlot, src, plane, v.value, float);
      r := Ok(out);
    }

    /** `render` past `validateOptions`: set up, then the signed or the unsigned branch. */
    method RenderValid(src: Image, o: Options, float: bool) returns (out: Output, ghost stage: Stage)
      requires Valid() && InRange(o)
      modifies this, app, canvas
      ensures Valid()
      ensures
                OutputFits(out, ViewportWidth(o), ViewportHeight(o), float)
                && stage == SetupStage(old(app.objects), old(app.next), old(drawCall), src, SdfGeneratorMain, plane, o)
                && StageReady(stage, old(mergeDrawCall))
                && (o.signed ==>
                      var e := SignedEffect(stage.objects, stage.drawCall, stage.texture, stage.next, old(mergeDrawCall),
                                            SdfGeneratorMerge, plane, o, ViewportWidth(o), ViewportHeight(o), float);
                      app.log == old(app.log) + e.events && app.objects == e.objects && app.next == e.next
                      && app.target == e.target
                      && mergeDrawCall.Some? && mergeDrawCall.value == SlotHandle(old(mergeDrawCall), stage.next + 10))
                && (!o.signed ==>
                      var e := UnsignedEffect(stage.objects, stage.drawCall, stage.texture, stage.next, o,
                                              ViewportWidth(o), ViewportHeight(o), float);
                      app.log == old(app.log) + e.events && app.objects == e.objects && app.next == e.next
                      && app.target == e.target && mergeDrawCall == old(mergeDrawCall))
                && app.width == ViewportWidth(o) && app.height == ViewportHeight(o)
                && canvas.width == ViewportWidth(o) && canvas.height == ViewportHeight(o)
                && drawCall.Some? && drawCall.value == stage.drawCall
      ensures app.lost == old(app.lost) && canvas.attached == old(canvas.attached)
    {
      var texture, dc := Setup(src, o);
      stage := Stage(app.objects, texture, dc, app.next);
      var viewportWidth, viewportHeight := ViewportWidth(o), ViewportHeight(o);
      if o.signed {
        out := RenderSigned(texture, dc, o, viewportWidth, viewportHeight, float);
      } else {
        out := RenderUnsigned(texture, dc, o, viewportWidth, viewportHeight, float);
      }
    }

    /** `getSDF(src, opts)`: `render` with `float` set, so the result is the read-back buffer. */
    method GetSdf(src: Image, opts: PartialOptions) returns (r: Result<seq<real>, string>)
      requires Valid()
      modifies this, app, canvas
      ensures Valid()
      ensures var v := ValidateOptions(opts, src.width, src.height);
              (v.Err? ==> r == Err(v.error))
              && (v.Ok? ==> r.Ok? && |r.value| == BufferLength(ViewportWidth(v.value), ViewportHeight(v.value)))
    {
      var out, stage := Render(src, opts, true);
      r := if out.Ok? then Ok(out.value.data) else Err(out.error);
    }

    /** `getSDFImage(src, opts)`: `render` with `float` cleared, so the result is the encoded canvas. */
    method GetSdfImage(src: Image, opts: PartialOptions) returns (r: Result<Output, string>)
      requires Valid()
      modifies this, app, canvas
      ensures Valid()
      ensures var v := ValidateOptions(opts, src.width, src.height);
              (v.Err? ==> r == Err(v.error))
              && (v.Ok? ==> r == Ok(Picture(ViewportWidth(v.value), ViewportHeight(v.value))))
    {
      ghost var stage;
      r, stage := Render(src, opts, false);
    }

    /**
     * The head of `render` once the options are valid: resize the app and the canvas to the
     * viewport, upload the source image, take the SDF draw call and bind `src`, `padding` and
     * `spread` on it.
     */
    method Setup(src: Image, o: Options) returns (texture: Handle, dc: Handle)
      requires Valid() && InRange(o)
      modifies this, app, canvas
      ensures Valid()
      ensures texture == old(app.next) && dc == SlotHandle(old(drawCall), texture + 1) && drawCall == Some(dc)
      ensures app.objects == Prepared(old(app.objects), texture, src, old(drawCall), SdfGeneratorMain, plane, o)
      ensures app.next == SetupEnd(old(drawCall), texture)
      ensures app.width == ViewportWidth(o) && app.height == ViewportHeight(o)
      ensures canvas.width == ViewportWidth(o) && canvas.height == ViewportHeight(o)
      ensures canvas.cssWidth == old(canvas.cssWidth) && canvas.cssHeight == old(canvas.cssHeight)
      ensures canvas.attached == old(canvas.attached)
      ensures mergeDrawCall == old(mergeDrawCall)
      ensures app.log == old(app.log) && app.target == old(app.target) && app.lost == old(app.lost)
    {
      var viewportWidth := ViewportWidth(o);
      var viewportHeight := ViewportHeight(o);
      app.Resize(viewportWidth, viewportHeight);
      canvas.width := viewportWidth;
      canvas.height := viewportHeight;
      texture := app.Create(SourceTexture(src));
      ghost var objs1 := app.objects;
      dc := GetSdfDrawCall(o.width, o.height);
      ghost var objs2 := app.objects;
      assert objs2 == if old(drawCall).None? then objs1[dc := DrawCall(SdfGeneratorMain, plane, FreshUniforms(o.width, o.height))] else objs1;
      BindSource(app, dc, texture, o);
    }

    /** The unsigned branch of `render`: one positive pass, whose target is read back or redrawn with the SDF draw call. */
    method RenderUnsigned(texture: Handle, dc: Handle, o: Options, viewportWidth: real, viewportHeight: real, float: bool)
      returns (out: Output)
      requires Valid() && InRange(o) && drawCall == Some(dc) && viewportWidth >= 0.0 && viewportHeight >= 0.0
      requires app.width == viewportWidth && app.height == viewportHeight
      requires canvas.width == viewportWidth && canvas.height == viewportHeight
      modifies app
      ensures Valid()
      ensures var e := UnsignedEffect(old(app.objects), dc, texture, old(app.next), o, viewportWidth, viewportHeight, float);
              app.log == old(app.log) + e.events && app.objects == e.objects && app.next == e.next && app.target == e.target
      ensures float ==> out.Floats? && |out.data| == BufferLength(viewportWidth, viewportHeight)
      ensures !float ==> out == Picture(viewportWidth, viewportHeight)
      ensures app.width == old(app.width) && app.height == old(app.height) && app.lost == old(app.lost)
    {
      var outRt := DrawSdf(app, dc, texture, o.spread, true);
      out := Finish(outRt, dc, viewportWidth, viewportHeight, float);
    }

    /**
     * The signed branch of `render`: the positive pass, the negative pass, then the merge step;
     * the merge target is read back, or the merge draw call redraws to the canvas.
     */
    method RenderSigned(texture: Handle, dc: Handle, o: Options, viewportWidth: real, viewportHeight: real, float: bool)
      returns (out: Output)
      requires Valid() && InRange(o) && drawCall == Some(dc) && viewportWidth >= 0.0 && viewportHeight >= 0.0
      requires app.width == viewportWidth && app.height == viewportHeight
      requires canvas.width == viewportWidth && canvas.height == viewportHeight
      modifies this, app
      ensures Valid()
      ensures var e := SignedEffect(old(app.objects), dc, texture, old(app.next), old(mergeDrawCall), SdfGeneratorMerge,
                                    plane, o, viewportWidth, viewportHeight, float);
              app.log == old(app.log) + e.events && app.objects == e.objects && app.next == e.next && app.target == e.target
      ensures drawCall == old(drawCall)
      ensures mergeDrawCall.Some? && mergeDrawCall.value == SlotHandle(old(mergeDrawCall), old(app.next) + 10)
      ensures float ==> out.Floats? && |out.data| == BufferLength(viewportWidth, viewportHeight)
      ensures !float ==> out == Picture(viewportWidth, viewportHeight)
      ensures app.width == old(app.width) && app.height == old(app.height) && app.lost == old(app.lost)
    {
      ghost var n, objs0, P := app.next, app.objects, PassPower(o.spread);
      ghost var run1 := JfaRun(dc, objs0[dc].uniforms, texture, true, n, P);
      ghost var run2 := JfaRun(dc, run1.uniforms, texture, false, n + 4, P);
      var rt1, rt2 := SignedPasses(texture, dc, o, viewportWidth, viewportHeight);
      ghost var log2 := app.log;
      var rt3, mergeDc := MergeStep(rt1, rt2, o);
      ghost var objs3 := app.objects;
      ghost var merge := [Cleared(Offscreen(rt3.framebuffer)), Drew(mergeDc, Offscreen(rt3.framebuffer), objs3[mergeDc].uniforms)];
      out := Finish(rt3, mergeDc, viewportWidth, viewportHeight, float);
      ghost var done := FinishEffect(objs3, SignedEnd(old(mergeDrawCall), n), mergeDc, rt3,
                                     viewportWidth, viewportHeight, float);
      ConcatAssoc(old(app.log), run1.events + run2.events, merge, done.events);
    }

    /** The two passes of the signed branch of `render`: positive from `texture`, then negative. */
    method SignedPasses(texture: Handle, dc: Handle, o: Options, viewportWidth: real, viewportHeight: real)
      returns (rt1: RenderTarget, rt2: RenderTarget)
      requires Valid() && drawCall == Some(dc) && o.spread >= 1.0
      requires app.width == viewportWidth && app.height == viewportHeight
      modifies app
      ensures Valid()
      ensures var P, n := PassPower(o.spread), old(app.next);
              var run1 := JfaRun(dc, old(app.objects[dc].uniforms), texture, true, n, P);
              var run2 := JfaRun(dc, run1.uniforms, texture, false, n + 4, P);
              rt1 == run1.output && rt2 == run2.output
              && app.objects == AfterRun(AfterRun(old(app.objects), dc, n, viewportWidth, viewportHeight, run1),
                                         dc, n + 4, viewportWidth, viewportHeight, run2)
              && app.log == old(app.log) + (run1.events + run2.events)
              && app.next == n + 8 && app.target == Offscreen(rt2.framebuffer)
      ensures app.width == old(app.width) && app.height == old(app.height) && app.lost == old(app.lost)
    {
      ghost var n, P := app.next, PassPower(o.spread);
      ghost var objs0 := app.objects;
      rt1 := DrawSdf(app, dc, texture, o.spread, true);
      ghost var run1 := JfaRun(dc, objs0[dc].uniforms, texture, true, n, P);
      AfterRunKeepsSlot(objs0, dc, n, app.width, app.height, run1, drawCall, SdfGeneratorMain, plane);
      AfterRunKeepsSlot(objs0, dc, n, app.width, app.height, run1, mergeDrawCall, SdfGeneratorMerge, plane);
      ghost var objs1 := app.objects;
      rt2 := DrawSdf(app, dc, texture, o.spread, false);
      ghost var run2 := JfaRun(dc, objs1[dc].uniforms, texture, false, n + 4, P);
      AfterRunKeepsSlot(objs1, dc, n + 4, app.width, app.height, run2, drawCall, SdfGeneratorMain, plane);
      AfterRunKeepsSlot(objs1, dc, n + 4, app.width, app.height, run2, mergeDrawCall, SdfGeneratorMerge, plane);
    }

    /**
     * The end of either branch of `render`: `#getFloat32Array(out, ...)` when `float`, else
     * `#getImage(dc)`.
     */
    method Finish(out: RenderTarget, dc: Handle, viewportWidth: real, viewportHeight: real, float: bool)
      returns (result: Output)
      requires Valid() && dc in app.objects && app.objects[dc].DrawCall?
      requires viewportWidth >= 0.0 && viewportHeight >= 0.0
      requires canvas.width == viewportWidth && canvas.height == viewportHeight
      requires float ==> app.target == Offscreen(out.framebuffer)
      modifies app
      ensures Valid()
      ensures var e := FinishEffect(old(app.objects), old(app.next), dc, out, viewportWidth, viewportHeight, float);
              app.log == old(app.log) + e.events && app.objects == e.objects && app.next == e.next && app.target == e.target
      ensures float ==> result.Floats? && |result.data| == BufferLength(viewportWidth, viewportHeight)
      ensures !float ==> result == Picture(viewportWidth, viewportHeight)
      ensures app.width == old(app.width) && app.height == old(app.height) && app.lost == old(app.lost)
    {
      if float {
        var pixels := GetFloat32Array(out, viewportWidth, viewportHeight);
        result := Floats(pixels);
      } else {
        result := GetImage(dc);
      }
    }

    /**
     * The merge step of the signed branch of `render`: a third render target, the merge draw
     * call sampling the positive output as `tex1` and the negative one as `tex2`, and one
     * draw into the new target after clearing it.
     */
    method MergeStep(rt1: RenderTarget, rt2: RenderTarget, o: Options) returns (rt3: RenderTarget, mergeDc: Handle)
      requires Valid()
      modifies this, app
      ensures Valid()
      ensures rt3 == RenderTargetAt(old(app.next)) && mergeDc == SlotHandle(old(mergeDrawCall), old(app.next) + 2)
      ensures mergeDrawCall == Some(mergeDc) && drawCall == old(drawCall)
      ensures app.objects == Merged(old(app.objects), old(app.next), app.width, app.height, old(mergeDrawCall),
                                    SdfGeneratorMerge, plane, o, rt1, rt2)
      ensures app.next == old(app.next) + (if old(mergeDrawCall).None? then 3 else 2)
      ensures app.log == old(app.log) + [Cleared(Offscreen(rt3.framebuffer)),
                                         Drew(mergeDc, Offscreen(rt3.framebuffer), app.objects[mergeDc].uniforms)]
      ensures app.target == Offscreen(rt3.framebuffer)
      ensures app.width == old(app.width) && app.height == old(app.height) && app.lost == old(app.lost)
    {
      rt3 := CreateRenderTarget(app);
      mergeDc := GetMergeDrawCall(o.width, o.height);
      BindOutputs(app, mergeDc, rt1, rt2);

      app.DrawFramebuffer(Offscreen(rt3.framebuffer));
      app.Clear();
      app.Draw(mergeDc);
    }

    /**
     * `#getSDFDrawCall(width, height)`: the first call creates the SDF draw call with
     * resolution [width, height] and keeps it; later calls return it untouched, whatever
     * size they ask for.
     */
    method GetSdfDrawCall(width: real, height: real) returns (dc: Handle)
      requires Valid()
      modifies this, app
      ensures Valid()
      ensures dc == SlotHandle(old(drawCall), old(app.next)) && drawCall == Some(dc)
      ensures old(drawCall).None? ==>
                app.objects == old(app.objects)[dc := DrawCall(SdfGeneratorMain, plane, FreshUniforms(width, height))]
                && app.next == old(app.next) + 1
      ensures old(drawCall).Some? ==> app.objects == old(app.objects) && app.next == old(app.next)
      ensures mergeDrawCall == old(mergeDrawCall)
      ensures app.width == old(app.width) && app.height == old(app.height) && app.target == old(app.target)
      ensures app.log == old(app.log) && app.lost == old(app.lost)
    {
      if drawCall.None? {
        var created := CreateDrawCall(app, SdfGeneratorMain, plane, Some(width), Some(height));
        drawCall := Some(created);
      }
      dc := drawCall.value;
    }

    /** `#getMergeDrawCall(width, height)`: the same memoisation, on its own slot and with the merge shader. */
    method GetMergeDrawCall(width: real, height: real) returns (dc: Handle)
      requires Valid()
      modifies this, app
      ensures Valid()
      ensures dc == SlotHandle(old(mergeDrawCall), old(app.next)) && mergeDrawCall == Some(dc)
      ensures old(mergeDrawCall).None? ==>
                app.objects == old(app.objects)[dc := DrawCall(SdfGeneratorMerge, plane, FreshUniforms(width, height))]
                && app.next == old(app.next) + 1
      ensures old(mergeDrawCall).Some? ==> app.objects == old(app.objects) && app.next == old(app.next)
      ensures drawCall == old(drawCall)
      ensures app.width == old(app.width) && app.height == old(app.height) && app.target == old(app.target)
      ensures app.log == old(app.log) && app.lost == old(app.lost)
    {
      if mergeDrawCall.None? {
        var created := CreateDrawCall(app, SdfGeneratorMerge, plane, Some(width), Some(height));
        mergeDrawCall := Some(created);
      }
      dc := mergeDrawCall.value;
    }

    /**
     * `#getFloat32Array(buf, viewportWidth, viewportHeight)`: reads the framebuffer back into
     * a fresh array of `BufferLength` floats, four per pixel of the viewport.
     */
    method GetFloat32Array(buf: RenderTarget, viewportWidth: real, viewportHeight: real) returns (pixels: seq<real>)
      requires viewportWidth >= 0.0 && viewportHeight >= 0.0
      modifies app
      ensures |pixels| == BufferLength(viewportWidth, viewportHeight)
      ensures app.log == old(app.log) + [PixelsRead(buf.framebuffer, viewportWidth, viewportHeight)]
      ensures app.width == old(app.width) && app.height == old(app.height) && app.next == old(app.next)
      ensures app.objects == old(app.objects) && app.target == old(app.target) && app.lost == old(app.lost)
    {
      var n := BufferLength(viewportWidth, viewportHeight);
      pixels := app.ReadPixels(buf.framebuffer, viewportWidth, viewportHeight, n);
    }

    /**
     * `#getImage(drawCall)`: clears the canvas, draws once more into it with `useUnsignedFormat`
     * set (and left set on the draw call), and encodes the canvas.
     */
    method GetImage(dc: Handle) returns (image: Output)
      requires app.canvas == canvas && dc in app.objects && app.objects[dc].DrawCall?
      modifies app
      ensures image == Picture(canvas.width, canvas.height)
      ensures app.log == old(app.log) + ImageEvents(dc, old(app.objects[dc].uniforms), canvas.width, canvas.height)
      ensures app.objects == old(app.objects)[dc := old(app.objects[dc]).(uniforms := old(app.objects[dc].uniforms)["useUnsignedFormat" := Bool(true)])]
      ensures app.target == Screen
      ensures app.width == old(app.width) && app.height == old(app.height) && app.next == old(app.next)
      ensures app.lost == old(app.lost)
    {
      app.DrawFramebuffer(Screen);
      app.Clear();
      app.Uniform(dc, "useUnsignedFormat", Bool(true));
      app.Draw(dc);
      app.ToDataUrl();
      image := Picture(canvas.width, canvas.height);
    }

    /** `dispose()`: loses the GL context and detaches the canvas. */
    method Dispose()
      modifies app, canvas
      ensures app.lost && !canvas.attached
      ensures app.log == old(app.log) + [ContextLost]
      ensures app.width == old(app.width) && app.height == old(app.height) && app.next == old(app.next)
      ensures app.objects == old(app.objects) && app.target == old(app.target)
      ensures canvas.width == old(canvas.width) && canvas.height == old(canvas.height)
    {
      app.LoseContext();
      canvas.Remove();
    }
  }
}
