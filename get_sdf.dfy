/**
 * The older generator of src/getSDF.ts. It validates and sizes exactly as `SDFGenerator` in
 * src/SDFGenerator.ts does and runs the same `drawSDF`, but:
 *  - `#getMergeDrawCall` tests and fills the SDF draw call's slot, so the signed merge is
 *    drawn by the SDF draw call itself (still holding the state of its last jump) and the
 *    merge slot is never filled;
 *  - the target to finish on is the single `outRt`;
 *  - `render` tears down: the float path detaches the canvas, the image path also loses the
 *    context; `dispose` does nothing.
 */
module GetSdf {
  import opened Wrappers
  import opened Gpu
  import opened Utils
  import opened SdfOptions
  import opened JumpFlood
  import opened SdfGenerator

  /** The app after the `if (signed)` block of `render`: the commands issued, the live objects, the first free handle and `outRt`. */
  datatype Drawn = Drawn(events: seq<Event>, objects: map<Handle, Object>, next: Handle, out: RenderTarget)

  /** Unsigned: one positive pass of `dc` over targets from `base`; its output is `outRt`. */
  function UnsignedDrawn(objs: map<Handle, Object>, dc: Handle, texture: Handle, base: Handle, o: Options,
                         width: real, height: real): (d: Drawn)
    requires dc in objs && objs[dc].DrawCall? && dc < base
    ensures dc in d.objects && d.objects[dc].DrawCall? && d.objects[dc] == objs[dc].(uniforms := d.objects[dc].uniforms)
  {
    var run := PositiveRun(objs, dc, texture, base, o);
    Drawn(run.events, AfterRun(objs, dc, base, width, height, run), base + 4, run.output)
  }

  /**
   * Signed: the positive pass (targets from `base`), the negative pass (from `base + 4`), a
   * third target at `base + 8`, and one draw into it by `dc` itself, sampling the positive
   * output as `tex1` and the negative one as `tex2`. No draw call is created, and the one
   * that draws keeps its shader and geometry.
   */
  function SignedDrawn(objs: map<Handle, Object>, dc: Handle, texture: Handle, base: Handle, plane: Handle, o: Options,
                       width: real, height: real): (d: Drawn)
    requires dc in objs && objs[dc].DrawCall? && dc < base
    ensures dc in d.objects && d.objects[dc].DrawCall? && d.objects[dc] == objs[dc].(uniforms := d.objects[dc].uniforms)
    ensures d.objects.Keys == PassesObjects(objs, dc, texture, base, o, width, height).Keys + {base + 8, base + 9}
  {
    var run1, run2 := PositiveRun(objs, dc, texture, base, o), NegativeRun(objs, dc, texture, base, o);
    var objs2 := PassesObjects(objs, dc, texture, base, o, width, height);
    var objs3 := Merged(objs2, base + 8, width, height, Some(dc), MergeSdf, plane, o, run1.output, run2.output);
    Drawn(run1.events + run2.events + [Cleared(Offscreen(base + 9)), Drew(dc, Offscreen(base + 9), objs3[dc].uniforms)],
          objs3, base + 10, RenderTargetAt(base + 8))
  }

  /** The `if (signed)` block of `render` after set-up `s`. */
  function Branch(s: Stage, plane: Handle, o: Options, width: real, height: real): (d: Drawn)
    requires s.drawCall in s.objects && s.objects[s.drawCall].DrawCall? && s.drawCall < s.next
    ensures s.drawCall in d.objects && d.objects[s.drawCall].DrawCall?
  {
    if o.signed then SignedDrawn(s.objects, s.drawCall, s.texture, s.next, plane, o, width, height)
    else UnsignedDrawn(s.objects, s.drawCall, s.texture, s.next, o, width, height)
  }

  /**
   * The end of `render`: read `out` back (then the canvas is removed), or redraw to the
   * canvas with `dc` and `useUnsignedFormat` set, encode it, remove it and lose the context.
   */
  function Teardown(objs: map<Handle, Object>, next: Handle, dc: Handle, out: RenderTarget, width: real, height: real,
                    float: bool): (e: Effect)
    requires dc in objs && objs[dc].DrawCall?
    ensures e.next == next && e.objects.Keys == objs.Keys
  {
    var e := FinishEffect(objs, next, dc, out, width, height, float);
    if float then e else e.(events := e.events + [ContextLost])
  }

  /** Unsigned mode issues the P + 2 draws of one pass (P = `PassPower(spread)`) and consumes four handles; its output stays alive. */
  lemma UnsignedDrawnShape(objs: map<Handle, Object>, dc: Handle, texture: Handle, base: Handle, o: Options,
                           width: real, height: real)
    requires dc in objs && objs[dc].DrawCall? && dc < base
    ensures var d := UnsignedDrawn(objs, dc, texture, base, o, width, height);
            DrawCount(d.events) == PassPower(o.spread) + 2 && d.next == base + 4
            && d.out == PositiveRun(objs, dc, texture, base, o).output && d.out.framebuffer in d.objects
  {
    var run := PositiveRun(objs, dc, texture, base, o);
    RunDraws(dc, objs[dc].uniforms, texture, true, base, PassPower(o.spread));
    AfterRunTargets(objs, dc, base, width, height, run);
  }

  /**
   * Signed mode issues 2(P + 2) draws for the two passes and one merge draw, consumes ten
   * handles (none for a merge draw call) and finishes on the third target.
   */
  lemma SignedDrawnShape(objs: map<Handle, Object>, dc: Handle, texture: Handle, base: Handle, plane: Handle,
                         o: Options, width: real, height: real)
    requires dc in objs && objs[dc].DrawCall? && dc < base
    ensures var d := SignedDrawn(objs, dc, texture, base, plane, o, width, height);
            DrawCount(d.events) == 2 * (PassPower(o.spread) + 2) + 1
            && |d.events| == 2 * (2 * PassPower(o.spread) + 5) + 2
            && d.next == base + 10 && d.out == RenderTargetAt(base + 8) && d.out.framebuffer in d.objects
  {
    var run1, run2 := PositiveRun(objs, dc, texture, base, o), NegativeRun(objs, dc, texture, base, o);
    var d := SignedDrawn(objs, dc, texture, base, plane, o, width, height);
    var merge := d.events[|run1.events + run2.events|..];
    assert d.events == (run1.events + run2.events) + merge;
    PassesDraws(objs, dc, texture, base, o);
    DrawCountPair(merge[0], merge[1]);
    DrawCountAppend(run1.events, run2.events);
    DrawCountAppend(run1.events + run2.events, merge);
  }

  /**
   * The merge draw of signed mode, the last command of the branch, is issued by the SDF draw
   * call `dc` into the third target. Besides `tex1` (the positive output) and `tex2` (the
   * negative one) it still carries what the negative pass's last jump set: `isPositive`
   * false, phase 1 and step 1.
   */
  lemma SharedMergeDraw(objs: map<Handle, Object>, dc: Handle, texture: Handle, base: Handle, plane: Handle,
                        o: Options, width: real, height: real)
    requires dc in objs && objs[dc].DrawCall? && dc < base && texture < base
    ensures var run1, run2 := PositiveRun(objs, dc, texture, base, o), NegativeRun(objs, dc, texture, base, o);
            var d := SignedDrawn(objs, dc, texture, base, plane, o, width, height);
            |d.events| > 0
            && var e := d.events[|d.events| - 1];
               e.Drew? && e.drawCall == dc && e.target == Offscreen(base + 9)
               && "tex1" in e.uniforms && e.uniforms["tex1"] == Tex(run1.output.color)
               && "tex2" in e.uniforms && e.uniforms["tex2"] == Tex(run2.output.color)
               && "isPositive" in e.uniforms && e.uniforms["isPositive"] == Bool(false)
               && "phase" in e.uniforms && e.uniforms["phase"] == Num(1.0)
               && "jump" in e.uniforms && e.uniforms["jump"] == Num(1.0)
    ensures var d := SignedDrawn(objs, dc, texture, base, plane, o, width, height);
            dc in d.objects && d.objects[dc].fragment == objs[dc].fragment && d.objects[dc].geometry == objs[dc].geometry
  {
    var run1, run2 := PositiveRun(objs, dc, texture, base, o), NegativeRun(objs, dc, texture, base, o);
    RunUniforms(dc, run1.uniforms, texture, false, base + 4, PassPower(o.spread));
    SignedDrawnLast(objs, dc, texture, base, plane, o, width, height);
  }

  /** The branch ends on the merge draw, with the uniforms the draw call is left with: the negative pass's, plus both outputs. */
  lemma SignedDrawnLast(objs: map<Handle, Object>, dc: Handle, texture: Handle, base: Handle, plane: Handle,
                        o: Options, width: real, height: real)
    requires dc in objs && objs[dc].DrawCall? && dc < base
    ensures var run1, run2 := PositiveRun(objs, dc, texture, base, o), NegativeRun(objs, dc, texture, base, o);
            var d := SignedDrawn(objs, dc, texture, base, plane, o, width, height);
            |d.events| > 0
            && d.events[|d.events| - 1]
               == Drew(dc, Offscreen(base + 9), MergeUniforms(run2.uniforms, run1.output, run2.output))
  {
    var run1, run2 := PositiveRun(objs, dc, texture, base, o), NegativeRun(objs, dc, texture, base, o);
    var objs2 := PassesObjects(objs, dc, texture, base, o, width, height);
    assert objs2[dc].uniforms == run2.uniforms;
  }

  /**
   * The end of `render` draws once more only for an image. Reading back ends the commands;
   * the image path redraws, encodes and then loses the context as its very last command.
   */
  lemma TeardownShape(objs: map<Handle, Object>, next: Handle, dc: Handle, out: RenderTarget, width: real,
                      height: real, float: bool)
    requires dc in objs && objs[dc].DrawCall?
    ensures var e := Teardown(objs, next, dc, out, width, height, float);
            DrawCount(e.events) == (if float then 0 else 1)
            && (float ==> e.events == [PixelsRead(out.framebuffer, width, height)] && e.objects == objs)
            && (!float ==> e.events == ImageEvents(dc, objs[dc].uniforms, width, height) + [ContextLost]
                           && e.target == Screen)
            && (forall k | 0 <= k < |e.events| - 1 :: e.events[k] != ContextLost)
  {
    var f := FinishEffect(objs, next, dc, out, width, height, float);
    FinishShape(objs, next, dc, out, width, height, float);
    if !float {
      DrawCountAppend(f.events, [ContextLost]);
      assert DrawCount([ContextLost]) == DrawCount([]);
    }
  }

  /** `render` issues the branch's draws plus one more for an image: P + 2 unsigned, 2(P + 2) + 1 signed. */
  lemma RenderDraws(s: Stage, plane: Handle, o: Options, width: real, height: real, float: bool)
    requires s.drawCall in s.objects && s.objects[s.drawCall].DrawCall? && s.drawCall < s.next
    ensures var d := Branch(s, plane, o, width, height);
            var t := Teardown(d.objects, d.next, s.drawCall, d.out, width, height, float);
            DrawCount(d.events + t.events)
              == (if o.signed then 2 * (PassPower(o.spread) + 2) + 1 else PassPower(o.spread) + 2) + (if float then 0 else 1)
  {
    var d := Branch(s, plane, o, width, height);
    var t := Teardown(d.objects, d.next, s.drawCall, d.out, width, height, float);
    if o.signed {
      SignedDrawnShape(s.objects, s.drawCall, s.texture, s.next, plane, o, width, height);
    } else {
      UnsignedDrawnShape(s.objects, s.drawCall, s.texture, s.next, o, width, height);
    }
    TeardownShape(d.objects, d.next, s.drawCall, d.out, width, height, float);
    DrawCountAppend(d.events, t.events);
  }

  class SDFGenerator {
    const canvas: Canvas
    const app: App
    const plane: Handle
    var drawCall: Option<Handle>
    var mergeDrawCall: Option<Handle>

    /**
     * The app draws into this generator's canvas, the one slot in use holds a live draw call
     * of the SDF shader on the plane, and the merge slot stays empty.
     */
    ghost predicate Valid()
      reads this, app
    {
      app.Valid() && app.canvas == canvas && mergeDrawCall == None
      && SlotHolds(app.objects, drawCall, GetSdfMain, plane)
    }

    /** A detached 300×150 canvas, an app on it holding only the plane geometry, and both slots empty. */
    constructor ()
      ensures Valid() && fresh(canvas) && fresh(app)
      ensures canvas.width == 300.0 && canvas.height == 150.0 && !canvas.attached
      ensures app.width == 300.0 && app.height == 150.0 && app.log == [] && !app.lost && app.target == Screen
      ensures plane == 2 && app.next == 3
      ensures drawCall == None && mergeDrawCall == None
    {
      var c := new Canvas();
      var a := new App(c);
      var p := CreatePlaneGeometry(a);
      canvas, app, plane := c, a, p;
      drawCall, mergeDrawCall := None, None;
    }

    /**
     * `render(src, opts, float)`: a thrown message is `Err` and nothing has been touched;
     * otherwise set-up (`stage`), the `if (signed)` block and the teardown, which always
     * detaches the canvas and loses the context exactly when the result is an image.
     */
    method Render(src: Image, opts: PartialOptions, float: bool) returns (r: Result<Output, string>, ghost stage: Stage)
      requires Valid()
      modifies this, app, canvas
      ensures Valid()
      ensures var v := ValidateOptions(opts, src.width, src.height);
              v.Err? ==> r == Err(v.error) && unchanged(this, app, canvas)
      ensures var v := ValidateOptions(opts, src.width, src.height);
              v.Ok? ==>
                var o, vw, vh := v.value, ViewportWidth(v.value), ViewportHeight(v.value);
                r.Ok? && OutputFits(r.value, vw, vh, float)
                && stage == SetupStage(old(app.objects), old(app.next), old(drawCall), src, GetSdfMain, plane, o)
                && StageReady(stage, None)
                && stage.objects[stage.drawCall].fragment == GetSdfMain
                && var d := Branch(stage, plane, o, vw, vh);
                   var t := Teardown(d.objects, d.next, stage.drawCall, d.out, vw, vh, float);
                   app.log == old(app.log) + (d.events + t.events) && app.objects == t.objects
                   && app.next == t.next && app.target == t.target
                   && app.width == vw && app.height == vh && canvas.width == vw && canvas.height == vh
                   && app.lost == (old(app.lost) || !float) && !canvas.attached
                   && drawCall == Some(stage.drawCall)
    {
      var v := ValidateOptions(opts, src.width, src.height);
      if v.Err? {
        r, stage := Err(v.error), Stage(app.objects, app.next, app.next, app.next);
        return;
      }
      var out;
      out, stage := RenderValid(src, v.value, float);
      r := Ok(out);
    }

    /** `render` past `validateOptions`. */
    method RenderValid(src: Image, o: Options, float: bool) returns (out: Output, ghost stage: Stage)
      requires Valid() && InRange(o)
      modifies this, app, canvas
      ensures Valid()
      ensures var vw, vh := ViewportWidth(o), ViewportHeight(o);
              OutputFits(out, vw, vh, float)
              && stage == SetupStage(old(app.objects), old(app.next), old(drawCall), src, GetSdfMain, plane, o)
              && StageReady(stage, None)
              && var d := Branch(stage, plane, o, vw, vh);
                 var t := Teardown(d.objects, d.next, stage.drawCall, d.out, vw, vh, float);
                 app.log == old(app.log) + (d.events + t.events) && app.objects == t.objects
                 && app.next == t.next && app.target == t.target
                 && app.width == vw && app.height == vh && canvas.width == vw && canvas.height == vh
                 && app.lost == (old(app.lost) || !float) && !canvas.attached
                 && drawCall == Some(stage.drawCall)
    {
      var texture, drawCall := Setup(src, o);
      stage := Stage(app.objects, texture, drawCall, app.next);
      var viewportWidth, viewportHeight := ViewportWidth(o), ViewportHeight(o);
      var outRt: RenderTarget;
      var drawCall2: Option<Handle> := None;
      if o.signed {
        var merge;
        outRt, merge := RenderSigned(texture, drawCall, o, viewportWidth, viewportHeight);
        drawCall2 := Some(merge);
      } else {
        outRt := DrawSdf(app, drawCall, texture, o.spread, true);
      }
      ghost var d := Branch(stage, plane, o, viewportWidth, viewportHeight);
      ghost var log1 := app.log;
      out := Finish(outRt, if o.signed then drawCall2.value else drawCall, viewportWidth, viewportHeight, float);
      AppendAssoc(old(app.log), d.events,
                  Teardown(d.objects, d.next, drawCall, d.out, viewportWidth, viewportHeight, float).events);
    }

    /** `getSDF(src, opts)`: `render` with `float` set. */
    method GetSdf(src: Image, opts: PartialOptions) returns (r: Result<seq<real>, string>)
      requires Valid()
      modifies this, app, canvas
      ensures Valid()
      ensures var v := ValidateOptions(opts, src.width, src.height);
              (v.Err? ==> r == Err(v.error))
              && (v.Ok? ==> r.Ok? && |r.value| == BufferLength(ViewportWidth(v.value), ViewportHeight(v.value)))
    {
      var out, stage := Render(src, opts, true);
      r := if out.Ok? then Ok(out.value.data) else Err(out.error);
    }

    /** `getSDFImage(src, opts)`: `render` with `float` cleared. */
    method GetSdfImage(src: Image, opts: PartialOptions) returns (r: Result<Output, string>)
      requires Valid()
      modifies this, app, canvas
      ensures Valid()
      ensures var v := ValidateOptions(opts, src.width, src.height);
              (v.Err? ==> r == Err(v.error))
              && (v.Ok? ==> r == Ok(Picture(ViewportWidth(v.value), ViewportHeight(v.value))))
    {
      ghost var stage;
      r, stage := Render(src, opts, false);
    }

    /** `dispose()`: does nothing; the generator, its app and its canvas are left as they were. */
    method Dispose()
      ensures unchanged(this, app, canvas)
    {
    }

    /** The head of `render`: resize, upload the source image, take the SDF draw call and bind `src`, `padding`, `spread`. */
    method Setup(src: Image, o: Options) returns (texture: Handle, dc: Handle)
      requires Valid() && InRange(o)
      modifies this, app, canvas
      ensures Valid()
      ensures texture == old(app.next) && dc == SlotHandle(old(drawCall), texture + 1) && drawCall == Some(dc)
      ensures app.objects == Prepared(old(app.objects), texture, src, old(drawCall), GetSdfMain, plane, o)
      ensures app.next == SetupEnd(old(drawCall), texture)
      ensures app.width == ViewportWidth(o) && app.height == ViewportHeight(o)
      ensures canvas.width == ViewportWidth(o) && canvas.height == ViewportHeight(o)
      ensures canvas.attached == old(canvas.attached)
      ensures app.log == old(app.log) && app.target == old(app.target) && app.lost == old(app.lost)
    {
      var viewportWidth := ViewportWidth(o);
      var viewportHeight := ViewportHeight(o);
      app.Resize(viewportWidth, viewportHeight);
      canvas.width := viewportWidth;
      canvas.height := viewportHeight;
      texture := app.Create(SourceTexture(src));
      ghost var objs1 := app.objects;
      dc := GetSdfDrawCall(o.width, o.height);
      assert app.objects == if old(drawCall).None? then objs1[dc := DrawCall(GetSdfMain, plane, FreshUniforms(o.width, o.height))] else objs1;
      BindSource(app, dc, texture, o);
    }

    /**
     * The signed block of `render`: both passes, a third target, the "merge" draw call from
     * `#getMergeDrawCall` (which is `dc`) sampling both outputs, and one draw into the target.
     */
    method RenderSigned(texture: Handle, dc: Handle, o: Options, viewportWidth: real, viewportHeight: real)
      returns (outRt: RenderTarget, drawCall2: Handle)
      requires Valid() && drawCall == Some(dc) && o.spread >= 1.0
      requires app.width == viewportWidth && app.height == viewportHeight
      modifies this, app
      ensures Valid()
      ensures drawCall2 == dc && drawCall == old(drawCall)
      ensures var d := SignedDrawn(old(app.objects), dc, texture, old(app.next), plane, o, viewportWidth, viewportHeight);
              app.log == old(app.log) + d.events && app.objects == d.objects && app.next == d.next
              && outRt == d.out && app.target == Offscreen(outRt.framebuffer)
      ensures app.width == old(app.width) && app.height == old(app.height) && app.lost == old(app.lost)
    {
      var rt1, rt2 := BothPasses(texture, dc, o);
      outRt, drawCall2 := MergeStep(rt1, rt2, o);
    }

    /** `drawSDF` positive from `texture`, then negative, with the SDF draw call. */
    method BothPasses(texture: Handle, dc: Handle, o: Options) returns (rt1: RenderTarget, rt2: RenderTarget)
      requires Valid() && drawCall == Some(dc) && o.spread >= 1.0
      modifies app
      ensures Valid()
      ensures var n := old(app.next);
              rt1 == PositiveRun(old(app.objects), dc, texture, n, o).output
              && rt2 == NegativeRun(old(app.objects), dc, texture, n, o).output
              && app.objects == PassesObjects(old(app.objects), dc, texture, n, o, app.width, app.height)
              && app.log == old(app.log) + (PositiveRun(old(app.objects), dc, texture, n, o).events
                                            + NegativeRun(old(app.objects), dc, texture, n, o).events)
              && app.next == n + 8
      ensures app.width == old(app.width) && app.height == old(app.height) && app.lost == old(app.lost)
    {
      rt1 := DrawSdf(app, dc, texture, o.spread, true);
      rt2 := DrawSdf(app, dc, texture, o.spread, false);
    }

    /**
     * The merge part of the signed block: a third target, `#getMergeDrawCall` (the SDF draw
     * call, here) sampling both outputs, and one draw into the new target after clearing it.
     */
    method MergeStep(rt1: RenderTarget, rt2: RenderTarget, o: Options) returns (rt3: RenderTarget, drawCall2: Handle)
      requires Valid() && drawCall.Some?
      modifies this, app
      ensures Valid()
      ensures rt3 == RenderTargetAt(old(app.next)) && drawCall2 == old(drawCall).value && drawCall == old(drawCall)
      ensures app.objects == Merged(old(app.objects), old(app.next), app.width, app.height, old(drawCall), MergeSdf,
                                    plane, o, rt1, rt2)
      ensures app.next == old(app.next) + 2
      ensures app.log == old(app.log) + [Cleared(Offscreen(rt3.framebuffer)),
                                         Drew(drawCall2, Offscreen(rt3.framebuffer), app.objects[drawCall2].uniforms)]
      ensures app.target == Offscreen(rt3.framebuffer)
      ensures app.width == old(app.width) && app.height == old(app.height) && app.lost == old(app.lost)
    {
      rt3 := CreateRenderTarget(app);
      drawCall2 := GetMergeDrawCall(o.width, o.height);
      BindOutputs(app, drawCall2, rt1, rt2);
      app.DrawFramebuffer(Offscreen(rt3.framebuffer));
      app.Clear();
      app.Draw(drawCall2);
    }

    /** The end of `render`, on `outRt` and the draw call `dc` that redraws an image. */
    method Finish(outRt: RenderTarget, dc: Handle, viewportWidth: real, viewportHeight: real, float: bool)
      returns (out: Output)
      requires Valid() && dc in app.objects && app.objects[dc].DrawCall?
      requires viewportWidth >= 0.0 && viewportHeight >= 0.0
      requires canvas.width == viewportWidth && canvas.height == viewportHeight
      modifies app, canvas
      ensures Valid()
      ensures var t := Teardown(old(app.objects), old(app.next), dc, outRt, viewportWidth, viewportHeight, float);
              app.log == old(app.log) + t.events && app.objects == t.objects && app.next == t.next
              && (float ==> app.target == old(app.target)) && (!float ==> app.target == t.target)
      ensures OutputFits(out, viewportWidth, viewportHeight, float)
      ensures app.lost == (old(app.lost) || !float) && !canvas.attached
      ensures canvas.width == old(canvas.width) && canvas.height == old(canvas.height)
      ensures app.width == old(app.width) && app.height == old(app.height)
    {
      if float {
        var pixels := app.ReadPixels(outRt.framebuffer, viewportWidth, viewportHeight,
                                     BufferLength(viewportWidth, viewportHeight));
        canvas.Remove();
        out := Floats(pixels);
      } else {
        app.DrawFramebuffer(Screen);
        app.Clear();
        app.Uniform(dc, "useUnsignedFormat", Bool(true));
        app.Draw(dc);
        app.ToDataUrl();
        out := Picture(canvas.width, canvas.height);
        canvas.Remove();
        app.LoseContext();
      }
    }

    /** `#getSDFDrawCall(width, height)`: created with the SDF shader on first use, then returned untouched. */
    method GetSdfDrawCall(width: real, height: real) returns (dc: Handle)
      requires Valid()
      modifies this, app
      ensures Valid()
      ensures dc == SlotHandle(old(drawCall), old(app.next)) && drawCall == Some(dc)
      ensures old(drawCall).None? ==>
                app.objects == old(app.objects)[dc := DrawCall(GetSdfMain, plane, FreshUniforms(width, height))]
                && app.next == old(app.next) + 1
      ensures old(drawCall).Some? ==> app.objects == old(app.objects) && app.next == old(app.next)
      ensures app.width == old(app.width) && app.height == old(app.height) && app.target == old(app.target)
      ensures app.log == old(app.log) && app.lost == old(app.lost)
    {
      if drawCall.None? {
        var created := CreateDrawCall(app, GetSdfMain, plane, Some(width), Some(height));
        drawCall := Some(created);
      }
      dc := drawCall.value;
    }

    /**
     * `#getMergeDrawCall(width, height)`: tests and fills the SDF slot, not the merge slot. It
     * creates a merge-shader draw call only when the SDF slot is empty; otherwise it returns
     * the SDF draw call.
     */
    method GetMergeDrawCall(width: real, height: real) returns (dc: Handle)
      requires Valid()
      modifies this, app
      ensures old(drawCall).Some? ==> Valid()
      ensures old(drawCall).None? ==>
                app.Valid() && app.canvas == canvas && SlotHolds(app.objects, drawCall, MergeSdf, plane)
      ensures dc == SlotHandle(old(drawCall), old(app.next)) && drawCall == Some(dc) && mergeDrawCall == None
      ensures old(drawCall).None? ==>
                app.objects == old(app.objects)[dc := DrawCall(MergeSdf, plane, FreshUniforms(width, height))]
                && app.next == old(app.next) + 1
      ensures old(drawCall).Some? ==> app.objects == old(app.objects) && app.next == old(app.next)
      ensures app.width == old(app.width) && app.height == old(app.height) && app.target == old(app.target)
      ensures app.log == old(app.log) && app.lost == old(app.lost)
    {
      if drawCall.None? {
        var created := CreateDrawCall(app, MergeSdf, plane, Some(width), Some(height));
        drawCall := Some(created);
      }
      dc := drawCall.value;
    }
  }

  /** `getSDFInner(src, opts, float)`: a fresh generator for every call, then its `render`. */
  method GetSdfInner(src: Image, opts: PartialOptions, float: bool) returns (r: Result<Output, string>)
    ensures var v := ValidateOptions(opts, src.width, src.height);
            (v.Err? ==> r == Err(v.error))
            && (v.Ok? ==> r.Ok? && OutputFits(r.value, ViewportWidth(v.value), ViewportHeight(v.value), float))
  {
    var g := new SDFGenerator();
    ghost var stage;
    r, stage := g.Render(src, opts, float);
  }
}
