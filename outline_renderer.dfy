/**
 * `OutlineRenderer` (src/OutlineRenderer.ts): draws the source image and its SDF with the
 * outline shader into its own canvas. The style options fill an 8-slot uniform buffer and
 * the draw call is created once; every `render` uploads both images as textures, draws
 * once and deletes both textures again.
 */
module Outline {
  import opened Wrappers
  import opened Gpu
  import Utils
  import opened SdfGenerator
  import SdfOptions

  /** `OutlineOpts`: colours are RGBA, the shadow offset is (x, y). */
  datatype OutlineOpts = OutlineOpts(
    imageAlpha: real,
    outlineWidth: real,
    outlineSoftness: real,
    outlineColor: (real, real, real, real),
    shadowOffset: (real, real),
    shadowWidth: real,
    shadowSoftness: real,
    shadowColor: (real, real, real, real))

  /** `Partial<OutlineOpts>`. */
  datatype PartialOutlineOpts = PartialOutlineOpts(
    imageAlpha: Option<real>,
    outlineWidth: Option<real>,
    outlineSoftness: Option<real>,
    outlineColor: Option<(real, real, real, real)>,
    shadowOffset: Option<(real, real)>,
    shadowWidth: Option<real>,
    shadowSoftness: Option<real>,
    shadowColor: Option<(real, real, real, real)>)

  const NoOutlineOpts := PartialOutlineOpts(None, None, None, None, None, None, None, None)

  /** Opaque red. */
  const Red := (1.0, 0.0, 0.0, 1.0)

  /** The defaults of `validateOutlineOpts`. */
  const DefaultOutlineOpts := OutlineOpts(1.0, 10.0, 0.5, Red, (10.0, 10.0), 30.0, 0.5, Red)

  /** `validateOutlineOpts(opts)`: every missing field takes its default; it never throws. */
  function ValidateOutlineOpts(opts: PartialOutlineOpts): (o: OutlineOpts)
    ensures opts.imageAlpha.None? ==> o.imageAlpha == 1.0
    ensures opts.outlineWidth.None? ==> o.outlineWidth == 10.0
    ensures opts.outlineSoftness.None? ==> o.outlineSoftness == 0.5
    ensures opts.outlineColor.None? ==> o.outlineColor == (1.0, 0.0, 0.0, 1.0)
    ensures opts.shadowOffset.None? ==> o.shadowOffset == (10.0, 10.0)
    ensures opts.shadowWidth.None? ==> o.shadowWidth == 30.0
    ensures opts.shadowSoftness.None? ==> o.shadowSoftness == 0.5
    ensures opts.shadowColor.None? ==> o.shadowColor == (1.0, 0.0, 0.0, 1.0)
  {
    var d := DefaultOutlineOpts;
    OutlineOpts(
      opts.imageAlpha.GetOr(d.imageAlpha),
      opts.outlineWidth.GetOr(d.outlineWidth),
      opts.outlineSoftness.GetOr(d.outlineSoftness),
      opts.outlineColor.GetOr(d.outlineColor),
      opts.shadowOffset.GetOr(d.shadowOffset),
      opts.shadowWidth.GetOr(d.shadowWidth),
      opts.shadowSoftness.GetOr(d.shadowSoftness),
      opts.shadowColor.GetOr(d.shadowColor))
  }

  /** Every field supplied. */
  function Supplied(o: OutlineOpts): PartialOutlineOpts {
    PartialOutlineOpts(Some(o.imageAlpha), Some(o.outlineWidth), Some(o.outlineSoftness), Some(o.outlineColor),
                       Some(o.shadowOffset), Some(o.shadowWidth), Some(o.shadowSoftness), Some(o.shadowColor))
  }

  /** With nothing supplied, the defaults: alpha 1, outline 10 wide and 0.5 soft in red, shadow offset (10, 10), 30 wide and 0.5 soft in red. */
  lemma OutlineDefaults()
    ensures ValidateOutlineOpts(NoOutlineOpts)
            == OutlineOpts(1.0, 10.0, 0.5, (1.0, 0.0, 0.0, 1.0), (10.0, 10.0), 30.0, 0.5, (1.0, 0.0, 0.0, 1.0))
  {
  }

  /** A complete record is returned as it is (nothing is clamped), and validating twice changes nothing more. */
  lemma OutlineRoundTrip(o: OutlineOpts, opts: PartialOutlineOpts)
    ensures ValidateOutlineOpts(Supplied(o)) == o
    ensures ValidateOutlineOpts(Supplied(ValidateOutlineOpts(opts))) == ValidateOutlineOpts(opts)
  {
  }

  /** A field that is supplied is returned unchanged, whatever the other fields hold. */
  lemma OutlinePassThrough(opts: PartialOutlineOpts)
    ensures var o := ValidateOutlineOpts(opts);
            (opts.imageAlpha.Some? ==> o.imageAlpha == opts.imageAlpha.value)
            && (opts.outlineWidth.Some? ==> o.outlineWidth == opts.outlineWidth.value)
            && (opts.outlineSoftness.Some? ==> o.outlineSoftness == opts.outlineSoftness.value)
            && (opts.outlineColor.Some? ==> o.outlineColor == opts.outlineColor.value)
            && (opts.shadowOffset.Some? ==> o.shadowOffset == opts.shadowOffset.value)
            && (opts.shadowWidth.Some? ==> o.shadowWidth == opts.shadowWidth.value)
            && (opts.shadowSoftness.Some? ==> o.shadowSoftness == opts.shadowSoftness.value)
            && (opts.shadowColor.Some? ==> o.shadowColor == opts.shadowColor.value)
  {
  }

  /** The layout of the `OutlineOpts` uniform block. */
  const OutlineLayout: seq<Kind> := [Float, Float, Float, FloatVec4, FloatVec2, Float, Float, FloatVec4]

  /** What `#createUniformBuffer` writes to slots 0 to 7. */
  function OutlineSlots(o: OutlineOpts): (vals: seq<Value>)
    ensures |vals| == |OutlineLayout|
  {
    [Num(o.imageAlpha), Num(o.outlineWidth), Num(o.outlineSoftness), Vec4(o.outlineColor),
     Vec2(o.shadowOffset), Num(o.shadowWidth), Num(o.shadowSoftness), Vec4(o.shadowColor)]
  }

  /** Each slot receives a value of the kind the layout declares for it, and each option lands in its own slot. */
  lemma OutlineSlotsFit(o: OutlineOpts)
    ensures forall i | 0 <= i < |OutlineLayout| :: Fits(OutlineSlots(o)[i], OutlineLayout[i])
    ensures OutlineSlots(o)[0] == Num(o.imageAlpha) && OutlineSlots(o)[3] == Vec([o.outlineColor.0, o.outlineColor.1, o.outlineColor.2, o.outlineColor.3])
    ensures OutlineSlots(o)[4] == Vec([o.shadowOffset.0, o.shadowOffset.1])
    ensures OutlineSlots(o)[7] == Vec([o.shadowColor.0, o.shadowColor.1, o.shadowColor.2, o.shadowColor.3])
  {
  }

  /** What `validateOpts` (from the SDF generator's module) returns; it is not part of this model. */
  datatype SdfParams = SdfParams(spread: real, padding: real, pixelRatio: real, signed: bool)

  /** The size the SDF texture is declared with along one axis: `(size + padding * 2) * pixelRatio`. */
  function SdfExtent(size: real, p: SdfParams): real {
    (size + p.padding * 2.0) * p.pixelRatio
  }

  /**
   * Given the options the SDF was generated with, the size `render` declares for the SDF
   * texture is the generator's viewport, so the texture is as large as the SDF it holds.
   */
  lemma SdfExtentIsViewport(image: Image, p: SdfParams, o: SdfOptions.Options)
    requires image.width == o.width >= 1.0 && image.height == o.height >= 1.0
    requires o.padding >= 0.0 && o.pixelRatio >= 0.0 && p.padding == o.padding && p.pixelRatio == o.pixelRatio
    ensures SdfExtent(image.width, p) == SdfOptions.ViewportWidth(o)
    ensures SdfExtent(image.height, p) == SdfOptions.ViewportHeight(o)
  {
  }

  /** The draw call's uniforms after `render` binds the block, the image resolution and the SDF options. */
  function Bound(u: Uniforms, ub: Handle, image: Image, p: SdfParams): Uniforms {
    u["OutlineOpts" := Block(ub)]["resolution" := Vec([image.width, image.height])]["padding" := Num(p.padding)]
     ["spread" := Num(p.spread)]["isSigned" := Bool(p.signed)]
  }

  /** ... and then both textures. */
  function OutlineUniforms(u: Uniforms, ub: Handle, image: Image, p: SdfParams, texSrc: Handle, texSdf: Handle): Uniforms {
    Bound(u, ub, image, p)["src" := Tex(texSrc)]["sdf" := Tex(texSdf)]
  }

  /** The commands of one `render`: the eight slot writes and the upload, one clear and one draw on the canvas, and both texture deletions. */
  function RenderEvents(ub: Handle, o: OutlineOpts, dc: Handle, u: Uniforms, texSrc: Handle, texSdf: Handle): seq<Event> {
    SlotWrites(ub, OutlineSlots(o)) + [BufferUpdated(ub), Cleared(Screen), Drew(dc, Screen, u), Deleted(texSrc), Deleted(texSdf)]
  }

  /**
   * A render writes slot i with the i-th option for i = 0..7 in that order, uploads the
   * buffer, then clears the canvas once and draws once, then deletes the source texture and
   * the SDF texture, as its last two commands.
   */
  lemma RenderEventsShape(ub: Handle, o: OutlineOpts, dc: Handle, u: Uniforms, texSrc: Handle, texSdf: Handle)
    ensures var es := RenderEvents(ub, o, dc, u, texSrc, texSdf);
            |es| == 13
            && (forall i | 0 <= i < 8 :: es[i] == SlotWritten(ub, i, OutlineSlots(o)[i]))
            && es[8] == BufferUpdated(ub) && es[9] == Cleared(Screen) && es[10] == Drew(dc, Screen, u)
            && es[11] == Deleted(texSrc) && es[12] == Deleted(texSdf)
            && DrawCount(es) == 1
            && (forall i | 0 <= i < |es| && es[i].Cleared? :: i == 9)
  {
    var es := RenderEvents(ub, o, dc, u, texSrc, texSdf);
    var w := SlotWrites(ub, OutlineSlots(o));
    var tail := [BufferUpdated(ub), Cleared(Screen), Drew(dc, Screen, u), Deleted(texSrc), Deleted(texSdf)];
    NoDraws(w);
    DrawCountAppend(w, tail);
    assert tail == [tail[0], tail[1]] + [tail[2], tail[3]] + [tail[4]];
    DrawCountAppend([tail[0], tail[1]] + [tail[2], tail[3]], [tail[4]]);
    DrawCountAppend([tail[0], tail[1]], [tail[2], tail[3]]);
    DrawCountPair(tail[0], tail[1]);
    DrawCountPair(tail[2], tail[3]);
    assert [tail[4]][1..] == [];
  }

  /** Deleting the two textures `render` created leaves the objects it started with, the draw call updated. */
  lemma DropTextures(objs: map<Handle, Object>, m: map<Handle, Object>, dc: Handle, a: Handle, b: Handle)
    requires a !in objs && b !in objs && dc in objs
    requires m.Keys == objs.Keys + {a, b}
    requires forall k | k in objs && k != dc :: m[k] == objs[k]
    ensures m - {a} - {b} == objs[dc := m[dc]]
  {
  }

  lemma RenderLog(log0: seq<Event>, ub: Handle, o: OutlineOpts, dc: Handle, u: Uniforms, n: Handle)
    ensures log0 + SlotWrites(ub, OutlineSlots(o)) + [BufferUpdated(ub)] + [Cleared(Screen), Drew(dc, Screen, u), Deleted(n), Deleted(n + 1)]
            == log0 + RenderEvents(ub, o, dc, u, n, n + 1)
  {
  }

  /** The draw call's uniforms before `render` binds anything: those it keeps from earlier renders, or `resolution` only when it is created now. */
  function PriorUniforms(objs: map<Handle, Object>, slot: Option<Handle>): Uniforms
    requires slot.Some? ==> slot.value in objs && objs[slot.value].DrawCall?
  {
    if slot.Some? then objs[slot.value].uniforms else map["resolution" := Undefined]
  }

  class OutlineRenderer {
    const canvas: Canvas
    const app: App
    const plane: Handle
    var drawCall: Option<Handle>
    var uniformBuffer: Option<Handle>

    /**
     * The app draws into this renderer's canvas and never binds another framebuffer; a
     * filled slot holds a live draw call of the outline shader on the plane, or a live
     * uniform buffer of the `OutlineOpts` layout with no slot beyond it written.
     */
    ghost predicate Valid()
      reads this, app
    {
      app.Valid() && app.canvas == canvas && app.target == Screen
      && (drawCall.Some? ==>
            drawCall.value in app.objects && app.objects[drawCall.value].DrawCall?
            && app.objects[drawCall.value].fragment == OutlineShader && app.objects[drawCall.value].geometry == plane)
      && (uniformBuffer.Some? ==>
            uniformBuffer.value in app.objects && app.objects[uniformBuffer.value].UniformBuffer?
            && app.objects[uniformBuffer.value].layout == OutlineLayout
            && forall k | k in app.objects[uniformBuffer.value].slots :: k < |OutlineLayout|)
      && (drawCall.Some? && uniformBuffer.Some? ==> drawCall.value != uniformBuffer.value)
    }

    /** A detached 300×150 canvas, an app on it holding only the plane geometry, nothing memoised. */
    constructor ()
      ensures Valid() && fresh(canvas) && fresh(app)
      ensures canvas.width == 300.0 && canvas.height == 150.0 && !canvas.attached
      ensures app.log == [] && !app.lost && plane == 2 && app.next == 3
      ensures drawCall == None && uniformBuffer == None
    {
      var c := new Canvas();
      var a := new App(c);
      var p := Utils.CreatePlaneGeometry(a);
      canvas, app, plane := c, a, p;
      drawCall, uniformBuffer := None, None;
    }

    /**
     * `render(image, sdf, sdfOpts, outlineOpts)` with `p` what `validateOpts(sdfOpts)`
     * returned. The canvas gets `image` scaled by `pixelRatio` (CSS size: the image's); the
     * uniform buffer and the draw call are created on the first render only; both textures
     * are created and deleted again, so only those two memoised objects stay. The two
     * handles taken last hold, as created, the image and the SDF at the padded, scaled size.
     */
    method Render(image: Image, sdf: seq<real>, p: SdfParams, opts: PartialOutlineOpts)
      requires Valid()
      modifies this, app, canvas
      ensures Valid()
      ensures canvas.width == image.width * p.pixelRatio && canvas.height == image.height * p.pixelRatio
      ensures canvas.cssWidth == Some(image.width) && canvas.cssHeight == Some(image.height)
      ensures app.width == canvas.width && app.height == canvas.height
      ensures var n := old(app.next);
              var ub := SlotHandle(old(uniformBuffer), n);
              var n1 := if old(uniformBuffer).None? then n + 1 else n;
              var dc := SlotHandle(old(drawCall), n1);
              var texSrc := if old(drawCall).None? then n1 + 1 else n1;
              var o := ValidateOutlineOpts(opts);
              var u := OutlineUniforms(PriorUniforms(old(app.objects), old(drawCall)), ub, image, p, texSrc, texSrc + 1);
              uniformBuffer == Some(ub) && drawCall == Some(dc) && app.next == texSrc + 2
              && texSrc in app.created && app.created[texSrc] == SourceTexture(image)
              && texSrc + 1 in app.created && app.created[texSrc + 1] == SdfTexture(sdf, SdfExtent(image.width, p), SdfExtent(image.height, p))
              && app.log == old(app.log) + RenderEvents(ub, o, dc, u, texSrc, texSrc + 1)
              && app.objects == old(app.objects)[ub := UniformBuffer(OutlineLayout, SlotMap(OutlineSlots(o)))]
                                                [dc := DrawCall(OutlineShader, plane, u)]
      ensures app.lost == old(app.lost) && canvas.attached == old(canvas.attached)
    {
      Size(image, p);
      Paint(ValidateOutlineOpts(opts), image, sdf, p);
    }

    /** Everything `render` does after sizing the canvas, with `o` the validated options. */
    method Paint(o: OutlineOpts, image: Image, sdf: seq<real>, p: SdfParams)
      requires Valid()
      modifies this, app
      ensures Valid()
      ensures var n := old(app.next);
              var ub := SlotHandle(old(uniformBuffer), n);
              var n1 := if old(uniformBuffer).None? then n + 1 else n;
              var dc := SlotHandle(old(drawCall), n1);
              var texSrc := if old(drawCall).None? then n1 + 1 else n1;
              var u := OutlineUniforms(PriorUniforms(old(app.objects), old(drawCall)), ub, image, p, texSrc, texSrc + 1);
              uniformBuffer == Some(ub) && drawCall == Some(dc) && app.next == texSrc + 2
              && texSrc in app.created && app.created[texSrc] == SourceTexture(image)
              && texSrc + 1 in app.created && app.created[texSrc + 1] == SdfTexture(sdf, SdfExtent(image.width, p), SdfExtent(image.height, p))
              && app.log == old(app.log) + RenderEvents(ub, o, dc, u, texSrc, texSrc + 1)
              && app.objects == old(app.objects)[ub := UniformBuffer(OutlineLayout, SlotMap(OutlineSlots(o)))]
                                                [dc := DrawCall(OutlineShader, plane, u)]
      ensures app.width == old(app.width) && app.height == old(app.height) && app.lost == old(app.lost)
    {
      ghost var log0, objs0 := app.log, app.objects;
      var ub, dc := Prepare(o, image, p);
      ghost var n := app.next;
      DrawImages(dc, image, sdf, p);
      ghost var u := OutlineUniforms(PriorUniforms(objs0, old(drawCall)), ub, image, p, n, n + 1);
      ghost var bound := DrawCall(OutlineShader, plane, Bound(PriorUniforms(objs0, old(drawCall)), ub, image, p));
      Overwrite(objs0[ub := UniformBuffer(OutlineLayout, SlotMap(OutlineSlots(o)))], dc, bound, DrawCall(OutlineShader, plane, u));
      RenderLog(log0, ub, o, dc, u, n);
    }

    /** Sizes the canvas (and with it the app's drawing buffer) to the image scaled by `pixelRatio`, with the image's own CSS size. */
    method Size(image: Image, p: SdfParams)
      requires Valid()
      modifies app, canvas
      ensures Valid()
      ensures canvas.width == image.width * p.pixelRatio && canvas.height == image.height * p.pixelRatio
      ensures canvas.cssWidth == Some(image.width) && canvas.cssHeight == Some(image.height)
      ensures app.width == canvas.width && app.height == canvas.height
      ensures app.next == old(app.next) && app.objects == old(app.objects) && app.log == old(app.log)
      ensures app.lost == old(app.lost) && canvas.attached == old(canvas.attached)
    {
      canvas.width := image.width * p.pixelRatio;
      canvas.height := image.height * p.pixelRatio;
      canvas.cssWidth := Some(image.width);
      canvas.cssHeight := Some(image.height);
      app.Resize(canvas.width, canvas.height);
    }

    /** The uniform buffer filled with `o`, the draw call, and the block and SDF options bound to it. */
    method Prepare(o: OutlineOpts, image: Image, p: SdfParams) returns (ub: Handle, dc: Handle)
      requires Valid()
      modifies this, app
      ensures Valid()
      ensures var n := old(app.next);
              var n1 := if old(uniformBuffer).None? then n + 1 else n;
              ub == SlotHandle(old(uniformBuffer), n) && dc == SlotHandle(old(drawCall), n1)
              && app.next == (if old(drawCall).None? then n1 + 1 else n1)
      ensures uniformBuffer == Some(ub) && drawCall == Some(dc)
      ensures app.log == old(app.log) + SlotWrites(ub, OutlineSlots(o)) + [BufferUpdated(ub)]
      ensures app.objects == old(app.objects)[ub := UniformBuffer(OutlineLayout, SlotMap(OutlineSlots(o)))]
                                             [dc := DrawCall(OutlineShader, plane, Bound(PriorUniforms(old(app.objects), old(drawCall)), ub, image, p))]
      ensures app.width == old(app.width) && app.height == old(app.height) && app.lost == old(app.lost)
    {
      ub := CreateUniformBuffer(o);
      dc := CreateDrawCall();
      BindOptions(dc, ub, image, p);
    }

    /**
     * Uploads the image and the SDF as two fresh textures, binds them as `src` and `sdf`,
     * clears the canvas, draws once and deletes both textures.
     */
    method DrawImages(dc: Handle, image: Image, sdf: seq<real>, p: SdfParams)
      requires Valid() && drawCall == Some(dc)
      modifies app
      ensures Valid()
      ensures var n := old(app.next);
              app.created == old(app.created)[n := SourceTexture(image)]
                                             [n + 1 := SdfTexture(sdf, SdfExtent(image.width, p), SdfExtent(image.height, p))]
      ensures var n := old(app.next);
              var u := old(app.objects[dc].uniforms)["src" := Tex(n)]["sdf" := Tex(n + 1)];
              app.next == n + 2
              && app.objects == old(app.objects)[dc := DrawCall(OutlineShader, plane, u)]
              && app.log == old(app.log) + [Cleared(Screen), Drew(dc, Screen, u), Deleted(n), Deleted(n + 1)]
      ensures app.width == old(app.width) && app.height == old(app.height) && app.lost == old(app.lost)
    {
      ghost var objs := app.objects;
      var texSrc, texSdf;
      texSrc, texSdf := BindTextures(dc, image, sdf, p);
      ghost var m := app.objects;

      app.Clear();
      app.Draw(dc);

      app.Delete(texSrc);
      app.Delete(texSdf);
      DropTextures(objs, m, dc, texSrc, texSdf);
    }

    /** Uploads the image and the SDF as two fresh textures and binds them as `src` and `sdf`. */
    method BindTextures(dc: Handle, image: Image, sdf: seq<real>, p: SdfParams) returns (texSrc: Handle, texSdf: Handle)
      requires Valid() && drawCall == Some(dc)
      modifies app
      ensures Valid()
      ensures texSrc == old(app.next) && texSdf == texSrc + 1 && app.next == texSrc + 2
      ensures app.objects.Keys == old(app.objects).Keys + {texSrc, texSdf}
      ensures app.objects[texSrc] == SourceTexture(image)
      ensures app.objects[texSdf] == SdfTexture(sdf, SdfExtent(image.width, p), SdfExtent(image.height, p))
      ensures app.created == old(app.created)[texSrc := app.objects[texSrc]][texSdf := app.objects[texSdf]]
      ensures forall k | k in old(app.objects) && k != dc :: app.objects[k] == old(app.objects)[k]
      ensures app.objects[dc] == DrawCall(OutlineShader, plane, old(app.objects[dc].uniforms)["src" := Tex(texSrc)]["sdf" := Tex(texSdf)])
      ensures app.log == old(app.log) && app.target == old(app.target)
      ensures app.width == old(app.width) && app.height == old(app.height) && app.lost == old(app.lost)
    {
      texSrc := app.Create(SourceTexture(image));
      var sdfW := (image.width + p.padding * 2.0) * p.pixelRatio;
      var sdfH := (image.height + p.padding * 2.0) * p.pixelRatio;
      texSdf := app.Create(SdfTexture(sdf, sdfW, sdfH));
      app.Uniform(dc, "src", Tex(texSrc));
      app.Uniform(dc, "sdf", Tex(texSdf));
    }

    /** `drawCall.uniformBlock("OutlineOpts", ub).uniform("resolution", ...).uniform("padding", ...).uniform("spread", ...).uniform("isSigned", ...)`. */
    method BindOptions(dc: Handle, ub: Handle, image: Image, p: SdfParams)
      requires Valid() && drawCall == Some(dc)
      modifies app
      ensures Valid()
      ensures app.objects == old(app.objects)[dc := old(app.objects[dc]).(uniforms := Bound(old(app.objects[dc].uniforms), ub, image, p))]
      ensures app.width == old(app.width) && app.height == old(app.height) && app.next == old(app.next)
      ensures app.target == old(app.target) && app.log == old(app.log) && app.lost == old(app.lost)
    {
      app.Uniform(dc, "OutlineOpts", Block(ub));
      app.Uniform(dc, "resolution", Vec([image.width, image.height]));
      app.Uniform(dc, "padding", Num(p.padding));
      app.Uniform(dc, "spread", Num(p.spread));
      app.Uniform(dc, "isSigned", Bool(p.signed));
    }

    /**
     * `clear()`: detaches the canvas and loses the context.
     */
    method Clear()
      modifies app, canvas
      ensures app.lost && !canvas.attached && app.log == old(app.log) + [ContextLost]
      ensures app.objects == old(app.objects) && app.next == old(app.next) && app.target == old(app.target)
      ensures canvas.width == old(canvas.width) && canvas.height == old(canvas.height)
    {
      canvas.Remove();
      app.LoseContext();
    }

    /**
     * `#createUniformBuffer(outlineOpts)`: the memoised buffer, or a new one of the
     * `OutlineOpts` layout; all eight slots are rewritten in order and uploaded, so the
     * buffer holds exactly this render's options.
     */
    method CreateUniformBuffer(o: OutlineOpts) returns (ub: Handle)
      requires Valid()
      modifies this, app
      ensures Valid()
      ensures ub == SlotHandle(old(uniformBuffer), old(app.next)) && uniformBuffer == Some(ub)
      ensures app.next == if old(uniformBuffer).None? then old(app.next) + 1 else old(app.next)
      ensures app.objects == old(app.objects)[ub := UniformBuffer(OutlineLayout, SlotMap(OutlineSlots(o)))]
      ensures app.log == old(app.log) + SlotWrites(ub, OutlineSlots(o)) + [BufferUpdated(ub)]
      ensures drawCall == old(drawCall)
      ensures app.width == old(app.width) && app.height == old(app.height) && app.target == old(app.target)
      ensures app.lost == old(app.lost)
    {
      if uniformBuffer.Some? {
        ub := uniformBuffer.value;
      } else {
        ub := app.Create(UniformBuffer(OutlineLayout, map[]));
      }
      FillBuffer(app, ub, OutlineSlots(o));
      uniformBuffer := Some(ub);
    }

    /** `#createDrawCall()`: the memoised draw call, or a new one of the outline shader on the plane with no resolution given. */
    method CreateDrawCall() returns (dc: Handle)
      requires Valid()
      modifies this, app
      ensures Valid()
      ensures dc == SlotHandle(old(drawCall), old(app.next)) && drawCall == Some(dc)
      ensures old(drawCall).None? ==>
                app.objects == old(app.objects)[dc := DrawCall(OutlineShader, plane, map["resolution" := Undefined])]
                && app.next == old(app.next) + 1
      ensures old(drawCall).Some? ==> app.objects == old(app.objects) && app.next == old(app.next)
      ensures uniformBuffer == old(uniformBuffer)
      ensures app.width == old(app.width) && app.height == old(app.height) && app.target == old(app.target)
      ensures app.log == old(app.log) && app.lost == old(app.lost)
    {
      if drawCall.Some? {
        dc := drawCall.value;
      } else {
        dc := Utils.CreateDrawCall(app, OutlineShader, plane, None, None);
      }
      drawCall := Some(dc);
    }
  }

  /** Rewrites all eight slots of an `OutlineOpts` buffer and uploads it: afterwards it holds `vals` and nothing else. */
  method FillBuffer(app: App, ub: Handle, vals: seq<Value>)
    requires ub in app.objects && app.objects[ub].UniformBuffer? && app.objects[ub].layout == OutlineLayout
    requires forall k | k in app.objects[ub].slots :: k < |OutlineLayout|
    requires |vals| == |OutlineLayout|
    modifies app
    ensures app.objects == old(app.objects)[ub := UniformBuffer(OutlineLayout, SlotMap(vals))]
    ensures app.log == old(app.log) + SlotWrites(ub, vals) + [BufferUpdated(ub)]
    ensures app.width == old(app.width) && app.height == old(app.height) && app.next == old(app.next)
    ensures app.target == old(app.target) && app.lost == old(app.lost)
  {
    ghost var b := app.objects[ub];
    WriteEightSlots(app, ub, vals);
    AllSlotsWritten(b.slots, vals);
    app.UpdateBuffer(ub);
  }

  /** `.set(0, vals[0]).set(1, vals[1]) ... .set(7, vals[7])` on the uniform buffer `ub`. */
  method WriteEightSlots(app: App, ub: Handle, vals: seq<Value>)
    requires ub in app.objects && app.objects[ub].UniformBuffer? && |app.objects[ub].layout| == 8 && |vals| == 8
    modifies app
    ensures var b := old(app.objects[ub]);
            app.objects == old(app.objects)[ub := b.(slots := b.slots[0 := vals[0]][1 := vals[1]][2 := vals[2]][3 := vals[3]]
                                                              [4 := vals[4]][5 := vals[5]][6 := vals[6]][7 := vals[7]])]
    ensures app.log == old(app.log) + SlotWrites(ub, vals)
    ensures app.width == old(app.width) && app.height == old(app.height) && app.next == old(app.next)
    ensures app.target == old(app.target) && app.lost == old(app.lost)
  {
    WriteFourSlots(app, ub, 0, vals[..4]);
    WriteFourSlots(app, ub, 4, vals[4..]);
    EightWrites(ub, vals);
  }

  lemma EightWrites(ub: Handle, vals: seq<Value>)
    requires |vals| == 8
    ensures SlotWrites(ub, vals)
            == [SlotWritten(ub, 0, vals[0]), SlotWritten(ub, 1, vals[1]), SlotWritten(ub, 2, vals[2]), SlotWritten(ub, 3, vals[3]),
                SlotWritten(ub, 4, vals[4]), SlotWritten(ub, 5, vals[5]), SlotWritten(ub, 6, vals[6]), SlotWritten(ub, 7, vals[7])]
  {
  }

  /** Writing slots 0..7 of a buffer with no other slot written leaves exactly `SlotMap(vals)`. */
  lemma AllSlotsWritten(slots: map<nat, Value>, vals: seq<Value>)
    requires |vals| == 8 && forall k | k in slots :: k < 8
    ensures slots[0 := vals[0]][1 := vals[1]][2 := vals[2]][3 := vals[3]][4 := vals[4]][5 := vals[5]][6 := vals[6]][7 := vals[7]]
            == SlotMap(vals)
  {
  }
}
