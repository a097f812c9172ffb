/**
 * `drawOutlines` (src/stroke.ts): validates the SDF options and the stroke style, appends a
 * new canvas to the page and draws the image with its SDF once through the stroke shader.
 * Everything it creates lives in a fresh app, so every handle is known: the two textures
 * are 0 and 1, the uniform buffer 2, the plane 3 to 5 and the draw call 6.
 */
module Stroke {
  import opened Wrappers
  import opened Gpu
  import opened SdfOptions
  import Utils
  import SdfGenerator

  /** `DrawOutlinesOptions`: colours are RGBA, the shadow offset is (x, y). */
  datatype DrawOutlinesOptions = DrawOutlinesOptions(
    imageAlpha: real,
    strokeWidth: real,
    strokeColor: (real, real, real, real),
    shadowOffset: (real, real),
    shadowWidth: real,
    shadowColor: (real, real, real, real))

  /** `Partial<DrawOutlinesOptions>`. */
  datatype PartialDrawOutlinesOptions = PartialDrawOutlinesOptions(
    imageAlpha: Option<real>,
    strokeWidth: Option<real>,
    strokeColor: Option<(real, real, real, real)>,
    shadowOffset: Option<(real, real)>,
    shadowWidth: Option<real>,
    shadowColor: Option<(real, real, real, real)>)

  const NoStyle := PartialDrawOutlinesOptions(None, None, None, None, None, None)

  /** `validateOutlineOptions(opts)`: every missing field takes its default; it never throws. */
  function ValidateOutlineOptions(opts: PartialDrawOutlinesOptions): (s: DrawOutlinesOptions)
    ensures opts.imageAlpha.None? ==> s.imageAlpha == 1.0
    ensures opts.strokeWidth.None? ==> s.strokeWidth == 10.0
    ensures opts.strokeColor.None? ==> s.strokeColor == (1.0, 0.0, 0.0, 1.0)
    ensures opts.shadowOffset.None? ==> s.shadowOffset == (10.0, 10.0)
    ensures opts.shadowWidth.None? ==> s.shadowWidth == 30.0
    ensures opts.shadowColor.None? ==> s.shadowColor == (1.0, 0.0, 0.0, 1.0)
  {
    DrawOutlinesOptions(
      opts.imageAlpha.GetOr(1.0),
      opts.strokeWidth.GetOr(10.0),
      opts.strokeColor.GetOr((1.0, 0.0, 0.0, 1.0)),
      opts.shadowOffset.GetOr((10.0, 10.0)),
      opts.shadowWidth.GetOr(30.0),
      opts.shadowColor.GetOr((1.0, 0.0, 0.0, 1.0)))
  }

  /** Every field supplied. */
  function Supplied(s: DrawOutlinesOptions): PartialDrawOutlinesOptions {
    PartialDrawOutlinesOptions(Some(s.imageAlpha), Some(s.strokeWidth), Some(s.strokeColor),
                               Some(s.shadowOffset), Some(s.shadowWidth), Some(s.shadowColor))
  }

  /** With nothing supplied: alpha 1, a red stroke 10 wide, a red shadow 30 wide offset by (10, 10). */
  lemma StyleDefaults()
    ensures ValidateOutlineOptions(NoStyle)
            == DrawOutlinesOptions(1.0, 10.0, (1.0, 0.0, 0.0, 1.0), (10.0, 10.0), 30.0, (1.0, 0.0, 0.0, 1.0))
  {
  }

  /** A complete style is returned as it is (nothing is clamped), and validating twice changes nothing more. */
  lemma StyleRoundTrip(s: DrawOutlinesOptions, opts: PartialDrawOutlinesOptions)
    ensures ValidateOutlineOptions(Supplied(s)) == s
    ensures ValidateOutlineOptions(Supplied(ValidateOutlineOptions(opts))) == ValidateOutlineOptions(opts)
  {
  }

  /** A field that is supplied is returned unchanged, whatever the other fields hold. */
  lemma StylePassThrough(opts: PartialDrawOutlinesOptions)
    ensures var s := ValidateOutlineOptions(opts);
            (opts.imageAlpha.Some? ==> s.imageAlpha == opts.imageAlpha.value)
            && (opts.strokeWidth.Some? ==> s.strokeWidth == opts.strokeWidth.value)
            && (opts.strokeColor.Some? ==> s.strokeColor == opts.strokeColor.value)
            && (opts.shadowOffset.Some? ==> s.shadowOffset == opts.shadowOffset.value)
            && (opts.shadowWidth.Some? ==> s.shadowWidth == opts.shadowWidth.value)
            && (opts.shadowColor.Some? ==> s.shadowColor == opts.shadowColor.value)
  {
  }

  /** The layout of the stroke shader's `OutlineOpts` uniform block. */
  const StrokeLayout: seq<Kind> := [Float, Float, FloatVec4, FloatVec2, Float, FloatVec4]

  /** What `drawOutlines` writes to slots 0 to 5. */
  function StrokeSlots(s: DrawOutlinesOptions): (vals: seq<Value>)
    ensures |vals| == |StrokeLayout|
  {
    [Num(s.imageAlpha), Num(s.strokeWidth), Vec4(s.strokeColor), Vec2(s.shadowOffset), Num(s.shadowWidth), Vec4(s.shadowColor)]
  }

  /** Each slot receives a value of the kind the layout declares for it. */
  lemma StrokeSlotsFit(s: DrawOutlinesOptions)
    ensures forall i | 0 <= i < |StrokeLayout| :: Fits(StrokeSlots(s)[i], StrokeLayout[i])
  {
  }

  /**
   * The draw call's uniforms when it draws: `resolution` from `createDrawCall` (set again to
   * the same value), then the block, the SDF options and the two textures.
   */
  function StrokeUniforms(o: Options): Uniforms {
    map["resolution" := Vec([o.width, o.height])]
      ["OutlineOpts" := Block(2)]["resolution" := Vec([o.width, o.height])]["padding" := Num(o.padding)]
      ["spread" := Num(o.spread)]["isSigned" := Bool(o.signed)]["src" := Tex(0)]["sdf" := Tex(1)]
  }

  /** The objects of the app after `drawOutlines`. */
  function StrokeObjects(image: Image, sdf: seq<real>, o: Options, s: DrawOutlinesOptions): map<Handle, Object>
    requires InRange(o)
  {
    var plane := Utils.CreatePlane(2.0, 2.0);
    map[0 := SdfGenerator.SourceTexture(image)][1 := SdfTexture(sdf, ViewportWidth(o), ViewportHeight(o))]
       [2 := UniformBuffer(StrokeLayout, SlotMap(StrokeSlots(s)))]
       [3 := VertexBuffer(3, plane.positions)][4 := VertexBuffer(2, plane.uvs)][5 := VertexArray(3, 4)]
       [6 := DrawCall(StrokeShader, 5, StrokeUniforms(o))]
  }

  /** The commands of `drawOutlines`: six slot writes, the upload, then one clear and one draw on the canvas. */
  function StrokeEvents(o: Options, s: DrawOutlinesOptions): seq<Event> {
    SlotWrites(2, StrokeSlots(s)) + [BufferUpdated(2), Cleared(Screen), Drew(6, Screen, StrokeUniforms(o))]
  }

  /**
   * Slot i is written with the i-th style field for i = 0..5 in order, the buffer is
   * uploaded, and then the canvas is cleared and drawn exactly once, last.
   */
  lemma StrokeEventsShape(o: Options, s: DrawOutlinesOptions)
    ensures var es := StrokeEvents(o, s);
            |es| == 9
            && (forall i | 0 <= i < 6 :: es[i] == SlotWritten(2, i, StrokeSlots(s)[i]))
            && es[6] == BufferUpdated(2) && es[7] == Cleared(Screen) && es[8] == Drew(6, Screen, StrokeUniforms(o))
            && DrawCount(es) == 1
  {
    var w := SlotWrites(2, StrokeSlots(s));
    var tail := [BufferUpdated(2), Cleared(Screen), Drew(6, Screen, StrokeUniforms(o))];
    NoDraws(w);
    DrawCountAppend(w, tail);
    assert tail == [tail[0], tail[1]] + [tail[2]];
    DrawCountAppend([tail[0], tail[1]], [tail[2]]);
    DrawCountPair(tail[0], tail[1]);
    assert [tail[2]][1..] == [];
  }

  /** The samplers name textures 0 and 1, the one block names buffer 2, and `resolution` is the validated size. */
  lemma UniformsBind(o: Options)
    ensures var u := StrokeUniforms(o);
            (forall name | name in u && u[name].Tex? :: u[name].texture == 0 || u[name].texture == 1)
            && (forall name | name in u && u[name].Block? :: u[name].buffer == 2)
            && u["resolution"] == Vec([o.width, o.height]) && u["src"] == Tex(0) && u["sdf"] == Tex(1)
            && u["OutlineOpts"] == Block(2)
  {
    var u := StrokeUniforms(o);
    assert u.Keys == {"resolution", "OutlineOpts", "padding", "spread", "isSigned", "src", "sdf"};
  }

  /**
   * What the single draw reads is there: every sampler names a live texture, the block
   * names a live buffer of the stroke layout holding the style, the draw call renders the
   * plane, and the SDF texture is declared with the viewport size that `getSDF` renders at
   * for the same options.
   */
  lemma DrawReadsLiveObjects(image: Image, sdf: seq<real>, o: Options, s: DrawOutlinesOptions)
    requires InRange(o)
    ensures var objs, u := StrokeObjects(image, sdf, o, s), StrokeUniforms(o);
            (forall name | name in u && u[name].Tex? :: u[name].texture in objs && objs[u[name].texture].Texture?)
            && (forall name | name in u && u[name].Block? ::
                  u[name].buffer in objs && objs[u[name].buffer] == UniformBuffer(StrokeLayout, SlotMap(StrokeSlots(s))))
            && objs[6].DrawCall? && objs[objs[6].geometry].VertexArray?
            && objs[1].width == (o.width + 2.0 * o.padding) * o.pixelRatio
            && objs[1].height == (o.height + 2.0 * o.padding) * o.pixelRatio
  {
    UniformsBind(o);
    var objs := StrokeObjects(image, sdf, o, s);
    assert 0 in objs && objs[0].Texture? && 1 in objs && objs[1].Texture?;
    assert 2 in objs && objs[2] == UniformBuffer(StrokeLayout, SlotMap(StrokeSlots(s)));
  }

  /**
   * `drawOutlines(image, sdf, opts)`, with `opts` split into its `GetSDFOptions` part
   * `sdfOpts` and its style part. An invalid `sdfOpts` throws before anything is created
   * (the page is left as it was); otherwise a new canvas of the validated size scaled by
   * `pixelRatio` is appended to the page and drawn once, and the app on it is returned.
   */
  method DrawOutlines(doc: Document, image: Image, sdf: seq<real>, sdfOpts: PartialOptions, style: PartialDrawOutlinesOptions)
    returns (r: Result<App, string>)
    modifies doc
    ensures var v := ValidateOptions(sdfOpts, image.width, image.height);
            v.Err? ==> r == Err(v.error) && doc.body == old(doc.body)
    ensures var v := ValidateOptions(sdfOpts, image.width, image.height);
            v.Ok? ==>
              r.Ok? && fresh(r.value) && fresh(r.value.canvas)
              && var o, app, canvas := v.value, r.value, r.value.canvas;
              doc.body == old(doc.body) + [canvas] && canvas.attached
              && canvas.width == o.width * o.pixelRatio && canvas.height == o.height * o.pixelRatio
              && canvas.cssWidth == Some(o.width) && canvas.cssHeight == Some(o.height)
              && app.Valid() && app.width == canvas.width && app.height == canvas.height
              && app.objects == StrokeObjects(image, sdf, o, ValidateOutlineOptions(style)) && app.next == 7
              && app.log == StrokeEvents(o, ValidateOutlineOptions(style)) && app.target == Screen && !app.lost
  {
    var v := ValidateOptions(sdfOpts, image.width, image.height);
    if v.Err? {
      return Err(v.error);
    }
    var o := v.value;
    var canvas := new Canvas();
    canvas.width := o.width * o.pixelRatio;
    canvas.height := o.height * o.pixelRatio;
    canvas.cssWidth := Some(o.width);
    canvas.cssHeight := Some(o.height);
    doc.AppendChild(canvas);

    var app := new App(canvas);
    Paint(app, image, sdf, o, ValidateOutlineOptions(style));
    r := Ok(app);
  }

  /** Everything `drawOutlines` does with a freshly created app `app`. */
  method Paint(app: App, image: Image, sdf: seq<real>, o: Options, s: DrawOutlinesOptions)
    requires InRange(o)
    requires app.objects == map[] && app.next == 0 && app.log == [] && app.target == Screen
    modifies app
    ensures app.Valid()
    ensures app.objects == StrokeObjects(image, sdf, o, s) && app.next == 7
    ensures app.log == StrokeEvents(o, s)
    ensures app.width == old(app.width) && app.height == old(app.height)
    ensures app.target == Screen && app.lost == old(app.lost)
  {
    var texSrc, texSdf, ub := Upload(app, image, sdf, o, s);
    var plane := Utils.CreatePlaneGeometry(app);
    var dc := Utils.CreateDrawCall(app, StrokeShader, plane, Some(o.width), Some(o.height));
    Bind(app, dc, o);
    app.Clear();
    app.Draw(dc);
  }

  /** `drawCall.uniformBlock("OutlineOpts", ub).uniform(...)...texture("src", texSrc).texture("sdf", texSdf)` with the handles of a fresh app. */
  method Bind(app: App, dc: Handle, o: Options)
    requires dc in app.objects && app.objects[dc] == DrawCall(StrokeShader, 5, map["resolution" := Vec([o.width, o.height])])
    modifies app
    ensures app.objects == old(app.objects)[dc := DrawCall(StrokeShader, 5, StrokeUniforms(o))]
    ensures app.width == old(app.width) && app.height == old(app.height) && app.next == old(app.next)
    ensures app.target == old(app.target) && app.log == old(app.log) && app.lost == old(app.lost)
  {
    BindOptions(app, dc, o);
    app.Uniform(dc, "src", Tex(0));
    app.Uniform(dc, "sdf", Tex(1));
  }

  /** The block, `resolution`, `padding`, `spread` and `isSigned`. */
  method BindOptions(app: App, dc: Handle, o: Options)
    requires dc in app.objects && app.objects[dc] == DrawCall(StrokeShader, 5, map["resolution" := Vec([o.width, o.height])])
    modifies app
    ensures app.objects == old(app.objects)[dc := DrawCall(StrokeShader, 5,
              map["resolution" := Vec([o.width, o.height])]
                ["OutlineOpts" := Block(2)]["resolution" := Vec([o.width, o.height])]["padding" := Num(o.padding)]
                ["spread" := Num(o.spread)]["isSigned" := Bool(o.signed)])]
    ensures app.width == old(app.width) && app.height == old(app.height) && app.next == old(app.next)
    ensures app.target == old(app.target) && app.log == old(app.log) && app.lost == old(app.lost)
  {
    app.Uniform(dc, "OutlineOpts", Block(2));
    app.Uniform(dc, "resolution", Vec([o.width, o.height]));
    app.Uniform(dc, "padding", Num(o.padding));
    app.Uniform(dc, "spread", Num(o.spread));
    app.Uniform(dc, "isSigned", Bool(o.signed));
  }

  /** Both textures, then the uniform buffer with the six style slots written and uploaded. */
  method Upload(app: App, image: Image, sdf: seq<real>, o: Options, s: DrawOutlinesOptions)
    returns (texSrc: Handle, texSdf: Handle, ub: Handle)
    requires InRange(o)
    requires app.objects == map[] && app.next == 0 && app.log == []
    modifies app
    ensures app.Valid()
    ensures texSrc == 0 && texSdf == 1 && ub == 2 && app.next == 3
    ensures app.objects == map[0 := SdfGenerator.SourceTexture(image)][1 := SdfTexture(sdf, ViewportWidth(o), ViewportHeight(o))]
                             [2 := UniformBuffer(StrokeLayout, SlotMap(StrokeSlots(s)))]
    ensures app.log == SlotWrites(2, StrokeSlots(s)) + [BufferUpdated(2)]
    ensures app.width == old(app.width) && app.height == old(app.height)
    ensures app.target == old(app.target) && app.lost == old(app.lost)
  {
    texSrc := app.Create(SdfGenerator.SourceTexture(image));
    var sdfW := (o.width + o.padding * 2.0) * o.pixelRatio;
    var sdfH := (o.height + o.padding * 2.0) * o.pixelRatio;
    texSdf := app.Create(SdfTexture(sdf, sdfW, sdfH));
    ghost var objs := app.objects;
    ub := app.Create(UniformBuffer(StrokeLayout, map[]));
    FillBuffer(app, ub, StrokeSlots(s));
    Overwrite(objs, 2, UniformBuffer(StrokeLayout, map[]), UniformBuffer(StrokeLayout, SlotMap(StrokeSlots(s))));
    assert sdfW == ViewportWidth(o) && sdfH == ViewportHeight(o);
  }

  /** `.set(0, ...)` to `.set(5, ...)` and `.update()` on an empty buffer of the stroke layout: it then holds exactly `vals`. */
  method FillBuffer(app: App, ub: Handle, vals: seq<Value>)
    requires ub in app.objects && app.objects[ub] == UniformBuffer(StrokeLayout, map[]) && |vals| == 6
    modifies app
    ensures app.objects == old(app.objects)[ub := UniformBuffer(StrokeLayout, SlotMap(vals))]
    ensures app.log == old(app.log) + SlotWrites(ub, vals) + [BufferUpdated(ub)]
    ensures app.width == old(app.width) && app.height == old(app.height) && app.next == old(app.next)
    ensures app.target == old(app.target) && app.lost == old(app.lost)
  {
    WriteSixSlots(app, ub, vals);
    SixSlots(vals);
    app.UpdateBuffer(ub);
  }

  /** `.set(0, vals[0])` to `.set(5, vals[5])`. */
  method WriteSixSlots(app: App, ub: Handle, vals: seq<Value>)
    requires ub in app.objects && app.objects[ub].UniformBuffer? && |app.objects[ub].layout| == 6 && |vals| == 6
    modifies app
    ensures var b := old(app.objects[ub]);
            app.objects == old(app.objects)[ub := b.(slots := b.slots[0 := vals[0]][1 := vals[1]][2 := vals[2]][3 := vals[3]]
                                                              [4 := vals[4]][5 := vals[5]])]
    ensures app.log == old(app.log) + SlotWrites(ub, vals)
    ensures app.width == old(app.width) && app.height == old(app.height) && app.next == old(app.next)
    ensures app.target == old(app.target) && app.lost == old(app.lost)
  {
    WriteFourSlots(app, ub, 0, vals[..4]);
    app.SetSlot(ub, 4, vals[4]);
    app.SetSlot(ub, 5, vals[5]);
    SixWrites(ub, vals);
  }

  lemma SixWrites(ub: Handle, vals: seq<Value>)
    requires |vals| == 6
    ensures SlotWrites(ub, vals)
            == [SlotWritten(ub, 0, vals[0]), SlotWritten(ub, 1, vals[1]), SlotWritten(ub, 2, vals[2]),
                SlotWritten(ub, 3, vals[3]), SlotWritten(ub, 4, vals[4]), SlotWritten(ub, 5, vals[5])]
  {
  }

  lemma SixSlots(vals: seq<Value>)
    requires |vals| == 6
    ensures map[][0 := vals[0]][1 := vals[1]][2 := vals[2]][3 := vals[3]][4 := vals[4]][5 := vals[5]] == SlotMap(vals)
  {
  }
}
