/**
 * An abstract model of the PicoGL `App` and the HTML canvas it draws into.
 *
 * GPU objects (textures, framebuffers, vertex buffers and arrays, draw calls, uniform
 * buffers) are handles into a map of live objects; handles are handed out in order from
 * `next`, so every caller can say which handle each creation returned. Commands that
 * matter to the callers (clears, draws, deletions, uniform-buffer writes, read-backs,
 * canvas snapshots) are appended to `log`. What a shader computes is not modelled: a
 * draw is recorded with its target and a copy of its draw call's uniforms.
 */
module Gpu {
  import opened Wrappers

  type Handle = nat

  /** The fragment shaders of the repository, named after their source files. */
  datatype Shader =
    | SdfGeneratorMain   // SDFGeneratorMain.frag
    | SdfGeneratorMerge  // SDFGeneratorMerge.frag
    | GetSdfMain         // getSDF.frag
    | MergeSdf           // mergeSDF.frag
    | OutlineShader      // OutlineRenderer.frag
    | StrokeShader       // stroke.frag

  /** A value bound to a named uniform of a draw call or to a uniform-buffer slot. */
  datatype Value =
    | Bool(b: bool)
    | Num(x: real)
    | Vec(xs: seq<real>)
    | Tex(texture: Handle)   // a texture bound to a sampler
    | Block(buffer: Handle)  // a uniform buffer bound to a uniform block
    | Undefined              // `[undefined, undefined]` passed as a vector

  type Uniforms = map<string, Value>

  /** A source image (HTMLImageElement or canvas): an identity and its size. */
  datatype Image = Image(id: nat, width: real, height: real)

  /** Where a texture's initial contents come from. */
  datatype Pixels = FromImage(image: Image) | FromFloats(data: seq<real>) | Blank

  datatype Format = Rgba8 | Rgba32F

  /** Element types of a uniform-buffer layout. */
  datatype Kind = Float | FloatVec2 | FloatVec4

  datatype Object =
    | Texture(pixels: Pixels, width: real, height: real, format: Format, clampToEdge: bool, flipY: bool)
    | Framebuffer(color: Handle)
    | VertexBuffer(components: nat, data: seq<real>)
    | VertexArray(positions: Handle, uvs: Handle)
    | DrawCall(fragment: Shader, geometry: Handle, uniforms: Uniforms)
    | UniformBuffer(layout: seq<Kind>, slots: map<nat, Value>)

  /** An SDF uploaded as a texture: RGBA32F, clamp-to-edge, not flipped, declared `width` by `height`. */
  function SdfTexture(sdf: seq<real>, width: real, height: real): Object {
    Texture(FromFloats(sdf), width, height, Rgba32F, true, false)
  }

  /** A colour `[r, g, b, a]` as a uniform value. */
  function Vec4(c: (real, real, real, real)): Value {
    Vec([c.0, c.1, c.2, c.3])
  }

  /** An offset `[x, y]` as a uniform value. */
  function Vec2(v: (real, real)): Value {
    Vec([v.0, v.1])
  }

  /** The framebuffer draws go to: the canvas or an off-screen framebuffer. */
  datatype Target = Screen | Offscreen(framebuffer: Handle)

  datatype Event =
    | Cleared(target: Target)
    | Drew(drawCall: Handle, target: Target, uniforms: Uniforms)
    | Deleted(handle: Handle)
    | SlotWritten(buffer: Handle, slot: nat, value: Value)
    | BufferUpdated(buffer: Handle)
    | PixelsRead(framebuffer: Handle, width: real, height: real)
    | Encoded(width: real, height: real)  // the canvas encoded as a data URL
    | ContextLost

  /** Every live handle is below `next`: handles are handed out in order and never reused. */
  ghost predicate Below(objs: map<Handle, Object>, next: Handle) {
    forall h | h in objs :: h < next
  }

  /** Number of draws in a command sequence. */
  function DrawCount(es: seq<Event>): nat {
    if es == [] then 0 else (if es[0].Drew? then 1 else 0) + DrawCount(es[1..])
  }

  lemma {:induction false} DrawCountAppend(xs: seq<Event>, ys: seq<Event>)
    ensures DrawCount(xs + ys) == DrawCount(xs) + DrawCount(ys)
  {
    if xs != [] {
      assert (xs + ys)[1..] == xs[1..] + ys;
      DrawCountAppend(xs[1..], ys);
    } else {
      assert xs + ys == ys;
    }
  }

  /** A clear-and-draw pair, or a draw and what follows it, holds as many draws as it shows. */
  lemma DrawCountPair(x: Event, y: Event)
    ensures DrawCount([x, y]) == (if x.Drew? then 1 else 0) + (if y.Drew? then 1 else 0)
  {
    assert [x, y][1..] == [y];
    assert [y][1..] == [];
    assert DrawCount([y]) == (if y.Drew? then 1 else 0) + DrawCount([]);
  }

  lemma DrawCountConcat(a: seq<Event>, b: seq<Event>, c: seq<Event>, d: seq<Event>)
    ensures DrawCount(a + b + c + d) == DrawCount(a) + DrawCount(b) + DrawCount(c) + DrawCount(d)
  {
    DrawCountAppend(a, b);
    DrawCountAppend(a + b, c);
    DrawCountAppend(a + b + c, d);
  }

  /** The commands `buffer.set(0, vals[0]).set(1, vals[1])...` issue: one write per slot, in slot order. */
  function SlotWrites(ub: Handle, vals: seq<Value>): (es: seq<Event>)
    ensures |es| == |vals|
    ensures forall i | 0 <= i < |vals| :: es[i] == SlotWritten(ub, i, vals[i])
  {
    if vals == [] then [] else SlotWrites(ub, vals[..|vals| - 1]) + [SlotWritten(ub, |vals| - 1, vals[|vals| - 1])]
  }

  /** The slots of a uniform buffer once slot i holds `vals[i]` for every i and nothing else was written. */
  function SlotMap(vals: seq<Value>): (m: map<nat, Value>)
    ensures forall i: nat :: i in m <==> i < |vals|
    ensures forall i | 0 <= i < |vals| :: m[i] == vals[i]
  {
    map i | 0 <= i < |vals| :: vals[i]
  }

  /** A value can be stored in a uniform-buffer slot of kind `k`: a number in a float, two or four numbers in a vector. */
  predicate Fits(v: Value, k: Kind) {
    match k
    case Float => v.Num?
    case FloatVec2 => v.Vec? && |v.xs| == 2
    case FloatVec4 => v.Vec? && |v.xs| == 4
  }

  /** `.set(k, v[0]) ... .set(k + 3, v[3])`. */
  method WriteFourSlots(app: App, ub: Handle, k: nat, v: seq<Value>)
    requires ub in app.objects && app.objects[ub].UniformBuffer? && k + 4 <= |app.objects[ub].layout| && |v| == 4
    modifies app
    ensures var b := old(app.objects[ub]);
            app.objects == old(app.objects)[ub := b.(slots := b.slots[k := v[0]][k + 1 := v[1]][k + 2 := v[2]][k + 3 := v[3]])]
    ensures app.log == old(app.log) + [SlotWritten(ub, k, v[0]), SlotWritten(ub, k + 1, v[1]), SlotWritten(ub, k + 2, v[2]), SlotWritten(ub, k + 3, v[3])]
    ensures app.width == old(app.width) && app.height == old(app.height) && app.next == old(app.next)
    ensures app.target == old(app.target) && app.lost == old(app.lost)
  {
    app.SetSlot(ub, k, v[0]);
    app.SetSlot(ub, k + 1, v[1]);
    app.SetSlot(ub, k + 2, v[2]);
    app.SetSlot(ub, k + 3, v[3]);
  }

  /** Slot writes draw nothing. */
  lemma {:induction false} NoDraws(es: seq<Event>)
    requires forall i | 0 <= i < |es| :: es[i].SlotWritten?
    ensures DrawCount(es) == 0
  {
    if es != [] {
      NoDraws(es[1..]);
    }
  }

  /** Storing twice under one handle keeps the second object only. */
  lemma Overwrite(m: map<Handle, Object>, k: Handle, x: Object, y: Object)
    ensures m[k := x][k := y] == m[k := y]
  {
  }

  /** An HTML canvas: backing-store size, CSS size and whether it is in the document. */
  class Canvas {
    var width: real
    var height: real
    var cssWidth: Option<real>
    var cssHeight: Option<real>
    var attached: bool

    /** `document.createElement("canvas")`: 300 by 150, no CSS size, detached. */
    constructor ()
      ensures width == 300.0 && height == 150.0
      ensures cssWidth == None && cssHeight == None && !attached
    {
      width, height := 300.0, 150.0;
      cssWidth, cssHeight := None, None;
      attached := false;
    }

    /** `canvas.remove()`: detaches the canvas; its size is kept. */
    method Remove()
      modifies this
      ensures !attached
      ensures width == old(width) && height == old(height)
      ensures cssWidth == old(cssWidth) && cssHeight == old(cssHeight)
    {
      attached := false;
    }
  }

  /** The page's `document.body`: the canvases appended to it, in order. */
  class Document {
    var body: seq<Canvas>

    constructor ()
      ensures body == []
    {
      body := [];
    }

    /** `document.body.appendChild(canvas)`: the canvas is shown after those already there. */
    method AppendChild(c: Canvas)
      modifies this, c
      ensures body == old(body) + [c] && c.attached
      ensures c.width == old(c.width) && c.height == old(c.height)
      ensures c.cssWidth == old(c.cssWidth) && c.cssHeight == old(c.cssHeight)
    {
      body := body + [c];
      c.attached := true;
    }
  }

  class App {
    const canvas: Canvas
    var width: real
    var height: real
    var next: Handle
    var objects: map<Handle, Object>
    var target: Target
    var log: seq<Event>
    var lost: bool
    /** Every object ever created, by handle, as it was created; deletion does not remove it. */
    ghost var created: map<Handle, Object>

    /** Every live handle was handed out already, so `next` is always fresh. */
    ghost predicate Valid()
      reads this
    {
      Below(objects, next)
    }

    /** `PicoGL.createApp(canvas)`: sized like its canvas, drawing to the screen. */
    constructor (canvas: Canvas)
      ensures Valid()
      ensures this.canvas == canvas && width == canvas.width && height == canvas.height
      ensures next == 0 && objects == map[] && target == Screen && log == [] && !lost
      ensures created == map[]
    {
      this.canvas := canvas;
      width, height := canvas.width, canvas.height;
      next, objects, target, log, lost := 0, map[], Screen, [], false;
      created := map[];
    }

    /** `app.resize(w, h)`. */
    method Resize(w: real, h: real)
      modifies this
      ensures created == old(created)
      ensures width == w && height == h
      ensures next == old(next) && objects == old(objects) && target == old(target)
      ensures log == old(log) && lost == old(lost)
    {
      width, height := w, h;
    }

    /** Stores `obj` under the next fresh handle. */
    method Create(obj: Object) returns (h: Handle)
      requires Valid()
      modifies this
      ensures Valid()
      ensures h == old(next) && h !in old(objects)
      ensures next == old(next) + 1 && objects == old(objects)[h := obj] && created == old(created)[h := obj]
      ensures width == old(width) && height == old(height) && target == old(target)
      ensures log == old(log) && lost == old(lost)
    {
      h := next;
      objects := objects[h := obj];
      created := created[h := obj];
      next := next + 1;
    }

    /** Binds `value` to the uniform (or sampler, or block) `name` of draw call `dc`. */
    method Uniform(dc: Handle, name: string, value: Value)
      requires dc in objects && objects[dc].DrawCall?
      modifies this
      ensures created == old(created)
      ensures objects == old(objects)[dc := old(objects[dc]).(uniforms := old(objects[dc].uniforms)[name := value])]
      ensures width == old(width) && height == old(height) && next == old(next)
      ensures target == old(target) && log == old(log) && lost == old(lost)
    {
      objects := objects[dc := objects[dc].(uniforms := objects[dc].uniforms[name := value])];
    }

    /** `app.drawFramebuffer(fb)` or `app.defaultDrawFramebuffer()`. */
    method DrawFramebuffer(t: Target)
      modifies this
      ensures created == old(created)
      ensures target == t
      ensures width == old(width) && height == old(height) && next == old(next)
      ensures objects == old(objects) && log == old(log) && lost == old(lost)
    {
      target := t;
    }

    /** `app.clear()`: clears whatever framebuffer is bound. */
    method Clear()
      modifies this
      ensures created == old(created)
      ensures log == old(log) + [Cleared(target)]
      ensures width == old(width) && height == old(height) && next == old(next)
      ensures objects == old(objects) && target == old(target) && lost == old(lost)
    {
      log := log + [Cleared(target)];
    }

    /** `drawCall.draw()`: draws into the bound framebuffer with the draw call's current uniforms. */
    method Draw(dc: Handle)
      requires dc in objects && objects[dc].DrawCall?
      modifies this
      ensures created == old(created)
      ensures objects == old(objects) && target == old(target) && lost == old(lost)
      ensures log == old(log) + [Drew(dc, target, objects[dc].uniforms)]
      ensures width == old(width) && height == old(height) && next == old(next)
    {
      log := log + [Drew(dc, target, objects[dc].uniforms)];
    }

    /** `obj.delete()`: frees exactly the object `h`. */
    method Delete(h: Handle)
      requires h in objects
      modifies this
      ensures created == old(created)
      ensures objects == old(objects) - {h}
      ensures log == old(log) + [Deleted(h)]
      ensures width == old(width) && height == old(height) && next == old(next)
      ensures target == old(target) && lost == old(lost)
    {
      objects := objects - {h};
      log := log + [Deleted(h)];
    }

    /** `uniformBuffer.set(slot, value)`. */
    method SetSlot(ub: Handle, slot: nat, value: Value)
      requires ub in objects && objects[ub].UniformBuffer? && slot < |objects[ub].layout|
      modifies this
      ensures created == old(created)
      ensures objects == old(objects)[ub := old(objects[ub]).(slots := old(objects[ub].slots)[slot := value])]
      ensures log == old(log) + [SlotWritten(ub, slot, value)]
      ensures width == old(width) && height == old(height) && next == old(next)
      ensures target == old(target) && lost == old(lost)
    {
      objects := objects[ub := objects[ub].(slots := objects[ub].slots[slot := value])];
      log := log + [SlotWritten(ub, slot, value)];
    }

    /** `uniformBuffer.update()`: uploads the slots written so far. */
    method UpdateBuffer(ub: Handle)
      requires ub in objects && objects[ub].UniformBuffer?
      modifies this
      ensures created == old(created)
      ensures log == old(log) + [BufferUpdated(ub)]
      ensures width == old(width) && height == old(height) && next == old(next)
      ensures objects == old(objects) && target == old(target) && lost == old(lost)
    {
      log := log + [BufferUpdated(ub)];
    }

    /**
     * `app.readFramebuffer(fb)` then `gl.readPixels(0, 0, w, h, RGBA, FLOAT, pixels)` into a
     * fresh `Float32Array(n)`: the length is the caller's; the values come from the GPU and
     * are not modelled.
     */
    method ReadPixels(fb: Handle, w: real, h: real, n: nat) returns (pixels: seq<real>)
      modifies this
      ensures created == old(created)
      ensures |pixels| == n
      ensures log == old(log) + [PixelsRead(fb, w, h)]
      ensures width == old(width) && height == old(height) && next == old(next)
      ensures objects == old(objects) && target == old(target) && lost == old(lost)
    {
      assert |seq(n, _ => 0.0)| == n;
      pixels :| |pixels| == n;
      log := log + [PixelsRead(fb, w, h)];
    }

    /** `canvas.toDataURL()`: an encoding of the canvas at its current size. */
    method ToDataUrl()
      modifies this
      ensures created == old(created)
      ensures log == old(log) + [Encoded(canvas.width, canvas.height)]
      ensures width == old(width) && height == old(height) && next == old(next)
      ensures objects == old(objects) && target == old(target) && lost == old(lost)
    {
      log := log + [Encoded(canvas.width, canvas.height)];
    }

    /** `app.loseContext()`. */
    method LoseContext()
      modifies this
      ensures created == old(created)
      ensures lost && log == old(log) + [ContextLost]
      ensures width == old(width) && height == old(height) && next == old(next)
      ensures objects == old(objects) && target == old(target)
    {
      lost := true;
      log := log + [ContextLost];
    }
  }
}
