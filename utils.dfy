/**
 * The shared helpers of src/utils.ts: the full-screen quad, render targets sized to the
 * app, and draw calls that carry a `resolution` uniform.
 */
module Utils {
  import opened Wrappers
  import opened Gpu

  /** The arrays `createPlane` returns: 6 vertices as xyz, and their 6 UVs as uv. */
  datatype Plane = Plane(positions: seq<real>, uvs: seq<real>)

  datatype Corner = LeftTop | LeftBottom | RightTop | RightBottom

  /** The corner each of the six vertices sits on: triangles (LT, LB, RT) and (RT, LB, RB). */
  const VertexCorners: seq<Corner> := [LeftTop, LeftBottom, RightTop, RightTop, LeftBottom, RightBottom]

  /** Where a corner of a `width` by `height` plane centred on the origin lies. */
  function CornerPoint(c: Corner, width: real, height: real): (real, real) {
    match c
    case LeftTop => (-width / 2.0, height / 2.0)
    case LeftBottom => (-width / 2.0, -height / 2.0)
    case RightTop => (width / 2.0, height / 2.0)
    case RightBottom => (width / 2.0, -height / 2.0)
  }

  /** The texture coordinate of a corner: left/bottom is 0, right/top is 1. */
  function CornerUv(c: Corner): (real, real) {
    match c
    case LeftTop => (0.0, 1.0)
    case LeftBottom => (0.0, 0.0)
    case RightTop => (1.0, 1.0)
    case RightBottom => (1.0, 0.0)
  }

  /** `createPlane(width, height)`. */
  function CreatePlane(width: real, height: real): (p: Plane)
    ensures |p.positions| == 18 && |p.uvs| == 12
  {
    var w2, h2 := width / 2.0, height / 2.0;
    Plane(
      [ -w2, h2, 0.0,    // left-top
        -w2, -h2, 0.0,   // left-bottom
        w2, h2, 0.0,     // right-top
        w2, h2, 0.0,     // right-top
        -w2, -h2, 0.0,   // left-bottom
        w2, -h2, 0.0 ],  // right-bottom
      [0.0, 1.0, 0.0, 0.0, 1.0, 1.0, 1.0, 1.0, 0.0, 0.0, 1.0, 0.0])
  }

  /** Vertex `i` of a plane as (x, y, z). */
  function Vertex(p: Plane, i: nat): (real, real, real)
    requires |p.positions| == 18 && i < 6
  {
    (p.positions[3 * i], p.positions[3 * i + 1], p.positions[3 * i + 2])
  }

  /** The texture coordinate of vertex `i` as (u, v). */
  function Uv(p: Plane, i: nat): (real, real)
    requires |p.uvs| == 12 && i < 6
  {
    (p.uvs[2 * i], p.uvs[2 * i + 1])
  }

  /** Each vertex lies on its corner, in the plane z = 0, and carries that corner's UV. */
  lemma PlaneVertices(width: real, height: real, i: nat)
    requires i < 6
    ensures var p := CreatePlane(width, height);
            var (x, y) := CornerPoint(VertexCorners[i], width, height);
            Vertex(p, i) == (x, y, 0.0) && Uv(p, i) == CornerUv(VertexCorners[i])
  {
  }

  /** Every x is ±width/2, every y is ±height/2 and every z is 0. */
  lemma PlaneCoordinates(width: real, height: real, i: nat)
    requires i < 6
    ensures var (x, y, z) := Vertex(CreatePlane(width, height), i);
            (x == -width / 2.0 || x == width / 2.0) && (y == -height / 2.0 || y == height / 2.0) && z == 0.0
  {
    PlaneVertices(width, height, i);
  }

  /** The UV of every vertex is (x/w + 1/2, y/h + 1/2), so each component is 0 or 1. */
  lemma PlaneUvFollowsPosition(width: real, height: real, i: nat)
    requires width != 0.0 && height != 0.0 && i < 6
    ensures var p := CreatePlane(width, height);
            var (x, y, _) := Vertex(p, i);
            var (u, v) := Uv(p, i);
            u == x / width + 0.5 && v == y / height + 0.5
            && (u == 0.0 || u == 1.0) && (v == 0.0 || v == 1.0)
  {
    PlaneVertices(width, height, i);
    HalfOverWhole(width);
    HalfOverWhole(height);
  }

  lemma HalfOverWhole(w: real)
    requires w != 0.0
    ensures (w / 2.0) / w == 0.5 && (-w / 2.0) / w == -0.5
  {
  }

  /** The two triangles share exactly the LB–RT diagonal and together use all four corners. */
  lemma PlaneTriangles()
    ensures {VertexCorners[0], VertexCorners[1], VertexCorners[2]} == {LeftTop, LeftBottom, RightTop}
    ensures {VertexCorners[3], VertexCorners[4], VertexCorners[5]} == {RightTop, LeftBottom, RightBottom}
    ensures {VertexCorners[0], VertexCorners[1], VertexCorners[2]} * {VertexCorners[3], VertexCorners[4], VertexCorners[5]}
            == {LeftBottom, RightTop}
    ensures (set i | 0 <= i < 6 :: VertexCorners[i]) == {LeftTop, LeftBottom, RightTop, RightBottom}
  {
    var all := set i | 0 <= i < 6 :: VertexCorners[i];
    assert VertexCorners[0] in all && VertexCorners[1] in all && VertexCorners[2] in all && VertexCorners[5] in all;
  }

  /** The 2×2 plane of `createPlaneGeometry` spans exactly [-1, 1] on both axes. */
  lemma UnitPlaneSpan(i: nat)
    requires i < 6
    ensures var (x, y, z) := Vertex(CreatePlane(2.0, 2.0), i);
            (x == -1.0 || x == 1.0) && (y == -1.0 || y == 1.0) && z == 0.0
    ensures Vertex(CreatePlane(2.0, 2.0), 1).0 == -1.0 && Vertex(CreatePlane(2.0, 2.0), 5).0 == 1.0
    ensures Vertex(CreatePlane(2.0, 2.0), 1).1 == -1.0 && Vertex(CreatePlane(2.0, 2.0), 0).1 == 1.0
  {
    PlaneCoordinates(2.0, 2.0, i);
  }

  /** `createPlaneGeometry(app)`: two vertex buffers (xyz, uv) of the 2×2 plane and a vertex array over them. */
  method CreatePlaneGeometry(app: App) returns (va: Handle)
    requires app.Valid()
    modifies app
    ensures app.Valid()
    ensures var n := old(app.next);
            va == n + 2 && app.next == n + 3
            && app.objects == old(app.objects)[n := VertexBuffer(3, CreatePlane(2.0, 2.0).positions)]
                                             [n + 1 := VertexBuffer(2, CreatePlane(2.0, 2.0).uvs)]
                                             [n + 2 := VertexArray(n, n + 1)]
    ensures app.width == old(app.width) && app.height == old(app.height) && app.target == old(app.target)
    ensures app.log == old(app.log) && app.lost == old(app.lost)
  {
    var plane := CreatePlane(2.0, 2.0);
    var positions := app.Create(VertexBuffer(3, plane.positions));
    var uv := app.Create(VertexBuffer(2, plane.uvs));
    va := app.Create(VertexArray(positions, uv));
  }

  /** A framebuffer and its single colour attachment (`rt.colorAttachments[0]`). */
  datatype RenderTarget = RenderTarget(framebuffer: Handle, color: Handle)

  /** The render target `createRenderTarget` returns when `base` is the first free handle. */
  function RenderTargetAt(base: Handle): (rt: RenderTarget)
    ensures rt.color == base && rt.framebuffer == base + 1
  {
    RenderTarget(base + 1, base)
  }

  /** The colour texture of a render target: RGBA32F, clamp-to-edge, sized to the app. */
  function TargetTexture(width: real, height: real): Object {
    Texture(Blank, width, height, Rgba32F, true, false)
  }

  /** `createRenderTarget(app)`: a float texture of the app's current size and a framebuffer on it. */
  method CreateRenderTarget(app: App) returns (rt: RenderTarget)
    requires app.Valid()
    modifies app
    ensures app.Valid()
    ensures rt == RenderTargetAt(old(app.next)) && app.next == old(app.next) + 2
    ensures app.objects == old(app.objects)[rt.color := TargetTexture(app.width, app.height)]
                                           [rt.framebuffer := Framebuffer(rt.color)]
    ensures app.width == old(app.width) && app.height == old(app.height) && app.target == old(app.target)
    ensures app.log == old(app.log) && app.lost == old(app.lost)
  {
    var colorTarget := app.Create(TargetTexture(app.width, app.height));
    var fb := app.Create(Framebuffer(colorTarget));
    rt := RenderTarget(fb, colorTarget);
  }

  /** The `resolution` uniform `[width, height]`; `[undefined, undefined]` when the sizes are omitted. */
  function Resolution(width: Option<real>, height: Option<real>): Value {
    if width.Some? && height.Some? then Vec([width.value, height.value]) else Undefined
  }

  /**
   * `createDrawCall(app, fragmentShader, vertexArray, width, height)`: compiles the program
   * and returns a draw call whose only uniform is `resolution`, set once here.
   */
  method CreateDrawCall(app: App, fragment: Shader, geometry: Handle, width: Option<real>, height: Option<real>)
    returns (dc: Handle)
    requires app.Valid()
    modifies app
    ensures app.Valid()
    ensures dc == old(app.next) && dc !in old(app.objects) && app.next == old(app.next) + 1
    ensures app.objects == old(app.objects)[dc := DrawCall(fragment, geometry, map["resolution" := Resolution(width, height)])]
    ensures app.width == old(app.width) && app.height == old(app.height) && app.target == old(app.target)
    ensures app.log == old(app.log) && app.lost == old(app.lost)
  {
    dc := app.Create(DrawCall(fragment, geometry, map[]));
    app.Uniform(dc, "resolution", Resolution(width, height));
  }
}
