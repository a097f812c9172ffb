/**
 * `validateOptions` (src/SDFGenerator.ts and the identical copy in src/getSDF.ts): fills in
 * defaults for a partial options record and rejects out-of-range values in a fixed order,
 * plus the working-viewport and read-back sizes derived from valid options.
 */
module SdfOptions {
  import opened Wrappers

  /** `Partial<GetSDFOptions>`: every field may be omitted. */
  datatype PartialOptions = PartialOptions(
    width: Option<real>,
    height: Option<real>,
    spread: Option<real>,
    padding: Option<real>,
    pixelRatio: Option<real>,
    signed: Option<bool>)

  /** `GetSDFOptions`. */
  datatype Options = Options(width: real, height: real, spread: real, padding: real, pixelRatio: real, signed: bool)

  const NoOptions := PartialOptions(None, None, None, None, None, None)

  const DefaultSpread := 10.0
  const DefaultPadding := 0.0
  const DefaultPixelRatio := 1.0
  const DefaultSigned := false

  const SpreadError := "Invalid argument: spread must be >= 1"
  const PaddingError := "Invalid argument: padding must be >= 0"
  const PixelRatioError := "Invalid argument: pixelRatio must be > 0"
  const WidthError := "Invalid argument: width must be >= 1"

  /** The bounds `validateOptions` enforces: every options record it returns satisfies them. */
  predicate InRange(o: Options) {
    o.spread >= 1.0 && o.padding >= 0.0 && o.pixelRatio >= 0.0 && o.width >= 1.0 && o.height >= 1.0
  }

  /**
   * `validateOptions(opts, width_, height_)`: `width_`/`height_` are the source image's size.
   * A thrown message is `Err`.
   */
  function ValidateOptions(opts: PartialOptions, width_: real, height_: real): (r: Result<Options, string>)
    // Missing fields take their defaults; supplied fields are returned as given, never clamped.
    ensures r.Ok? ==> r.value.width == (if opts.width.Some? then opts.width.value else width_)
    ensures r.Ok? ==> r.value.height == (if opts.height.Some? then opts.height.value else height_)
    ensures r.Ok? ==> r.value.spread == (if opts.spread.Some? then opts.spread.value else 10.0)
    ensures r.Ok? ==> r.value.padding == (if opts.padding.Some? then opts.padding.value else 0.0)
    ensures r.Ok? ==> r.value.pixelRatio == (if opts.pixelRatio.Some? then opts.pixelRatio.value else 1.0)
    ensures r.Ok? ==> r.value.signed == (opts.signed.Some? && opts.signed.value)
    ensures r.Ok? ==> InRange(r.value)
    // Accepted exactly when all five bounds hold (pixelRatio = 0 is accepted).
    ensures r.Ok? <==> opts.spread.GetOr(10.0) >= 1.0 && opts.padding.GetOr(0.0) >= 0.0
                       && opts.pixelRatio.GetOr(1.0) >= 0.0
                       && opts.width.GetOr(width_) >= 1.0 && opts.height.GetOr(height_) >= 1.0
    // The checks run in order spread, padding, pixelRatio, width, height: the first one violated names the error.
    ensures opts.spread.GetOr(10.0) < 1.0 ==> r == Err(SpreadError)
    ensures opts.spread.GetOr(10.0) >= 1.0 && opts.padding.GetOr(0.0) < 0.0 ==> r == Err(PaddingError)
    ensures opts.spread.GetOr(10.0) >= 1.0 && opts.padding.GetOr(0.0) >= 0.0 && opts.pixelRatio.GetOr(1.0) < 0.0
            ==> r == Err(PixelRatioError)
    ensures opts.spread.GetOr(10.0) >= 1.0 && opts.padding.GetOr(0.0) >= 0.0 && opts.pixelRatio.GetOr(1.0) >= 0.0
            && (opts.width.GetOr(width_) < 1.0 || opts.height.GetOr(height_) < 1.0)
            ==> r == Err(WidthError)
  {
    var width := opts.width.GetOr(width_);
    var height := opts.height.GetOr(height_);
    var spread := opts.spread.GetOr(DefaultSpread);
    var padding := opts.padding.GetOr(DefaultPadding);
    var pixelRatio := opts.pixelRatio.GetOr(DefaultPixelRatio);
    var signed := opts.signed.GetOr(DefaultSigned);
    if spread < 1.0 then Err(SpreadError)
    else if padding < 0.0 then Err(PaddingError)
    else if pixelRatio < 0.0 then Err(PixelRatioError)
    else if width < 1.0 then Err(WidthError)
    else if height < 1.0 then Err(WidthError)  // the height check reports "width"
    else Ok(Options(width, height, spread, padding, pixelRatio, signed))
  }

  /** With nothing supplied, an image of at least 1×1 gets spread 10, padding 0, pixelRatio 1, unsigned. */
  lemma ValidateDefaults(width_: real, height_: real)
    requires width_ >= 1.0 && height_ >= 1.0
    ensures ValidateOptions(NoOptions, width_, height_) == Ok(Options(width_, height_, 10.0, 0.0, 1.0, false))
  {
  }

  /** A failing height check cannot be told apart from a failing width check by its message. */
  lemma HeightErrorSaysWidth(opts: PartialOptions, width_: real, height_: real)
    requires ValidateOptions(opts, width_, height_).Ok?
    ensures ValidateOptions(opts.(height := Some(0.0)), width_, height_) == Err(WidthError)
    ensures ValidateOptions(opts.(width := Some(0.0)), width_, height_) == Err(WidthError)
  {
  }

  /** A pixel ratio of 0 passes validation, although its message asks for "> 0". */
  lemma ZeroPixelRatioAccepted(opts: PartialOptions, width_: real, height_: real)
    requires ValidateOptions(opts, width_, height_).Ok?
    ensures ValidateOptions(opts.(pixelRatio := Some(0.0)), width_, height_).Ok?
  {
  }

  /** The working size along one axis: `(size + padding * 2) * pixelRatio`. */
  function ViewportExtent(size: real, padding: real, pixelRatio: real): (v: real)
    requires size >= 1.0 && padding >= 0.0 && pixelRatio >= 0.0
    ensures v >= 0.0
    ensures v == 0.0 <==> pixelRatio == 0.0
  {
    (size + padding * 2.0) * pixelRatio
  }

  /** The viewport is never smaller than the image scaled by `pixelRatio`: padding only adds to it. */
  lemma ViewportCoversImage(size: real, padding: real, pixelRatio: real)
    requires size >= 1.0 && padding >= 0.0 && pixelRatio >= 0.0
    ensures ViewportExtent(size, padding, pixelRatio) >= pixelRatio * size
    ensures ViewportExtent(size, padding, pixelRatio) == pixelRatio * size + 2.0 * padding * pixelRatio
  {
  }

  /**
   * `viewportWidth`: the padded width scaled by `pixelRatio`; it covers the scaled image and
   * is zero exactly when `pixelRatio` is.
   */
  function ViewportWidth(o: Options): (v: real)
    requires o.width >= 1.0 && o.padding >= 0.0 && o.pixelRatio >= 0.0
    ensures v >= o.pixelRatio * o.width && v == o.pixelRatio * o.width + 2.0 * o.padding * o.pixelRatio
    ensures v == 0.0 <==> o.pixelRatio == 0.0
  {
    ViewportCoversImage(o.width, o.padding, o.pixelRatio);
    ViewportExtent(o.width, o.padding, o.pixelRatio)
  }

  /**
   * `viewportHeight`: the padded height scaled by `pixelRatio`; it covers the scaled image and
   * is zero exactly when `pixelRatio` is.
   */
  function ViewportHeight(o: Options): (v: real)
    requires o.height >= 1.0 && o.padding >= 0.0 && o.pixelRatio >= 0.0
    ensures v >= o.pixelRatio * o.height && v == o.pixelRatio * o.height + 2.0 * o.padding * o.pixelRatio
    ensures v == 0.0 <==> o.pixelRatio == 0.0
  {
    ViewportCoversImage(o.height, o.padding, o.pixelRatio);
    ViewportExtent(o.height, o.padding, o.pixelRatio)
  }

  /**
   * The length of `new Float32Array(viewportWidth * viewportHeight * 4)`: the product,
   * truncated to an integer as the array constructor does.
   */
  function BufferLength(vw: real, vh: real): (n: nat)
    requires vw >= 0.0 && vh >= 0.0
    ensures n as real <= vw * vh * 4.0 < n as real + 1.0
  {
    NonNegativeProduct(vw, vh);
    (vw * vh * 4.0).Floor
  }

  lemma NonNegativeProduct(a: real, b: real)
    requires a >= 0.0 && b >= 0.0
    ensures a * b * 4.0 >= 0.0
  {
  }

  /** For a whole-pixel viewport the buffer holds exactly four floats (RGBA) per pixel. */
  lemma BufferLengthWhole(w: nat, h: nat)
    ensures BufferLength(w as real, h as real) == w * h * 4
  {
    assert (w as real) * (h as real) * 4.0 == (w * h * 4) as real;
  }
}
