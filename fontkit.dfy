/**
 * The parts of font-kit that the text pipeline consumes, as values and oracles.
 *
 * A font is identified by a handle; what the font reports (its metrics, its
 * PostScript name, the outline events it emits for a glyph) is given by a
 * `Loader` record of functions of that handle, so the model does not depend on
 * any particular font file.
 */
module FontKit {
  import opened Wrappers
  import opened Geometry

  newtype u32 = x: int | 0 <= x < 0x1_0000_0000

  /** A font object (`F: Loader`).  The handle doubles as the identity of the `Arc` that holds it. */
  datatype FontHandle = FontHandle(id: nat)

  /** `font_kit::hinting::HintingOptions`. */
  datatype HintingOptions =
    | None
    | Vertical(verticalSize: real)
    | VerticalSubpixel(verticalSubpixelSize: real)
    | Full(fullSize: real)

  /** The part of `font_kit::metrics::Metrics` the pipeline reads. */
  datatype Metrics = Metrics(unitsPerEm: u32)

  /** `font_kit::error::GlyphLoadingError`. */
  datatype GlyphLoadingError = NoSuchGlyph | PlatformError

  /** One call a font makes on an `OutlineSink`. */
  datatype SinkEvent =
    | MoveTo(to: Vector2F)
    | LineTo(to: Vector2F)
    | QuadraticCurveTo(ctrl: Vector2F, to: Vector2F)
    | CubicCurveTo(ctrls: LineSegment2F, to: Vector2F)
    | Close

  /** What `Loader::outline` does for one glyph: the sink calls it makes, in order, then its return value. */
  datatype OutlineRun = OutlineRun(events: seq<SinkEvent>, status: Result<(), GlyphLoadingError>)

  /** The font operations the pipeline calls, as functions of the font. */
  datatype Loader = Loader(
    metrics: FontHandle -> Metrics,
    outline: (FontHandle, u32, HintingOptions) -> OutlineRun,
    postscriptName: FontHandle -> Option<string>)
}
