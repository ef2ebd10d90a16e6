/**
 * The glyph pipeline of text/src/lib.rs: `FontContext` caches one `FontInfo`
 * per font key and, for hint-free rendering, one font-unit outline per glyph;
 * `push_glyph` turns a glyph into a `DrawPath` appended to a `Scene`, and
 * `push_layout` does so for every glyph of a shaped layout.
 *
 * `PushGlyphSpec` and `PushLayoutSpec` say as values what one call does to the
 * font-info map and the scene; the methods of `FontContext` are proved to do
 * exactly that, and the lemmas state the caching policy: the cache is used only
 * without hinting, it holds outlines scaled by units-per-em and by nothing
 * else, a hit and a miss render the stored outline through the same transform,
 * errors add no path and store no outline, and `push_layout` stops at the
 * first error.
 */
module Text {
  import opened Wrappers
  import opened Geometry
  import opened FontKit
  import opened OutlineBuilder

  newtype u16 = x: int | 0 <= x < 0x1_0000

  /** `GlyphId(pub u32)`. */
  datatype GlyphId = GlyphId(id: u32)

  // ---------------------------------------------------------------------------
  // Render options and draw paths (pathfinder_content / pathfinder_renderer values,
  // passed through unchanged).

  datatype LineCap = Butt | Square | RoundCap
  datatype LineJoin = Miter(limit: real) | Bevel | RoundJoin
  datatype StrokeStyle = StrokeStyle(lineWidth: real, lineCap: LineCap, lineJoin: LineJoin)

  /** `TextRenderMode`. */
  datatype TextRenderMode = Fill | Stroke(style: StrokeStyle)

  datatype PaintId = PaintId(index: u16)
  datatype ClipPathId = ClipPathId(index: u32)

  datatype BlendMode =
    | Clear | Copy | SrcIn | SrcOut | SrcOver | SrcAtop | DestIn | DestOut | DestOver | DestAtop
    | Xor | Lighter | Darken | Lighten | Multiply | Screen | HardLight | Overlay | ColorDodge
    | ColorBurn | SoftLight | Difference | Exclusion | Hue | Saturation | Color | Luminosity

  /** `FontRenderOptions`. */
  datatype FontRenderOptions = FontRenderOptions(
    transform: Transform2F,
    renderMode: TextRenderMode,
    hintingOptions: HintingOptions,
    clipPath: Option<ClipPathId>,
    blendMode: BlendMode,
    paintId: PaintId)

  /** `FontRenderOptions::default()`: no transform, fill mode, no hinting, no clip path, source-over, paint 0. */
  const DefaultRenderOptions: FontRenderOptions :=
    FontRenderOptions(Identity, Fill, HintingOptions.None, Option.None, SrcOver, PaintId(0))

  /** The fields of a `DrawPath` that `push_glyph` sets. */
  datatype DrawPath = DrawPath(outline: Outline, paint: PaintId, clipPath: Option<ClipPathId>, blendMode: BlendMode)

  /** The collaborators the pipeline calls: the font loader and `OutlineStrokeToFill`. */
  datatype Env = Env(loader: Loader, strokeToFill: (Outline, StrokeStyle) -> Outline)

  // ---------------------------------------------------------------------------
  // Font info.

  /** `FontInfo`: a font, its metrics read once, and its outline cache. */
  datatype FontInfo = FontInfo(font: FontHandle, metrics: Metrics, outlineCache: map<GlyphId, Outline>)

  /** `FontInfo::new`: reads the font's metrics and starts with an empty outline cache. */
  function NewFontInfo(loader: Loader, font: FontHandle): (info: FontInfo)
    ensures info.font == font && info.metrics == loader.metrics(font)
    ensures info.outlineCache == map[]
  {
    FontInfo(font, loader.metrics(font), map[])
  }

  /** `FontInfoRefMut`: an entry of the context's map (named by its key), or a transient font info. */
  datatype FontInfoRefMut = Ref(key: string) | Owned(info: FontInfo)

  /** `FontInfoRefMut::get_mut`: the font info the reference designates. */
  function GetMut(r: FontInfoRefMut, fontInfo: map<string, FontInfo>): (info: FontInfo)
    requires r.Ref? ==> r.key in fontInfo
    ensures r.Ref? ==> info == fontInfo[r.key]
    ensures r.Owned? ==> info == r.info
  {
    match r
    case Ref(key) => fontInfo[key]
    case Owned(info) => info
  }

  /** The font-info map after step 1 of `push_glyph`: a missing key gains a new entry, nothing else changes. */
  function ResolveFontInfo(loader: Loader, fontInfo: map<string, FontInfo>, font: FontHandle, fontKey: Option<string>)
    : (m: map<string, FontInfo>)
    ensures fontKey.None? ==> m == fontInfo
    ensures fontKey.Some? ==> m.Keys == fontInfo.Keys + {fontKey.value}
    ensures forall k :: k in fontInfo ==> k in m && m[k] == fontInfo[k]
    ensures fontKey.Some? && fontKey.value !in fontInfo ==> m[fontKey.value] == NewFontInfo(loader, font)
  {
    match fontKey
    case None => fontInfo
    case Some(key) => if key in fontInfo then fontInfo else fontInfo[key := NewFontInfo(loader, font)]
  }

  /** The font info `push_glyph` works with: the (possibly new) entry for the key, or a transient one. */
  function FontInfoFor(loader: Loader, fontInfo: map<string, FontInfo>, font: FontHandle, fontKey: Option<string>)
    : (info: FontInfo)
    ensures fontKey.Some? ==> info == GetMut(Ref(fontKey.value), ResolveFontInfo(loader, fontInfo, font, fontKey))
    ensures fontKey.None? ==> info == GetMut(Owned(NewFontInfo(loader, font)), fontInfo)
  {
    if fontKey.Some? && fontKey.value in fontInfo then fontInfo[fontKey.value] else NewFontInfo(loader, font)
  }

  // ---------------------------------------------------------------------------
  // The transforms push_glyph builds, as terms.

  /** `metrics.units_per_em as f32`. */
  function UnitsPerEm(metrics: Metrics): Scalar {
    FromInt(metrics.unitsPerEm as int)
  }

  /** `Transform2F::from_scale(units_per_em)`: the only transform a cached outline is built with. */
  function FontUnitTransform(metrics: Metrics): Transform2F {
    UniformScale(UnitsPerEm(metrics))
  }

  /**
   * `render_transform`: the caller's transform times the font scale with the y axis
   * flipped, translated by the glyph offset.
   */
  function RenderTransform(transform: Transform2F, metrics: Metrics, fontSize: real, offset: Vector2F): Transform2F {
    var fontScale := Quot(Literal(fontSize), UnitsPerEm(metrics));
    Mul(transform, Translate(FromScale(fontScale, Neg(fontScale)), offset))
  }

  /** `render_transform * Transform2F::from_scale(1.0 / units_per_em)`: what a font-unit outline is rendered through. */
  function CachedToDevice(transform: Transform2F, metrics: Metrics, fontSize: real, offset: Vector2F): Transform2F {
    Mul(RenderTransform(transform, metrics, fontSize, offset), UniformScale(Quot(Literal(1.0), UnitsPerEm(metrics))))
  }

  /** The outline cache is used only without hinting. */
  predicate CanCacheOutline(options: FontRenderOptions) {
    options.hintingOptions == HintingOptions.None
  }

  /** Default options render through the outline cache, in fill mode, with the identity transform. */
  lemma DefaultOptionsFillThroughCache()
    ensures CanCacheOutline(DefaultRenderOptions)
    ensures DefaultRenderOptions.renderMode.Fill? && DefaultRenderOptions.transform == Identity
    ensures DefaultRenderOptions.clipPath.None? && DefaultRenderOptions.paintId == PaintId(0)
  {
  }

  /** Every cached outline of every font info is a font outline scaled by that font's units-per-em and by nothing else. */
  ghost predicate CachesInFontUnits(fontInfo: map<string, FontInfo>) {
    forall k, g :: k in fontInfo && g in fontInfo[k].outlineCache ==>
      OnlyMappedBy(fontInfo[k].outlineCache[g], FontUnitTransform(fontInfo[k].metrics))
  }

  // ---------------------------------------------------------------------------
  // push_glyph as a value.

  /** The outline cache after a glyph lookup, and the device-space outline (before stroking) or the error. */
  datatype OutlineOutcome = OutlineOutcome(outlineCache: map<GlyphId, Outline>, outline: Result<Outline, GlyphLoadingError>)

  /** Lines 121-163 of push_glyph: look the glyph up, or build it, store it when hint-free, and move it to device space. */
  function GlyphOutline(loader: Loader, info: FontInfo, font: FontHandle, glyphId: GlyphId, offset: Vector2F,
                        fontSize: real, options: FontRenderOptions): OutlineOutcome
  {
    var canCache := CanCacheOutline(options);
    var toDevice := CachedToDevice(options.transform, info.metrics, fontSize, offset);
    if canCache && glyphId in info.outlineCache then
      OutlineOutcome(info.outlineCache, Success(TransformOutline(info.outlineCache[glyphId], toDevice)))
    else
      var transform := if canCache then FontUnitTransform(info.metrics)
                       else RenderTransform(options.transform, info.metrics, fontSize, offset);
      var run := loader.outline(font, glyphId.id, options.hintingOptions);
      if run.status.Failure? then OutlineOutcome(info.outlineCache, Failure(run.status.error))
      else
        var built := Built(transform, run.events);
        if canCache then OutlineOutcome(info.outlineCache[glyphId := built], Success(TransformOutline(built, toDevice)))
        else OutlineOutcome(info.outlineCache, Success(built))
  }

  /** Lines 165-173 of push_glyph: stroke the outline if asked to, and wrap it with the paint, clip path and blend mode. */
  function MakeDrawPath(env: Env, outline: Outline, options: FontRenderOptions): DrawPath
  {
    var o := if options.renderMode.Stroke? then env.strokeToFill(outline, options.renderMode.style) else outline;
    DrawPath(o, options.paintId, options.clipPath, options.blendMode)
  }

  /** The font-info map after a push_glyph call, and the path it appends or the error it returns. */
  datatype GlyphOutcome = GlyphOutcome(fontInfo: map<string, FontInfo>, drawPath: Result<DrawPath, GlyphLoadingError>)

  /** What `push_glyph` does. */
  function PushGlyphSpec(env: Env, fontInfo: map<string, FontInfo>, font: FontHandle, fontKey: Option<string>,
                         glyphId: GlyphId, offset: Vector2F, fontSize: real, options: FontRenderOptions): GlyphOutcome
  {
    var resolved := ResolveFontInfo(env.loader, fontInfo, font, fontKey);
    var info := FontInfoFor(env.loader, fontInfo, font, fontKey);
    var o := GlyphOutline(env.loader, info, font, glyphId, offset, fontSize, options);
    var after := if fontKey.Some? then resolved[fontKey.value := info.(outlineCache := o.outlineCache)] else resolved;
    GlyphOutcome(after, if o.outline.Failure? then Failure(o.outline.error) else Success(MakeDrawPath(env, o.outline.value, options)))
  }

  // ---------------------------------------------------------------------------
  // What push_glyph promises.

  /** With no key, a transient font info is used and the map is left exactly as it was. */
  lemma TransientFontInfoLeavesMapUnchanged(env: Env, fontInfo: map<string, FontInfo>, font: FontHandle,
                                            glyphId: GlyphId, offset: Vector2F, fontSize: real, options: FontRenderOptions)
    ensures PushGlyphSpec(env, fontInfo, font, Option.None, glyphId, offset, fontSize, options).fontInfo == fontInfo
  {
  }

  /**
   * With a key, the map gains at most that key; every other entry is untouched, an existing entry
   * for the key keeps its font, its metrics and every outline it had cached, and a new entry is
   * the font's own.
   */
  lemma FontInfoEntriesPersist(env: Env, fontInfo: map<string, FontInfo>, font: FontHandle, key: string,
                               glyphId: GlyphId, offset: Vector2F, fontSize: real, options: FontRenderOptions)
    ensures var after := PushGlyphSpec(env, fontInfo, font, Some(key), glyphId, offset, fontSize, options).fontInfo;
      && after.Keys == fontInfo.Keys + {key}
      && (forall k :: k in fontInfo && k != key ==> after[k] == fontInfo[k])
      && (key in fontInfo ==> after[key].font == fontInfo[key].font && after[key].metrics == fontInfo[key].metrics)
      && (key !in fontInfo ==> after[key].font == font && after[key].metrics == env.loader.metrics(font))
      && (key in fontInfo ==> forall g :: g in fontInfo[key].outlineCache ==>
            g in after[key].outlineCache && after[key].outlineCache[g] == fontInfo[key].outlineCache[g])
      && after[key].outlineCache.Keys <= FontInfoFor(env.loader, fontInfo, font, Some(key)).outlineCache.Keys + {glyphId}
  {
  }

  /**
   * With hinting, the outline cache is neither read nor written: the map differs from the old one at
   * most by a new font-info entry for the key, and the path is built from the font's own outline with
   * the render transform, whatever the cache holds.
   */
  lemma HintedGlyphBypassesCache(env: Env, fontInfo: map<string, FontInfo>, font: FontHandle, fontKey: Option<string>,
                                 glyphId: GlyphId, offset: Vector2F, fontSize: real, options: FontRenderOptions)
    requires !CanCacheOutline(options)
    ensures var g := PushGlyphSpec(env, fontInfo, font, fontKey, glyphId, offset, fontSize, options);
      var info := FontInfoFor(env.loader, fontInfo, font, fontKey);
      var run := env.loader.outline(font, glyphId.id, options.hintingOptions);
      && g.fontInfo == ResolveFontInfo(env.loader, fontInfo, font, fontKey)
      && g.drawPath == if run.status.Failure? then Failure(run.status.error)
                       else Success(MakeDrawPath(env, Built(RenderTransform(options.transform, info.metrics, fontSize, offset), run.events), options))
  {
    var resolved := ResolveFontInfo(env.loader, fontInfo, font, fontKey);
    if fontKey.Some? {
      assert resolved[fontKey.value := resolved[fontKey.value]] == resolved;
    }
  }

  /**
   * Without hinting and with a key, a path is always drawn from the outline stored for the glyph,
   * through `render_transform * scale(1 / units_per_em)`: a cache hit and a cache miss apply the same
   * transform term to the same stored outline.
   */
  lemma UnhintedGlyphRendersStoredOutline(env: Env, fontInfo: map<string, FontInfo>, font: FontHandle, key: string,
                                          glyphId: GlyphId, offset: Vector2F, fontSize: real, options: FontRenderOptions)
    requires CanCacheOutline(options)
    requires PushGlyphSpec(env, fontInfo, font, Some(key), glyphId, offset, fontSize, options).drawPath.Success?
    ensures var g := PushGlyphSpec(env, fontInfo, font, Some(key), glyphId, offset, fontSize, options);
      && key in g.fontInfo && glyphId in g.fontInfo[key].outlineCache
      && g.drawPath.value == MakeDrawPath(env, TransformOutline(g.fontInfo[key].outlineCache[glyphId],
           CachedToDevice(options.transform, g.fontInfo[key].metrics, fontSize, offset)), options)
  {
    var resolved := ResolveFontInfo(env.loader, fontInfo, font, Some(key));
    assert resolved[key := resolved[key]] == resolved;
  }

  /**
   * Without hinting, a miss stores the outline built with `scale(units_per_em)` alone, before the
   * render transform is applied to the copy that is drawn.
   */
  lemma MissStoresFontUnitOutline(env: Env, fontInfo: map<string, FontInfo>, font: FontHandle, key: string,
                                  glyphId: GlyphId, offset: Vector2F, fontSize: real, options: FontRenderOptions)
    requires CanCacheOutline(options)
    requires glyphId !in FontInfoFor(env.loader, fontInfo, font, Some(key)).outlineCache
    requires env.loader.outline(font, glyphId.id, options.hintingOptions).status.Success?
    ensures var g := PushGlyphSpec(env, fontInfo, font, Some(key), glyphId, offset, fontSize, options);
      var info := FontInfoFor(env.loader, fontInfo, font, Some(key));
      var built := Built(FontUnitTransform(info.metrics), env.loader.outline(font, glyphId.id, options.hintingOptions).events);
      && g.fontInfo[key].outlineCache == info.outlineCache[glyphId := built]
      && g.drawPath == Success(MakeDrawPath(env, TransformOutline(built, CachedToDevice(options.transform, info.metrics, fontSize, offset)), options))
  {
  }

  /**
   * Cache transparency: when the stored outline is what the font builds, drawing the glyph from the
   * cache gives the same path as drawing it with the entry removed from the cache.
   */
  lemma CacheIsTransparent(env: Env, fontInfo: map<string, FontInfo>, font: FontHandle, key: string,
                           glyphId: GlyphId, offset: Vector2F, fontSize: real, options: FontRenderOptions)
    requires CanCacheOutline(options)
    requires key in fontInfo && glyphId in fontInfo[key].outlineCache
    requires env.loader.outline(font, glyphId.id, options.hintingOptions).status.Success?
    requires fontInfo[key].outlineCache[glyphId]
      == Built(FontUnitTransform(fontInfo[key].metrics), env.loader.outline(font, glyphId.id, options.hintingOptions).events)
    ensures var evicted := fontInfo[key := fontInfo[key].(outlineCache := fontInfo[key].outlineCache - {glyphId})];
      PushGlyphSpec(env, fontInfo, font, Some(key), glyphId, offset, fontSize, options).drawPath
        == PushGlyphSpec(env, evicted, font, Some(key), glyphId, offset, fontSize, options).drawPath
  {
  }

  /**
   * Error path: push_glyph fails exactly when the glyph must be loaded and the font fails to load it;
   * it then returns the font's error, stores no outline and appends no path, though a new key's
   * font-info entry has already been inserted.
   */
  lemma GlyphErrorPath(env: Env, fontInfo: map<string, FontInfo>, font: FontHandle, fontKey: Option<string>,
                       glyphId: GlyphId, offset: Vector2F, fontSize: real, options: FontRenderOptions)
    ensures var g := PushGlyphSpec(env, fontInfo, font, fontKey, glyphId, offset, fontSize, options);
      var info := FontInfoFor(env.loader, fontInfo, font, fontKey);
      var run := env.loader.outline(font, glyphId.id, options.hintingOptions);
      && (g.drawPath.Failure? <==>
            run.status.Failure? && !(CanCacheOutline(options) && glyphId in info.outlineCache))
      && (g.drawPath.Failure? ==>
            g.drawPath.error == run.status.error && g.fontInfo == ResolveFontInfo(env.loader, fontInfo, font, fontKey))
  {
    var resolved := ResolveFontInfo(env.loader, fontInfo, font, fontKey);
    if fontKey.Some? {
      assert resolved[fontKey.value := resolved[fontKey.value]] == resolved;
    }
  }

  /**
   * Success path: the path carries the options' paint, clip path and blend mode, and its outline is
   * the device-space outline, or its stroke conversion in `Stroke` mode.
   */
  lemma GlyphSuccessPath(env: Env, fontInfo: map<string, FontInfo>, font: FontHandle, fontKey: Option<string>,
                         glyphId: GlyphId, offset: Vector2F, fontSize: real, options: FontRenderOptions)
    requires PushGlyphSpec(env, fontInfo, font, fontKey, glyphId, offset, fontSize, options).drawPath.Success?
    ensures var p := PushGlyphSpec(env, fontInfo, font, fontKey, glyphId, offset, fontSize, options).drawPath.value;
      var o := GlyphOutline(env.loader, FontInfoFor(env.loader, fontInfo, font, fontKey), font, glyphId, offset, fontSize, options);
      && o.outline.Success?
      && p.paint == options.paintId && p.clipPath == options.clipPath && p.blendMode == options.blendMode
      && (options.renderMode.Fill? ==> p.outline == o.outline.value)
      && (options.renderMode.Stroke? ==> p.outline == env.strokeToFill(o.outline.value, options.renderMode.style))
  {
  }

  /** push_glyph keeps every cached outline in font units: the cache never holds a render transform. */
  lemma GlyphKeepsCachesInFontUnits(env: Env, fontInfo: map<string, FontInfo>, font: FontHandle, fontKey: Option<string>,
                                    glyphId: GlyphId, offset: Vector2F, fontSize: real, options: FontRenderOptions)
    requires CachesInFontUnits(fontInfo)
    ensures CachesInFontUnits(PushGlyphSpec(env, fontInfo, font, fontKey, glyphId, offset, fontSize, options).fontInfo)
  {
    var info := FontInfoFor(env.loader, fontInfo, font, fontKey);
    var run := env.loader.outline(font, glyphId.id, options.hintingOptions);
    BuiltOnlyMappedBy(FontUnitTransform(info.metrics), run.events);
  }

  // ---------------------------------------------------------------------------
  // push_layout as a value.

  /** A positioned glyph of a shaped layout: its font (the `Arc`'s identity), its id and its offset. */
  datatype Glyph = Glyph(font: FontHandle, glyphId: u32, offset: Vector2F)

  /** The part of `skribo::Layout` that push_layout reads. */
  datatype Layout = Layout(glyphs: seq<Glyph>)

  /** The part of `skribo::TextStyle` that push_layout reads. */
  datatype TextStyle = TextStyle(size: real)

  /** An opaque `skribo::FontCollection`. */
  datatype FontCollection = FontCollection(id: nat)

  /** `CachedFontKey`: the memoised font and its key. */
  datatype CachedFontKey = CachedFontKey(font: FontHandle, key: Option<string>)

  /** The font key of a glyph's font, computed afresh. */
  function FontKeyOf(env: Env, glyph: Glyph): Option<string> {
    env.loader.postscriptName(glyph.font)
  }

  /** The font-info map after a push_layout call, the paths it appended, and its result. */
  datatype LayoutOutcome = LayoutOutcome(fontInfo: map<string, FontInfo>, drawPaths: seq<DrawPath>,
                                         result: Result<(), GlyphLoadingError>)

  /** One glyph of a layout pushed by push_glyph with the style's size, its font key computed afresh. */
  function LayoutGlyph(env: Env, fontSize: real, options: FontRenderOptions): (map<string, FontInfo>, Glyph) -> GlyphOutcome
  {
    (fontInfo: map<string, FontInfo>, glyph: Glyph) =>
      PushGlyphSpec(env, fontInfo, glyph.font, FontKeyOf(env, glyph), GlyphId(glyph.glyphId), glyph.offset, fontSize, options)
  }

  /** The loop of push_layout for a given per-glyph step: every glyph in order, stopping at the first error. */
  function RunGlyphs(step: (map<string, FontInfo>, Glyph) -> GlyphOutcome, fontInfo: map<string, FontInfo>,
                     glyphs: seq<Glyph>): (o: LayoutOutcome)
    decreases |glyphs|
    ensures |o.drawPaths| <= |glyphs|
    ensures o.result.Success? <==> |o.drawPaths| == |glyphs|
  {
    if glyphs == [] then LayoutOutcome(fontInfo, [], Success(()))
    else
      var g := step(fontInfo, glyphs[0]);
      if g.drawPath.Failure? then LayoutOutcome(g.fontInfo, [], Failure(g.drawPath.error))
      else
        var rest := RunGlyphs(step, g.fontInfo, glyphs[1..]);
        LayoutOutcome(rest.fontInfo, [g.drawPath.value] + rest.drawPaths, rest.result)
  }

  /**
   * What push_layout does, with the font key computed afresh for every glyph: push every glyph in
   * order with the style's size, stopping at the first error, so that it appends one path per glyph
   * exactly when it returns without error.
   */
  function PushLayoutSpec(env: Env, fontInfo: map<string, FontInfo>, glyphs: seq<Glyph>, fontSize: real,
                          options: FontRenderOptions): (o: LayoutOutcome)
    ensures |o.drawPaths| <= |glyphs|
    ensures o.result.Success? <==> |o.drawPaths| == |glyphs|
  {
    RunGlyphs(LayoutGlyph(env, fontSize, options), fontInfo, glyphs)
  }

  /** What is left of a push_layout run: `whole` is `done` followed by the run over `rest` from `fontInfo`. */
  predicate LayoutRemainder(env: Env, fontInfo: map<string, FontInfo>, rest: seq<Glyph>, fontSize: real,
                            options: FontRenderOptions, whole: LayoutOutcome, done: seq<DrawPath>)
  {
    var tail := PushLayoutSpec(env, fontInfo, rest, fontSize, options);
    whole.fontInfo == tail.fontInfo && whole.result == tail.result && whole.drawPaths == done + tail.drawPaths
  }

  /** One glyph of a push_layout run: on error the run ends there, otherwise its path is done. */
  lemma LayoutAdvance(env: Env, fontInfo: map<string, FontInfo>, glyphs: seq<Glyph>, i: nat, fontSize: real,
                      options: FontRenderOptions, whole: LayoutOutcome, done: seq<DrawPath>)
    requires i < |glyphs|
    requires LayoutRemainder(env, fontInfo, glyphs[i..], fontSize, options, whole, done)
    ensures var glyph := glyphs[i];
      var g := PushGlyphSpec(env, fontInfo, glyph.font, FontKeyOf(env, glyph), GlyphId(glyph.glyphId), glyph.offset, fontSize, options);
      && (g.drawPath.Failure? ==>
            whole.fontInfo == g.fontInfo && whole.result == Failure(g.drawPath.error) && whole.drawPaths == done)
      && (g.drawPath.Success? ==>
            LayoutRemainder(env, g.fontInfo, glyphs[i + 1..], fontSize, options, whole, done + [g.drawPath.value]))
  {
    var tail := glyphs[i..];
    assert tail[0] == glyphs[i] && tail[1..] == glyphs[i + 1..];
  }

  /** `done` followed by the run `o`: the outcome of a layout whose first glyph drew `done`. */
  function Prepend(done: DrawPath, o: LayoutOutcome): (r: LayoutOutcome)
    ensures r.fontInfo == o.fontInfo && r.result == o.result && r.drawPaths == [done] + o.drawPaths
  {
    LayoutOutcome(o.fontInfo, [done] + o.drawPaths, o.result)
  }

  /** `whole` is `pre` followed by the push_glyph outcome `g`, stopping there if `g` failed. */
  predicate ExtendsWith(pre: LayoutOutcome, g: GlyphOutcome, whole: LayoutOutcome)
  {
    && whole.fontInfo == g.fontInfo
    && whole.drawPaths == pre.drawPaths + (if g.drawPath.Success? then [g.drawPath.value] else [])
    && whole.result == (if g.drawPath.Success? then Success(()) else Failure(g.drawPath.error))
  }

  lemma ExtendsWithPrepend(pre: LayoutOutcome, g: GlyphOutcome, whole: LayoutOutcome, done: DrawPath)
    requires ExtendsWith(pre, g, whole)
    ensures ExtendsWith(Prepend(done, pre), g, Prepend(done, whole))
  {
    assert [done] + (pre.drawPaths + (if g.drawPath.Success? then [g.drawPath.value] else []))
        == ([done] + pre.drawPaths) + (if g.drawPath.Success? then [g.drawPath.value] else []);
  }

  /** A run whose first glyph renders is that glyph's path followed by the run over the rest. */
  lemma RunFirstGlyph(step: (map<string, FontInfo>, Glyph) -> GlyphOutcome, fontInfo: map<string, FontInfo>,
                      glyphs: seq<Glyph>)
    requires glyphs != []
    requires step(fontInfo, glyphs[0]).drawPath.Success?
    ensures RunGlyphs(step, fontInfo, glyphs)
      == Prepend(step(fontInfo, glyphs[0]).drawPath.value, RunGlyphs(step, step(fontInfo, glyphs[0]).fontInfo, glyphs[1..]))
  {
  }

  /** Extending a run that ended without error by one glyph appends that glyph's step from the map the prefix left. */
  lemma {:induction false} RunExtendsByOneGlyph(step: (map<string, FontInfo>, Glyph) -> GlyphOutcome,
                                                fontInfo: map<string, FontInfo>, glyphs: seq<Glyph>, i: nat)
    requires i < |glyphs|
    requires RunGlyphs(step, fontInfo, glyphs[..i]).result.Success?
    ensures var pre := RunGlyphs(step, fontInfo, glyphs[..i]);
      ExtendsWith(pre, step(pre.fontInfo, glyphs[i]), RunGlyphs(step, fontInfo, glyphs[..i + 1]))
    decreases i
  {
    if i == 0 {
      assert glyphs[..0] == [];
      assert glyphs[..1] == [glyphs[0]];
      assert glyphs[..1][1..] == [];
    } else {
      var rest := glyphs[1..];
      var g0 := step(fontInfo, glyphs[0]);
      assert glyphs[..i][0] == glyphs[0] && glyphs[..i + 1][0] == glyphs[0];
      assert glyphs[..i][1..] == rest[..i - 1];
      assert glyphs[..i + 1][1..] == rest[..i];
      assert rest[i - 1] == glyphs[i];
      assert g0.drawPath.Success?;
      RunFirstGlyph(step, fontInfo, glyphs[..i]);
      RunFirstGlyph(step, fontInfo, glyphs[..i + 1]);
      RunExtendsByOneGlyph(step, g0.fontInfo, rest, i - 1);
      var tailPre := RunGlyphs(step, g0.fontInfo, rest[..i - 1]);
      ExtendsWithPrepend(tailPre, step(tailPre.fontInfo, glyphs[i]), RunGlyphs(step, g0.fontInfo, rest[..i]), g0.drawPath.value);
    }
  }

  /**
   * push_layout is push_glyph, glyph after glyph: extending a layout that rendered without error by
   * one glyph appends that glyph's push_glyph outcome, computed from the map the prefix left, and keeps
   * the paths already appended.
   */
  lemma LayoutExtendsByOneGlyph(env: Env, fontInfo: map<string, FontInfo>, glyphs: seq<Glyph>,
                                fontSize: real, options: FontRenderOptions, i: nat)
    requires i < |glyphs|
    requires PushLayoutSpec(env, fontInfo, glyphs[..i], fontSize, options).result.Success?
    ensures var pre := PushLayoutSpec(env, fontInfo, glyphs[..i], fontSize, options);
      var glyph := glyphs[i];
      ExtendsWith(pre, PushGlyphSpec(env, pre.fontInfo, glyph.font, FontKeyOf(env, glyph), GlyphId(glyph.glyphId),
                                     glyph.offset, fontSize, options),
                  PushLayoutSpec(env, fontInfo, glyphs[..i + 1], fontSize, options))
  {
    RunExtendsByOneGlyph(LayoutGlyph(env, fontSize, options), fontInfo, glyphs, i);
  }

  /** Once a run has failed, the glyphs after it make no difference. */
  lemma {:induction false} RunFailureIgnoresRest(step: (map<string, FontInfo>, Glyph) -> GlyphOutcome,
                                                 fontInfo: map<string, FontInfo>, glyphs: seq<Glyph>, rest: seq<Glyph>)
    requires RunGlyphs(step, fontInfo, glyphs).result.Failure?
    ensures RunGlyphs(step, fontInfo, glyphs + rest) == RunGlyphs(step, fontInfo, glyphs)
    decreases |glyphs|
  {
    assert (glyphs + rest)[0] == glyphs[0];
    assert (glyphs + rest)[1..] == glyphs[1..] + rest;
    var g := step(fontInfo, glyphs[0]);
    if g.drawPath.Success? {
      RunFailureIgnoresRest(step, g.fontInfo, glyphs[1..], rest);
    }
  }

  /** A run whose first k glyphs render and whose glyph k then fails ends there, whatever follows. */
  lemma RunStopsAtFailingGlyph(step: (map<string, FontInfo>, Glyph) -> GlyphOutcome, fontInfo: map<string, FontInfo>,
                               glyphs: seq<Glyph>, k: nat)
    requires k < |glyphs|
    requires RunGlyphs(step, fontInfo, glyphs[..k]).result.Success?
    requires step(RunGlyphs(step, fontInfo, glyphs[..k]).fontInfo, glyphs[k]).drawPath.Failure?
    ensures var pre := RunGlyphs(step, fontInfo, glyphs[..k]);
      var g := step(pre.fontInfo, glyphs[k]);
      RunGlyphs(step, fontInfo, glyphs) == LayoutOutcome(g.fontInfo, pre.drawPaths, Failure(g.drawPath.error))
  {
    RunExtendsByOneGlyph(step, fontInfo, glyphs, k);
    RunFailureIgnoresRest(step, fontInfo, glyphs[..k + 1], glyphs[k + 1..]);
    assert glyphs[..k + 1] + glyphs[k + 1..] == glyphs;
  }

  /**
   * push_layout stops at the first error: if the glyphs before index k render and glyph k fails from
   * the map they leave, the layout ends with the map glyph k's push left, the paths of the first k
   * glyphs and glyph k's error, whatever glyphs follow.
   */
  lemma LayoutStopsAtFailingGlyph(env: Env, fontInfo: map<string, FontInfo>, glyphs: seq<Glyph>,
                                  fontSize: real, options: FontRenderOptions, k: nat)
    requires k < |glyphs|
    requires PushLayoutSpec(env, fontInfo, glyphs[..k], fontSize, options).result.Success?
    requires LayoutGlyph(env, fontSize, options)(PushLayoutSpec(env, fontInfo, glyphs[..k], fontSize, options).fontInfo,
                                                 glyphs[k]).drawPath.Failure?
    ensures var pre := PushLayoutSpec(env, fontInfo, glyphs[..k], fontSize, options);
      var g := LayoutGlyph(env, fontSize, options)(pre.fontInfo, glyphs[k]);
      PushLayoutSpec(env, fontInfo, glyphs, fontSize, options) == LayoutOutcome(g.fontInfo, pre.drawPaths, Failure(g.drawPath.error))
  {
    RunStopsAtFailingGlyph(LayoutGlyph(env, fontSize, options), fontInfo, glyphs, k);
  }

  /** The glyph id is not in the cache push_glyph would read for this glyph. */
  predicate NotCachedFor(env: Env, fontInfo: map<string, FontInfo>, glyph: Glyph, options: FontRenderOptions) {
    GlyphId(glyph.glyphId) !in FontInfoFor(env.loader, fontInfo, glyph.font, FontKeyOf(env, glyph)).outlineCache
  }

  /** The font loads this glyph without error. */
  predicate LoadsWithoutError(env: Env, glyph: Glyph, options: FontRenderOptions) {
    env.loader.outline(glyph.font, glyph.glyphId, options.hintingOptions).status.Success?
  }

  /**
   * push_layout stops at the first error: if the glyphs before index k load and glyph k's font fails
   * to load it (and no cached copy of it can exist), the layout returns that error after exactly k
   * paths.  A copy could only be cached by an earlier glyph with the same key and id, which is ruled
   * out when such a glyph has the same font, as fonts that share a PostScript name do.
   */
  lemma {:induction false} LayoutStopsAtFirstError(env: Env, fontInfo: map<string, FontInfo>, glyphs: seq<Glyph>,
                                                   fontSize: real, options: FontRenderOptions, k: nat)
    requires k < |glyphs|
    requires forall i :: 0 <= i < k ==> LoadsWithoutError(env, glyphs[i], options)
    requires !LoadsWithoutError(env, glyphs[k], options)
    requires NotCachedFor(env, fontInfo, glyphs[k], options)
    requires forall i :: 0 <= i < k ==>
      (FontKeyOf(env, glyphs[i]) == FontKeyOf(env, glyphs[k]) && glyphs[i].glyphId == glyphs[k].glyphId ==>
         glyphs[i].font == glyphs[k].font)
    ensures var o := PushLayoutSpec(env, fontInfo, glyphs, fontSize, options);
      && |o.drawPaths| == k
      && o.result == Failure(env.loader.outline(glyphs[k].font, glyphs[k].glyphId, options.hintingOptions).status.error)
    decreases k
  {
    var first := glyphs[0];
    var g0 := PushGlyphSpec(env, fontInfo, first.font, FontKeyOf(env, first), GlyphId(first.glyphId), first.offset, fontSize, options);
    GlyphErrorPath(env, fontInfo, first.font, FontKeyOf(env, first), GlyphId(first.glyphId), first.offset, fontSize, options);
    if k > 0 {
      var last := glyphs[k];
      assert g0.drawPath.Success?;
      LoadedGlyphKeepsFailingGlyphUncached(env, fontInfo, first, last, fontSize, options);
      var rest := glyphs[1..];
      assert rest[k - 1] == last;
      LayoutStopsAtFirstError(env, g0.fontInfo, rest, fontSize, options, k - 1);
    }
  }

  /**
   * A six-glyph layout in one font whose fourth glyph has id 7, which the font cannot load, while
   * ids 1 to 6 load: push_layout returns the font's error after exactly three paths.
   */
  lemma SixGlyphLayoutFailsAtFourth(strokeToFill: (Outline, StrokeStyle) -> Outline, options: FontRenderOptions)
    ensures var font := FontHandle(0);
      var loader := Loader(
        f => Metrics(1000),
        (f, id, h) => if id == 7 then OutlineRun([], Failure(NoSuchGlyph)) else OutlineRun([MoveTo(Vector2F(0.0, 0.0))], Success(())),
        f => Some("Font"));
      var glyphs := [Glyph(font, 1, Vector2F(0.0, 0.0)), Glyph(font, 2, Vector2F(1.0, 0.0)), Glyph(font, 3, Vector2F(2.0, 0.0)),
                     Glyph(font, 7, Vector2F(3.0, 0.0)), Glyph(font, 5, Vector2F(4.0, 0.0)), Glyph(font, 6, Vector2F(5.0, 0.0))];
      var o := PushLayoutSpec(Env(loader, strokeToFill), map[], glyphs, 12.0, options);
      |o.drawPaths| == 3 && o.result == Failure(NoSuchGlyph)
  {
    var font := FontHandle(0);
    var loader := Loader(
      f => Metrics(1000),
      (f, id, h) => if id == 7 then OutlineRun([], Failure(NoSuchGlyph)) else OutlineRun([MoveTo(Vector2F(0.0, 0.0))], Success(())),
      f => Some("Font"));
    var glyphs := [Glyph(font, 1, Vector2F(0.0, 0.0)), Glyph(font, 2, Vector2F(1.0, 0.0)), Glyph(font, 3, Vector2F(2.0, 0.0)),
                   Glyph(font, 7, Vector2F(3.0, 0.0)), Glyph(font, 5, Vector2F(4.0, 0.0)), Glyph(font, 6, Vector2F(5.0, 0.0))];
    LayoutStopsAtFirstError(Env(loader, strokeToFill), map[], glyphs, 12.0, options, 3);
  }

  /**
   * A glyph that loads without error does not put another glyph's id into the cache push_glyph reads
   * for that other glyph, unless both have the same key, the same id and the same font.
   */
  lemma LoadedGlyphKeepsFailingGlyphUncached(env: Env, fontInfo: map<string, FontInfo>, first: Glyph, last: Glyph,
                                fontSize: real, options: FontRenderOptions)
    requires NotCachedFor(env, fontInfo, last, options)
    requires LoadsWithoutError(env, first, options)
    requires !LoadsWithoutError(env, last, options)
    requires FontKeyOf(env, first) == FontKeyOf(env, last) && first.glyphId == last.glyphId ==> first.font == last.font
    ensures var g := PushGlyphSpec(env, fontInfo, first.font, FontKeyOf(env, first), GlyphId(first.glyphId), first.offset, fontSize, options);
      NotCachedFor(env, g.fontInfo, last, options)
  {
    var key := FontKeyOf(env, first);
    if key.Some? {
      FontInfoEntriesPersist(env, fontInfo, first.font, key.value, GlyphId(first.glyphId), first.offset, fontSize, options);
    }
  }

  // ---------------------------------------------------------------------------
  // The imperative context and scene.

  /** `Scene`, as far as push_glyph uses it: an append-only list of draw paths. */
  class Scene {
    var drawPaths: seq<DrawPath>

    constructor ()
      ensures drawPaths == []
    {
      drawPaths := [];
    }

    /** `Scene::push_draw_path`. */
    method PushDrawPath(path: DrawPath)
      modifies this
      ensures drawPaths == old(drawPaths) + [path]
    {
      drawPaths := drawPaths + [path];
    }
  }

  class FontContext {
    var fontInfo: map<string, FontInfo>

    /** Every cached outline is in font units. */
    ghost predicate Valid()
      reads this
    {
      CachesInFontUnits(fontInfo)
    }

    /** `FontContext::new`. */
    constructor ()
      ensures Valid() && fontInfo == map[]
    {
      fontInfo := map[];
    }

    /** `get_cached_font`: the font stored under a PostScript name, if any. */
    function GetCachedFont(postscriptName: string): (r: Option<FontHandle>)
      reads this
      ensures r.Some? <==> postscriptName in fontInfo
      ensures r.Some? ==> r.value == fontInfo[postscriptName].font
    {
      if postscriptName in fontInfo then Some(fontInfo[postscriptName].font) else Option.None
    }

    /** `push_glyph`. */
    method PushGlyph(scene: Scene, env: Env, font: FontHandle, fontKey: Option<string>, glyphId: GlyphId,
                     glyphOffset: Vector2F, fontSize: real, renderOptions: FontRenderOptions)
      returns (r: Result<(), GlyphLoadingError>)
      requires Valid()
      modifies this, scene
      ensures Valid()
      ensures var g := PushGlyphSpec(env, old(fontInfo), font, fontKey, glyphId, glyphOffset, fontSize, renderOptions);
        && fontInfo == g.fontInfo
        && (g.drawPath.Success? ==> r == Success(()) && scene.drawPaths == old(scene.drawPaths) + [g.drawPath.value])
        && (g.drawPath.Failure? ==> r == Failure(g.drawPath.error) && scene.drawPaths == old(scene.drawPaths))
    {
      ghost var g := PushGlyphSpec(env, fontInfo, font, fontKey, glyphId, glyphOffset, fontSize, renderOptions);
      GlyphKeepsCachesInFontUnits(env, fontInfo, font, fontKey, glyphId, glyphOffset, fontSize, renderOptions);

      // Step 1: the font info, inserted into the map first when the key is new.
      var fontInfoRef: FontInfoRefMut;
      match fontKey {
        case Some(key) =>
          if key !in fontInfo {
            fontInfo := fontInfo[key := NewFontInfo(env.loader, font)];
          }
          fontInfoRef := Ref(key);
        case None =>
          fontInfoRef := Owned(NewFontInfo(env.loader, font));
      }
      var info := GetMut(fontInfoRef, fontInfo);

      // A cached outline is looked up only without hinting.
      var cachedOutline: Option<Outline> := Option.None;
      var canCacheOutline := renderOptions.hintingOptions == HintingOptions.None;
      if canCacheOutline && glyphId in info.outlineCache {
        cachedOutline := Some(info.outlineCache[glyphId]);
      }

      var metrics := info.metrics;
      var renderTransform := RenderTransform(renderOptions.transform, metrics, fontSize, glyphOffset);
      var toDevice := Mul(renderTransform, UniformScale(Quot(Literal(1.0), UnitsPerEm(metrics))));

      var outline: Outline;
      match cachedOutline {
        case Some(cached) =>
          outline := TransformOutline(cached, toDevice);
        case None =>
          var transform := if canCacheOutline then FontUnitTransform(metrics) else renderTransform;
          var built := BuildFromFont(env.loader, font, glyphId.id, renderOptions.hintingOptions, transform);
          if built.Failure? {
            return Failure(built.error);
          }
          outline := built.value;
          if canCacheOutline {
            // The outline is stored before the render transform is applied to the local copy.
            info := info.(outlineCache := info.outlineCache[glyphId := outline]);
            if fontInfoRef.Ref? {
              fontInfo := fontInfo[fontInfoRef.key := info];
            }
            outline := TransformOutline(outline, toDevice);
          }
      }

      if renderOptions.renderMode.Stroke? {
        outline := env.strokeToFill(outline, renderOptions.renderMode.style);
      }
      var path := DrawPath(outline, renderOptions.paintId, renderOptions.clipPath, renderOptions.blendMode);
      scene.PushDrawPath(path);
      r := Success(());
    }

    /** `push_layout`: with a one-slot memo of the last font and its key. */
    method PushLayout(scene: Scene, env: Env, layout: Layout, style: TextStyle, renderOptions: FontRenderOptions)
      returns (r: Result<(), GlyphLoadingError>)
      requires Valid()
      modifies this, scene
      ensures Valid()
      ensures var o := PushLayoutSpec(env, old(fontInfo), layout.glyphs, style.size, renderOptions);
        fontInfo == o.fontInfo && scene.drawPaths == old(scene.drawPaths) + o.drawPaths && r == o.result
    {
      ghost var whole := PushLayoutSpec(env, fontInfo, layout.glyphs, style.size, renderOptions);
      ghost var done: seq<DrawPath> := [];
      var cachedFontKey: Option<CachedFontKey> := Option.None;
      var i := 0;
      assert layout.glyphs[0..] == layout.glyphs;
      while i < |layout.glyphs|
        invariant 0 <= i <= |layout.glyphs|
        invariant Valid()
        invariant cachedFontKey.Some? ==> cachedFontKey.value.key == env.loader.postscriptName(cachedFontKey.value.font)
        invariant LayoutRemainder(env, fontInfo, layout.glyphs[i..], style.size, renderOptions, whole, done)
        invariant scene.drawPaths == old(scene.drawPaths) + done
      {
        var glyph := layout.glyphs[i];
        if !(cachedFontKey.Some? && cachedFontKey.value.font == glyph.font) {
          cachedFontKey := Some(CachedFontKey(glyph.font, env.loader.postscriptName(glyph.font)));
        }
        var fontKey := cachedFontKey.value;
        assert fontKey.font == glyph.font && fontKey.key == FontKeyOf(env, glyph);
        LayoutAdvance(env, fontInfo, layout.glyphs, i, style.size, renderOptions, whole, done);
        ghost var g := PushGlyphSpec(env, fontInfo, glyph.font, FontKeyOf(env, glyph), GlyphId(glyph.glyphId),
                                     glyph.offset, style.size, renderOptions);
        var res := PushGlyph(scene, env, fontKey.font, fontKey.key, GlyphId(glyph.glyphId), glyph.offset,
                             style.size, renderOptions);
        if res.Failure? {
          return res;
        }
        assert fontInfo == g.fontInfo && g.drawPath.Success?;
        assert LayoutRemainder(env, fontInfo, layout.glyphs[i + 1..], style.size, renderOptions, whole, done + [g.drawPath.value]);
        done := done + [g.drawPath.value];
        i := i + 1;
      }
      r := Success(());
    }

    /** `push_text`: shape the text (the shaper is the caller's), then push the layout. */
    method PushText(scene: Scene, env: Env, text: string, style: TextStyle, collection: FontCollection,
                    renderOptions: FontRenderOptions, shape: (TextStyle, FontCollection, string) -> Layout)
      returns (r: Result<(), GlyphLoadingError>)
      requires Valid()
      modifies this, scene
      ensures Valid()
      ensures var o := PushLayoutSpec(env, old(fontInfo), shape(style, collection, text).glyphs, style.size, renderOptions);
        fontInfo == o.fontInfo && scene.drawPaths == old(scene.drawPaths) + o.drawPaths && r == o.result
    {
      var layout := shape(style, collection, text);
      r := PushLayout(scene, env, layout, style, renderOptions);
    }
  }
}
