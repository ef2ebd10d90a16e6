# Pathfinder text: glyph outlines, the outline cache and layouts

This project models the glyph pipeline of Pathfinder's `text` crate
(`text/src/lib.rs`) in Dafny and proves what it promises.

- **`OutlinePathBuilder`** is the `OutlineSink` that a font drives with
  `move_to`, `line_to`, `quadratic_curve_to`, `cubic_curve_to` and `close` calls.
  It maps every point through one transform, fixed when the builder is created.
  It collects the points into contours and returns the outline on `build`.
- **`FontContext`** keeps one `FontInfo` per font key (the font's PostScript name).
  Each `FontInfo` holds the font, its metrics and a cache of glyph outlines.
  - `push_glyph` finds or creates the font info.
  - Without hinting, it reads the glyph's outline from the cache, or builds the
    outline in font units and stores it.
  - It maps the outline to device space, strokes it in stroke mode, and appends
    a `DrawPath` to the `Scene`.
  - `push_layout` runs `push_glyph` for every glyph of a shaped layout, in order.
    It remembers the last font and its key, and stops at the first error.
    `push_text` shapes a string and then calls `push_layout`.

The model has four modules:

- `Geometry`: vectors, transforms, points, contours and outlines, as symbolic terms.
  A point records which transforms were applied to the font's coordinate.
  So "which transform touched which point" is provable without floating-point arithmetic.
- `FontKit`: what the loader reports about a font, as a record of functions of a font handle:
  - its metrics;
  - its PostScript name;
  - for each glyph, the sink calls it makes and the status it returns.
- `OutlineBuilder`, which has three parts:
  - the builder as a pure state machine (`Step`, `Feed`, `Built`);
  - the imperative `OutlinePathBuilder` class, whose methods each perform exactly one step;
  - the lemmas about built outlines.
- `Text`, which has three parts:
  - `PushGlyphSpec` and `PushLayoutSpec`, which say as values what one call does;
  - the `FontContext` and `Scene` classes, whose methods are proved to do exactly that;
  - the caching and layout lemmas.

`Wrappers` holds `Option` and `Result`.

`move_to` pushes its point into the current contour, so `move_to` followed by `build` yields one
contour holding that single point (`MoveToThenBuild`).

## Model

| member | source | states |
|---|---|---|
| OutlineBuilder.OutlinePathBuilder.constructor | text/src/lib.rs:283-289 | The builder starts with no contours and an empty current contour, and remembers the transform it was given. |
| OutlineBuilder.OutlinePathBuilder.FlushCurrentContour | text/src/lib.rs:291-296 | A non-empty current contour moves to the end of the outline and is replaced by an empty one. An empty current contour is left where it is. The outline never gains an empty contour. |
| OutlineBuilder.OutlinePathBuilder.Build | text/src/lib.rs:298-301 | The result is the outline after a final flush, and it contains no empty contour. |
| OutlineBuilder.OutlinePathBuilder.MoveTo | text/src/lib.rs:305-308 | Flushes, then starts the current contour with the point mapped by the builder's transform, as an on-curve point. |
| OutlineBuilder.OutlinePathBuilder.LineTo | text/src/lib.rs:310-312 | Appends the mapped point to the current contour as an on-curve point. Nothing else changes. |
| OutlineBuilder.OutlinePathBuilder.QuadraticCurveTo | text/src/lib.rs:314-317 | Appends the mapped control point (first control point) and then the mapped end point. |
| OutlineBuilder.OutlinePathBuilder.CubicCurveTo | text/src/lib.rs:319-325 | Appends both mapped control points (first, then second) and then the mapped end point. |
| OutlineBuilder.OutlinePathBuilder.Close | text/src/lib.rs:327-329 | Marks the current contour closed. Its points and the finished contours do not change. |
| OutlineBuilder.LoadOutline | text/src/lib.rs:150-154 | After the font drives the sink, the builder is in the state reached by applying the font's calls in order. The status returned is the font's status. |
| OutlineBuilder.BuildFromFont | text/src/lib.rs:149-155 | A fresh builder fed by the font and then built yields the outline of the font's calls. If the font fails, the font's error is returned instead. |
| OutlineBuilder.FlushKeepsVertices | text/src/lib.rs:291-296 | A flush keeps every point the builder holds, in the same order. |
| OutlineBuilder.BuiltVertices | text/src/lib.rs:304-325 | The points of a built outline are exactly the points of the sink calls, in order and each mapped once by the fixed transform. This includes both cubic control points and the quadratic control point, with their flags. |
| OutlineBuilder.BuiltHasNoEmptyContour | text/src/lib.rs:291-308 | Whatever calls the font makes, a built outline has no empty contour. |
| OutlineBuilder.BuiltOnlyMappedBy | text/src/lib.rs:304-325 | Every point of a built outline is a font coordinate mapped once by the builder's transform and by no other transform. |
| OutlineBuilder.BuiltContourPerMoveTo | text/src/lib.rs:305-308 | For a stream that starts with `move_to`, the built outline has exactly one contour per `move_to`. |
| OutlineBuilder.MoveToThenBuild | text/src/lib.rs:298-308 | `move_to(p); build()` yields one open contour holding the single on-curve point `p`. |
| OutlineBuilder.MoveToLineToThenBuild | text/src/lib.rs:298-312 | `move_to(p); line_to(q); build()` yields one open contour of two on-curve points. |
| OutlineBuilder.CloseDoesNotFlush | text/src/lib.rs:327-329 | `close` leaves the finished contours alone and keeps the current contour's points, only closing it. |
| OutlineBuilder.CloseBeforeMoveTo | text/src/lib.rs:305-308 | `close` before any `move_to` closes the empty current contour. The next `move_to` has nothing to flush, so the one contour built comes out closed. |
| Geometry.TransformOutline | text/src/lib.rs:140 | `Outline::transform` maps every point of every contour through the transform. It keeps the number of contours, their flags and their closedness. |
| Text.NewFontInfo | text/src/lib.rs:248-255 | A new font info holds the font, the metrics the loader reports for it, and an empty outline cache. |
| Text.GetMut | text/src/lib.rs:262-267 | A reference resolves to the map entry for its key. An owned font info resolves to itself. |
| Text.FontInfoFor | text/src/lib.rs:105-119 | The font info push_glyph works with: with a key, the map entry for it after a missing key was inserted; without a key, a transient new font info. |
| Text.ResolveFontInfo | text/src/lib.rs:105-118 | With no key, the map is unchanged. With a key, the map gains that key only if it was missing, with a new font info for the font. Every existing entry is kept as it was. |
| Text.DefaultOptionsFillThroughCache | text/src/lib.rs:58-70 | Default render options have no hinting, so they use the outline cache. They fill, use the identity transform, no clip path and paint 0. |
| Text.FontContext.constructor | text/src/lib.rs:88-92 | A new context has an empty font-info map. |
| Text.FontContext.GetCachedFont | text/src/lib.rs:181-185 | Returns a font exactly when the name is a key of the map, and then it is the font stored under that name. |
| Text.Scene.PushDrawPath | text/src/lib.rs:175 | The path is appended to the end of the scene's paths. Nothing else changes. |
| Text.FontContext.PushGlyph | text/src/lib.rs:94-177 | The map becomes the one `PushGlyphSpec` gives. On success, exactly that path is appended to the scene. On error, the method returns the font's error and the scene is unchanged. Every cached outline stays in font units. |
| Text.TransientFontInfoLeavesMapUnchanged | text/src/lib.rs:113-117 | Without a font key, push_glyph leaves the font-info map exactly as it was. |
| Text.FontInfoEntriesPersist | text/src/lib.rs:105-112 | With a key, the map gains at most that key, and every other entry is untouched. An existing entry keeps its font, its metrics and every cached outline. A new entry holds the font and its metrics. At most the glyph's own id is added to the cache. |
| Text.HintedGlyphBypassesCache | text/src/lib.rs:124-148 | With hinting, no cache entry is read or written. The map changes at most by the new key's entry. The path is built from the font's outline with the render transform. |
| Text.UnhintedGlyphRendersStoredOutline | text/src/lib.rs:137-163 | Without hinting and with a font key, a successful call leaves the glyph's outline in the key's cache. Whether the call hit or missed the cache, the path is drawn from that stored outline through `render_transform * scale(1 / units_per_em)`. |
| Text.MissStoresFontUnitOutline | text/src/lib.rs:143-160 | Without hinting and with a font key, a miss stores the outline built with `scale(units_per_em)` alone. The path drawn is that stored outline mapped through `render_transform * scale(1 / units_per_em)`, so the render transform reaches only the copy that is drawn. |
| Text.CacheIsTransparent | text/src/lib.rs:124-163 | When the stored outline is what the font builds, a cache hit draws the same path as a call with the entry removed from the cache. |
| Text.GlyphErrorPath | text/src/lib.rs:150-154 | push_glyph fails exactly when the outline must be loaded and the font fails to load it. It then returns the font's error and stores no outline. The map differs from the old one only by the new key's inserted entry. |
| Text.GlyphSuccessPath | text/src/lib.rs:165-176 | The path carries the options' paint, clip path and blend mode. Its outline is the device-space outline in fill mode, or that outline's stroke conversion in stroke mode. |
| Text.GlyphKeepsCachesInFontUnits | text/src/lib.rs:144-160 | If every cached outline is a font outline scaled by units-per-em and nothing else, this still holds after push_glyph. |
| Text.RunGlyphs | text/src/lib.rs:197-219 | The loop appends at most one path per glyph. It ends without error exactly when it appended a path for every glyph. |
| Text.PushLayoutSpec | text/src/lib.rs:196-219 | Glyph by glyph with the style's size and a font key computed afresh each time, push_layout appends at most one path per glyph. It succeeds exactly when every glyph got a path. |
| Text.LayoutAdvance | text/src/lib.rs:208-217 | One loop iteration: an erroring glyph ends the run with that error and the paths already appended. Otherwise its path joins them and the run goes on from the map it left. |
| Text.RunExtendsByOneGlyph | text/src/lib.rs:197-218 | Extending an error-free run by one glyph appends that glyph's step outcome, computed from the map the prefix left. The paths already appended are kept. |
| Text.LayoutExtendsByOneGlyph | text/src/lib.rs:197-218 | push_layout is push_glyph glyph after glyph: the next glyph's push_glyph outcome, from the map the earlier glyphs left, is appended after the paths already appended. |
| Text.LayoutStopsAtFirstError | text/src/lib.rs:209-217 | Suppose the glyphs before index k load, the font fails glyph k, and no copy of glyph k can be cached. Then push_layout returns that error after exactly k paths. |
| Text.RunFailureIgnoresRest | text/src/lib.rs:209-217 | Once a glyph's push fails, the loop returns, so the glyphs after it change nothing. |
| Text.RunStopsAtFailingGlyph | text/src/lib.rs:197-219 | For any per-glyph step: once the first k glyphs render and glyph k fails, the run ends with that step's map, the first k paths and glyph k's error. |
| Text.LayoutStopsAtFailingGlyph | text/src/lib.rs:197-219 | Suppose the first k glyphs render and glyph k fails from the map they leave. Then push_layout ends with the map glyph k's push left, the first k glyphs' paths and glyph k's error. |
| Text.LoadedGlyphKeepsFailingGlyphUncached | text/src/lib.rs:143-157 | A glyph that loads without error does not put into the cache a different glyph that its font would fail to load. |
| Text.SixGlyphLayoutFailsAtFourth | text/src/lib.rs:196-219 | Take a six-glyph layout in one font whose fourth glyph cannot be loaded. push_layout returns the font's error after exactly three paths. |
| Text.FontContext.PushLayout | text/src/lib.rs:189-220 | The loop with the one-slot memo of font and key gives exactly `PushLayoutSpec`, which recomputes the key per glyph: the same map, the same paths appended in layout order and the same result. Paths appended before an error stay in the scene. |
| Text.FontContext.PushText | text/src/lib.rs:223-233 | push_text is push_layout on the layout the shaper returns for the text, the style and the collection. |

## Left out

- Floating-point arithmetic is not modelled. `font_size / units_per_em`, `1.0 / units_per_em` and the negated y scale are symbolic terms. No numeric identity is claimed. In particular, `scale(1/upem) * scale(upem)` is not claimed to be the identity. Nor is the hinted path, built with `render_transform` directly, claimed to equal the cached path numerically.
- Geometry.TransformOutline always wraps each point in the transform. It does not model `Outline::transform`'s shortcut for the identity transform, nor the recomputation of bounds.
- Contour and outline bounds are not modelled, nor the `DrawPath` name and fill rule that `DrawPath::new` defaults. A path's stored fields are all that is modelled.
- Of font-kit's `Metrics`, only `units_per_em` is modelled.
- Font-kit is an oracle: `Loader::metrics`, `Loader::postscript_name` and `Loader::outline`. OutlineBuilder.LoadOutline replays the sink calls a font makes and then returns its status. So a font that reports an error after some calls has made those calls on a builder that is then dropped.
- `OutlineStrokeToFill` is an uninterpreted function of the outline and the stroke style. Its offsetting is not modelled.
- `skribo::layout` shaping is a function that the caller of Text.FontContext.PushText passes in.
- `Arc` and `Clone` are modelled as handles: a cloned font is the same handle, and `Arc::ptr_eq` is handle equality. Two distinct `Arc`s of the same font are not distinguished from two different fonts.
- The `&mut FontInfo` that `FontInfoRefMut::Ref` holds is modelled as a key into the map. Cache insertions through it are written back into the map entry.
- Hash map iteration order, allocation and the `HashMap` hashing are not modelled. Maps are Dafny maps.
- The demo renderer (GPU device setup, viewports, reprojection, screenshots) and the SVG/PDF conversion command-line tool are not part of this model. They are I/O and foreign calls.
- Text.LayoutStopsAtFirstError requires that no earlier glyph with the same key and glyph id uses another font. Otherwise that glyph could have left a cached, loadable copy of the failing glyph.
