/**
 * `OutlinePathBuilder` (text/src/lib.rs): the `OutlineSink` that turns a font's
 * move/line/curve/close calls into an `Outline`, mapping every incoming point
 * through one transform fixed at construction.
 *
 * `BuilderState`, `Flush`, `Step`, `Feed` and `Built` describe the builder's
 * effect as values; the class `OutlinePathBuilder` is the imperative builder,
 * each of its methods proved to perform exactly one `Step` (or `Flush`), and
 * the lemmas state what a built outline is: every font point, in order, mapped
 * once by the builder's transform, and no empty contour.
 */
module OutlineBuilder {
  import opened Wrappers
  import opened Geometry
  import opened FontKit

  /** The builder's two mutable fields. */
  datatype BuilderState = BuilderState(outline: Outline, currentContour: Contour)

  /** The state `OutlinePathBuilder::new` starts from. */
  const Initial: BuilderState := BuilderState([], EmptyContour)

  /** `flush_current_contour`: move a non-empty current contour into the outline. */
  function Flush(s: BuilderState): BuilderState
  {
    if s.currentContour.IsEmpty() then s
    else BuilderState(s.outline + [s.currentContour], EmptyContour)
  }

  /** `t * v` for a point `v` the font hands over. */
  function Map(t: Transform2F, v: Vector2F): Point
  {
    Apply(t, Source(v))
  }

  /** The effect of one `OutlineSink` call on the builder. */
  function Step(t: Transform2F, s: BuilderState, e: SinkEvent): BuilderState
  {
    match e
    case MoveTo(to) =>
      var f := Flush(s);
      f.(currentContour := f.currentContour.PushEndpoint(Map(t, to)))
    case LineTo(to) =>
      s.(currentContour := s.currentContour.PushEndpoint(Map(t, to)))
    case QuadraticCurveTo(ctrl, to) =>
      s.(currentContour := s.currentContour.PushQuadratic(Map(t, ctrl), Map(t, to)))
    case CubicCurveTo(ctrl, to) =>
      s.(currentContour := s.currentContour.PushCubic(Map(t, ctrl.from), Map(t, ctrl.to), Map(t, to)))
    case Close =>
      s.(currentContour := s.currentContour.Close())
  }

  /** The effect of a sequence of sink calls, made in order. */
  function Feed(t: Transform2F, s: BuilderState, es: seq<SinkEvent>): BuilderState
    decreases |es|
  {
    if es == [] then s else Step(t, Feed(t, s, es[..|es| - 1]), es[|es| - 1])
  }

  /** The outline that `build` returns after the font made the calls `es` on a fresh builder. */
  function Built(t: Transform2F, es: seq<SinkEvent>): Outline
  {
    Flush(Feed(t, Initial, es)).outline
  }

  // ---------------------------------------------------------------------------
  // An independent description of the points a built outline must hold.

  /** The vertices one sink call contributes: each point it carries, mapped by `t`, with its role. */
  function EventVertices(t: Transform2F, e: SinkEvent): seq<Vertex>
  {
    match e
    case MoveTo(to) => [Vertex(Map(t, to), OnCurve)]
    case LineTo(to) => [Vertex(Map(t, to), OnCurve)]
    case QuadraticCurveTo(ctrl, to) => [Vertex(Map(t, ctrl), ControlPoint0), Vertex(Map(t, to), OnCurve)]
    case CubicCurveTo(ctrl, to) =>
      [Vertex(Map(t, ctrl.from), ControlPoint0), Vertex(Map(t, ctrl.to), ControlPoint1), Vertex(Map(t, to), OnCurve)]
    case Close => []
  }

  /** The vertices of a whole stream of sink calls, in order. */
  function StreamVertices(t: Transform2F, es: seq<SinkEvent>): seq<Vertex>
    decreases |es|
  {
    if es == [] then [] else StreamVertices(t, es[..|es| - 1]) + EventVertices(t, es[|es| - 1])
  }

  /** The number of `move_to` calls in a stream. */
  function CountMoveTo(es: seq<SinkEvent>): nat
    decreases |es|
  {
    if es == [] then 0 else CountMoveTo(es[..|es| - 1]) + (if es[|es| - 1].MoveTo? then 1 else 0)
  }

  /** Every vertex the builder holds, finished contours first. */
  function Pending(s: BuilderState): seq<Vertex>
  {
    Vertices(s.outline) + s.currentContour.vertices
  }

  /** Every point the builder holds is a font point mapped once by `t`. */
  predicate StateMappedBy(s: BuilderState, t: Transform2F)
  {
    && OnlyMappedBy(s.outline, t)
    && forall j :: 0 <= j < |s.currentContour.vertices| ==> MappedOnceBy(s.currentContour.vertices[j].position, t)
  }

  // ---------------------------------------------------------------------------
  // What a built outline is.

  /** Flushing neither loses nor adds a vertex, and leaves no point pending in the current contour. */
  lemma FlushKeepsVertices(s: BuilderState)
    ensures Pending(Flush(s)) == Pending(s)
    ensures Flush(s).currentContour.vertices == []
  {
    if !s.currentContour.IsEmpty() {
      VerticesPush(s.outline, s.currentContour);
    }
  }

  /** One sink call appends exactly the vertices it carries. */
  lemma StepAppendsEventVertices(t: Transform2F, s: BuilderState, e: SinkEvent)
    ensures Pending(Step(t, s, e)) == Pending(s) + EventVertices(t, e)
  {
    if e.MoveTo? {
      FlushKeepsVertices(s);
    }
  }

  lemma {:induction false} FeedAppendsStreamVertices(t: Transform2F, s: BuilderState, es: seq<SinkEvent>)
    ensures Pending(Feed(t, s, es)) == Pending(s) + StreamVertices(t, es)
    decreases |es|
  {
    if es != [] {
      var init, e := es[..|es| - 1], es[|es| - 1];
      var mid := Feed(t, s, init);
      assert Feed(t, s, es) == Step(t, mid, e);
      assert StreamVertices(t, es) == StreamVertices(t, init) + EventVertices(t, e);
      FeedAppendsStreamVertices(t, s, init);
      StepAppendsEventVertices(t, mid, e);
      calc {
        Pending(Feed(t, s, es));
        Pending(mid) + EventVertices(t, e);
        (Pending(s) + StreamVertices(t, init)) + EventVertices(t, e);
        Pending(s) + StreamVertices(t, es);
      }
    }
  }

  /**
   * The fixed transform reaches every point of every event: the built outline
   * holds, in order, each point of each sink call mapped once by the builder's
   * transform, flagged as on-curve or as first or second control point, and
   * nothing else.
   */
  lemma BuiltVertices(t: Transform2F, es: seq<SinkEvent>)
    ensures Vertices(Built(t, es)) == StreamVertices(t, es)
  {
    FeedAppendsStreamVertices(t, Initial, es);
    FlushKeepsVertices(Feed(t, Initial, es));
  }

  lemma {:induction false} FeedKeepsNoEmptyContour(t: Transform2F, s: BuilderState, es: seq<SinkEvent>)
    requires NoEmptyContour(s.outline)
    ensures NoEmptyContour(Feed(t, s, es).outline)
    decreases |es|
  {
    if es != [] {
      FeedKeepsNoEmptyContour(t, s, es[..|es| - 1]);
    }
  }

  /** A built outline never contains an empty contour, whatever calls the font made. */
  lemma BuiltHasNoEmptyContour(t: Transform2F, es: seq<SinkEvent>)
    ensures NoEmptyContour(Built(t, es))
  {
    FeedKeepsNoEmptyContour(t, Initial, es);
  }

  lemma {:induction false} FeedKeepsMappedBy(t: Transform2F, s: BuilderState, es: seq<SinkEvent>)
    requires StateMappedBy(s, t)
    ensures StateMappedBy(Feed(t, s, es), t)
    decreases |es|
  {
    if es != [] {
      FeedKeepsMappedBy(t, s, es[..|es| - 1]);
    }
  }

  /** Every point of a built outline is a font point mapped by the builder's transform once and by nothing else. */
  lemma BuiltOnlyMappedBy(t: Transform2F, es: seq<SinkEvent>)
    ensures OnlyMappedBy(Built(t, es), t)
  {
    FeedKeepsMappedBy(t, Initial, es);
  }

  lemma {:induction false} FeedContoursFromMoveTo(t: Transform2F, es: seq<SinkEvent>)
    requires |es| > 0 && es[0].MoveTo?
    ensures !Feed(t, Initial, es).currentContour.IsEmpty()
    ensures |Feed(t, Initial, es).outline| + 1 == CountMoveTo(es)
    decreases |es|
  {
    if |es| > 1 {
      var init := es[..|es| - 1];
      assert init[0] == es[0];
      FeedContoursFromMoveTo(t, init);
    }
  }

  /** For a stream that starts with `move_to`, the built outline has one contour per `move_to`. */
  lemma BuiltContourPerMoveTo(t: Transform2F, es: seq<SinkEvent>)
    requires |es| > 0 && es[0].MoveTo?
    ensures |Built(t, es)| == CountMoveTo(es)
  {
    FeedContoursFromMoveTo(t, es);
  }

  /** `move_to(p); build()` gives one contour holding the single point `p` (the point makes it non-empty). */
  lemma MoveToThenBuild(t: Transform2F, p: Vector2F)
    ensures Built(t, [MoveTo(p)]) == [Contour([Vertex(Map(t, p), OnCurve)], false)]
  {
    var es := [MoveTo(p)];
    assert es[..0] == [];
    assert Feed(t, Initial, es[..0]) == Initial;
    var s := Feed(t, Initial, es);
    assert s == Step(t, Initial, MoveTo(p));
    assert s == BuilderState([], Contour([Vertex(Map(t, p), OnCurve)], false));
  }

  /** `move_to(p); line_to(q); build()` gives one contour of two on-curve points, that is, one line segment. */
  lemma MoveToLineToThenBuild(t: Transform2F, p: Vector2F, q: Vector2F)
    ensures Built(t, [MoveTo(p), LineTo(q)]) == [Contour([Vertex(Map(t, p), OnCurve), Vertex(Map(t, q), OnCurve)], false)]
  {
    var es := [MoveTo(p), LineTo(q)];
    assert es[..1] == [MoveTo(p)];
    assert es[..1][..0] == [];
    assert Feed(t, Initial, es[..1][..0]) == Initial;
    var moved := Feed(t, Initial, es[..1]);
    assert moved == BuilderState([], Contour([Vertex(Map(t, p), OnCurve)], false));
    var s := Feed(t, Initial, es);
    assert s == Step(t, moved, LineTo(q));
    assert s == BuilderState([], Contour([Vertex(Map(t, p), OnCurve), Vertex(Map(t, q), OnCurve)], false));
  }

  /** `close` does not flush: a closed contour stays current until the next `move_to` or `build`. */
  lemma CloseDoesNotFlush(t: Transform2F, s: BuilderState)
    ensures Step(t, s, Close).outline == s.outline
    ensures Step(t, s, Close).currentContour == Contour(s.currentContour.vertices, true)
  {
  }

  /**
   * `close` on an empty current contour (before any `move_to`) marks that contour closed, and
   * the next `move_to`, which has nothing to flush, starts its points on it: the contour comes
   * out closed.
   */
  lemma CloseBeforeMoveTo(t: Transform2F, p: Vector2F)
    ensures Built(t, [Close, MoveTo(p)]) == [Contour([Vertex(Map(t, p), OnCurve)], true)]
  {
    var es := [Close, MoveTo(p)];
    assert es[..1] == [Close];
    assert es[..1][..0] == [];
    assert Feed(t, Initial, es[..1][..0]) == Initial;
    var closed := Feed(t, Initial, es[..1]);
    assert closed == BuilderState([], Contour([], true));
    var s := Feed(t, Initial, es);
    assert s == Step(t, closed, MoveTo(p));
    assert s == BuilderState([], Contour([Vertex(Map(t, p), OnCurve)], true));
  }

  // ---------------------------------------------------------------------------
  // The imperative builder.

  class OutlinePathBuilder {
    var outline: Outline
    var currentContour: Contour
    const transform: Transform2F

    /** The builder's fields as a value. */
    function State(): BuilderState
      reads this
    {
      BuilderState(outline, currentContour)
    }

    /** The builder never holds an empty finished contour. */
    ghost predicate Valid()
      reads this
    {
      NoEmptyContour(outline)
    }

    /** `OutlinePathBuilder::new`. */
    constructor (transform: Transform2F)
      ensures Valid() && this.transform == transform && State() == Initial
    {
      this.outline := [];
      this.currentContour := EmptyContour;
      this.transform := transform;
    }

    /** `flush_current_contour`: the `mem::replace` of a non-empty current contour by a new one. */
    method FlushCurrentContour()
      requires Valid()
      modifies this
      ensures Valid() && State() == Flush(old(State()))
      ensures currentContour.IsEmpty()
    {
      if !currentContour.IsEmpty() {
        outline := outline + [currentContour];
        currentContour := EmptyContour;
      }
    }

    /** `build`: flush, then hand over the outline (the builder is consumed). */
    method Build() returns (o: Outline)
      requires Valid()
      modifies this
      ensures o == Flush(old(State())).outline
      ensures NoEmptyContour(o)
    {
      FlushCurrentContour();
      o := outline;
    }

    /** `OutlineSink::move_to`. */
    method MoveTo(to: Vector2F)
      requires Valid()
      modifies this
      ensures Valid() && State() == Step(transform, old(State()), SinkEvent.MoveTo(to))
    {
      FlushCurrentContour();
      currentContour := currentContour.PushEndpoint(Map(transform, to));
    }

    /** `OutlineSink::line_to`. */
    method LineTo(to: Vector2F)
      requires Valid()
      modifies this
      ensures Valid() && State() == Step(transform, old(State()), SinkEvent.LineTo(to))
    {
      currentContour := currentContour.PushEndpoint(Map(transform, to));
    }

    /** `OutlineSink::quadratic_curve_to`. */
    method QuadraticCurveTo(ctrl: Vector2F, to: Vector2F)
      requires Valid()
      modifies this
      ensures Valid() && State() == Step(transform, old(State()), SinkEvent.QuadraticCurveTo(ctrl, to))
    {
      currentContour := currentContour.PushQuadratic(Map(transform, ctrl), Map(transform, to));
    }

    /** `OutlineSink::cubic_curve_to`. */
    method CubicCurveTo(ctrl: LineSegment2F, to: Vector2F)
      requires Valid()
      modifies this
      ensures Valid() && State() == Step(transform, old(State()), SinkEvent.CubicCurveTo(ctrl, to))
    {
      currentContour := currentContour.PushCubic(Map(transform, ctrl.from), Map(transform, ctrl.to), Map(transform, to));
    }

    /** `OutlineSink::close`. */
    method Close()
      requires Valid()
      modifies this
      ensures Valid() && State() == Step(transform, old(State()), SinkEvent.Close)
    {
      currentContour := currentContour.Close();
    }
  }

  /**
   * `Loader::outline(glyph_id, hinting, sink)`: the font makes its sink calls in
   * order on `sink`, then returns its status.  The calls and the status are the
   * loader's; this method only replays them.
   */
  method LoadOutline(loader: Loader, font: FontHandle, glyphId: u32, hinting: HintingOptions, sink: OutlinePathBuilder)
    returns (status: Result<(), GlyphLoadingError>)
    requires sink.Valid()
    modifies sink
    ensures sink.Valid()
    ensures sink.State() == Feed(sink.transform, old(sink.State()), loader.outline(font, glyphId, hinting).events)
    ensures status == loader.outline(font, glyphId, hinting).status
  {
    var run := loader.outline(font, glyphId, hinting);
    var events := run.events;
    var i := 0;
    while i < |events|
      invariant 0 <= i <= |events|
      invariant sink.Valid()
      invariant sink.State() == Feed(sink.transform, old(sink.State()), events[..i])
    {
      assert events[..i + 1][..i] == events[..i];
      match events[i] {
        case MoveTo(to) => sink.MoveTo(to);
        case LineTo(to) => sink.LineTo(to);
        case QuadraticCurveTo(ctrl, to) => sink.QuadraticCurveTo(ctrl, to);
        case CubicCurveTo(ctrl, to) => sink.CubicCurveTo(ctrl, to);
        case Close => sink.Close();
      }
      i := i + 1;
    }
    assert events[..i] == events;
    status := run.status;
  }

  /** A fresh builder fed by the font and then built yields `Built` of the font's calls. */
  method BuildFromFont(loader: Loader, font: FontHandle, glyphId: u32, hinting: HintingOptions, transform: Transform2F)
    returns (r: Result<Outline, GlyphLoadingError>)
    ensures var run := loader.outline(font, glyphId, hinting);
      if run.status.Failure? then r == Failure(run.status.error) else r == Success(Built(transform, run.events))
  {
    var builder := new OutlinePathBuilder(transform);
    var status := LoadOutline(loader, font, glyphId, hinting, builder);
    if status.Failure? {
      return Failure(status.error);
    }
    var o := builder.Build();
    return Success(o);
  }
}
