/**
 * Symbolic stand-ins for pathfinder_geometry (vectors, 2-D transforms) and
 * pathfinder_content (contours and outlines).
 *
 * Floating-point arithmetic is not modelled.  A scalar that the text pipeline
 * computes (`font_size / units_per_em`, `1.0 / units_per_em`, a negation) is a
 * term, a transform is a term built from the constructors the pipeline uses,
 * and a point of an outline records the transforms applied to the font's
 * original coordinate.  This makes "which transform touched which point"
 * provable without claiming any numeric identity.
 */
module Geometry {

  /** A 2-D vector as the font source or the caller hands it over. */
  datatype Vector2F = Vector2F(x: real, y: real)

  /** `LineSegment2F`: the pair of control points of a cubic curve event. */
  datatype LineSegment2F = LineSegment2F(from: Vector2F, to: Vector2F)

  /** A scalar computed by the pipeline, kept as an unevaluated term. */
  datatype Scalar =
    | Literal(v: real)                 // an `f32` value given by a caller
    | FromInt(n: int)                  // `n as f32`
    | Quot(num: Scalar, den: Scalar)   // `num / den`
    | Neg(s: Scalar)                   // `-s`

  datatype Matrix2x2F = Matrix2x2F(m11: real, m12: real, m21: real, m22: real)

  /** `Transform2F` as a term. */
  datatype Transform2F =
    | Affine(matrix: Matrix2x2F, vector: Vector2F)   // a concrete transform handed in by a caller
    | FromScale(sx: Scalar, sy: Scalar)              // `Transform2F::from_scale(vec2f(sx, sy))`
    | Translate(base: Transform2F, offset: Vector2F) // `base.translate(offset)`
    | Mul(lhs: Transform2F, rhs: Transform2F)        // `lhs * rhs`

  /** `Transform2F::default()`, the identity matrix with no translation. */
  const Identity: Transform2F := Affine(Matrix2x2F(1.0, 0.0, 0.0, 1.0), Vector2F(0.0, 0.0))

  /** `Transform2F::from_scale(s)` for a scalar `s`, which scales both axes by `s`. */
  function UniformScale(s: Scalar): Transform2F {
    FromScale(s, s)
  }

  /** A point of an outline: a font coordinate and the transforms applied to it, innermost first. */
  datatype Point = Source(v: Vector2F) | Apply(t: Transform2F, p: Point)

  /** `PointFlags`: an on-curve point, or the first or second control point of a curve. */
  datatype PointFlags = OnCurve | ControlPoint0 | ControlPoint1

  /** One entry of a contour: its position and its flags (pathfinder keeps these in two parallel vectors). */
  datatype Vertex = Vertex(position: Point, flags: PointFlags)

  /** `Contour`: its points in order and whether it has been closed; bounds are not modelled. */
  datatype Contour = Contour(vertices: seq<Vertex>, closed: bool)
  {
    /** `Contour::is_empty`: the contour has no points. */
    predicate IsEmpty() {
      |vertices| == 0
    }

    /** `Contour::push_endpoint`. */
    function PushEndpoint(to: Point): Contour
    {
      Contour(vertices + [Vertex(to, OnCurve)], closed)
    }

    /** `Contour::push_quadratic`: the control point, then the end point. */
    function PushQuadratic(ctrl: Point, to: Point): Contour
    {
      Contour(vertices + [Vertex(ctrl, ControlPoint0), Vertex(to, OnCurve)], closed)
    }

    /** `Contour::push_cubic`: both control points, then the end point. */
    function PushCubic(ctrl0: Point, ctrl1: Point, to: Point): Contour
    {
      Contour(vertices + [Vertex(ctrl0, ControlPoint0), Vertex(ctrl1, ControlPoint1), Vertex(to, OnCurve)], closed)
    }

    /** `Contour::close`. */
    function Close(): Contour
    {
      Contour(vertices, true)
    }
  }

  /** `Contour::new()`. */
  const EmptyContour: Contour := Contour([], false)

  /** `Outline`: its contours in order; bounds are not modelled. */
  type Outline = seq<Contour>

  /** Every vertex of an outline, contour after contour. */
  function Vertices(o: Outline): seq<Vertex>
  {
    if o == [] then [] else Vertices(o[..|o| - 1]) + o[|o| - 1].vertices
  }

  lemma VerticesPush(o: Outline, c: Contour)
    ensures Vertices(o + [c]) == Vertices(o) + c.vertices
  {
    assert (o + [c])[..|o|] == o;
  }

  /** No contour of the outline is empty. */
  predicate NoEmptyContour(o: Outline) {
    forall i :: 0 <= i < |o| ==> !o[i].IsEmpty()
  }

  /** `Contour::transform`: every point is mapped through `t`; flags and closedness are kept. */
  function TransformContour(c: Contour, t: Transform2F): (r: Contour)
    ensures |r.vertices| == |c.vertices| && r.closed == c.closed
    ensures forall j :: 0 <= j < |c.vertices| ==>
      r.vertices[j] == Vertex(Apply(t, c.vertices[j].position), c.vertices[j].flags)
  {
    Contour(seq(|c.vertices|, j requires 0 <= j < |c.vertices| =>
      Vertex(Apply(t, c.vertices[j].position), c.vertices[j].flags)), c.closed)
  }

  /** `Outline::transform`: every contour is mapped through `t`, none is added or dropped. */
  function TransformOutline(o: Outline, t: Transform2F): (r: Outline)
    ensures |r| == |o|
    ensures forall i :: 0 <= i < |o| ==> r[i] == TransformContour(o[i], t)
  {
    seq(|o|, i requires 0 <= i < |o| => TransformContour(o[i], t))
  }

  /** `p` is a font coordinate mapped once, by `t` and by nothing else. */
  predicate MappedOnceBy(p: Point, t: Transform2F) {
    p.Apply? && p.t == t && p.p.Source?
  }

  /** Every point of the outline is a font coordinate mapped once by `t`. */
  predicate OnlyMappedBy(o: Outline, t: Transform2F) {
    forall i, j :: 0 <= i < |o| && 0 <= j < |o[i].vertices| ==> MappedOnceBy(o[i].vertices[j].position, t)
  }
}
