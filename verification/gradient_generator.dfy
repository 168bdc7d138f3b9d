/** The background-gradient generator: from a node's computed style and the
    size of its padding box, what it draws on the canvas. The canvas, the
    paint object and the shader objects are represented by the values they
    are built from (`DrawPlan`, `Shader`), so what a call draws is its
    result. The paint is always anti-aliased and filled; every shader has
    its two colours at evenly spaced stops and clamps beyond its ends. */
module Gradients {
  import opened Primitives
  import opened WorkingStates
  import opened Snapshots

  /** The generator's place in the order in which generators draw. */
  const RenderOrder: int := 1

  /** A canvas point. Each coordinate is the integer the source converts to
      a float when it builds the point. */
  datatype Point = Point(x: int32, y: int32)

  const Origin: Point := Point(0, 0)

  /** A canvas rectangle by its four edges. */
  datatype Rect = Rect(left: int32, top: int32, right: int32, bottom: int32)

  /** The two shaders the generator builds. */
  datatype Shader =
    | LinearGradient(start: Point, end: Point, color1: Option<Color>, color2: Option<Color>)
    | RadialGradient(center: Point, radius: int32, color1: Option<Color>, color2: Option<Color>)

  /** What one call draws: nothing, a rectangle, or a rounded rectangle
      whose four corner radii are given top-left, top-right, bottom-right,
      bottom-left. */
  datatype DrawPlan =
    | NoDraw
    | DrawRect(rect: Rect, shader: Shader)
    | DrawRoundRect(rect: Rect, radii: seq<Point>, shader: Shader)

  /** The exception thrown for a gradient type the generator does not
      know; its message is the name of the offending member. */
  datatype GeneratorError = InvalidOperation(message: string)

  const TypeMemberName: string := "Type"

  /** The corners in the order the rounded rectangle takes its radii. */
  const CornerOrder: seq<Corner> := [Corner.TopLeft, Corner.TopRight, Corner.BottomRight, Corner.BottomLeft]

  /** The rectangle the gradient fills: the padding box shrunk by the
      gradient's inset on every side. It stays centred in the padding box,
      and its width and height are the box's less twice the inset, as long
      as the subtractions do not overflow. */
  function FillRect(size: Size, inset: int32): (r: Rect)
    ensures r.left == inset && r.top == inset
    ensures -0x8000_0000 <= size.width - inset < 0x8000_0000 ==>
              r.left + r.right == size.width && r.right - r.left == size.width - 2 * inset
    ensures -0x8000_0000 <= size.height - inset < 0x8000_0000 ==>
              r.top + r.bottom == size.height && r.bottom - r.top == size.height - 2 * inset
  {
    Rect(inset, inset, Sub32(size.width, inset), Sub32(size.height, inset))
  }

  /** The shader for a gradient over a padding box of the given size. A
      gradient type other than the three known ones is an error. Either way
      the two colours are passed on in order. */
  function CreateShader(size: Size, g: GradientColor): (r: Result<Shader, GeneratorError>)
    ensures r.Err? <==> g.kind.Undefined?
    ensures r.Err? ==> r.error == InvalidOperation(TypeMemberName)
    ensures r.Ok? ==> r.value.color1 == g.color1 && r.value.color2 == g.color2
    ensures r.Ok? ==> (r.value.RadialGradient? <==> g.kind == GradientType.Radial)
  {
    match g.kind
    case Horizontal =>
      Ok(LinearGradient(Point(g.inset, g.inset), Point(Sub32(size.width, g.inset), g.inset), g.color1, g.color2))
    case Vertical =>
      Ok(LinearGradient(Point(g.inset, g.inset), Point(g.inset, Sub32(size.height, g.inset)), g.color1, g.color2))
    case Radial =>
      Ok(RadialGradient(
        Point(HalfTowardZero(size.width), HalfTowardZero(size.height)),
        HalfTowardZero(Sub32(size.width, g.inset)),
        g.color1, g.color2))
    case Undefined(_) =>
      Err(InvalidOperation(TypeMemberName))
  }

  /** The four corner radii: the border radius, in both directions, at each
      corner the style rounds, and zero at the others. */
  function CornerRadii(radius: int32, corners: RoundedCorners): (radii: seq<Point>)
    ensures |radii| == |CornerOrder|
    ensures forall i :: 0 <= i < |radii| ==>
              radii[i] == if CornerOrder[i] in corners then Point(radius, radius) else Origin
  {
    [ if Corner.TopLeft in corners then Point(radius, radius) else Origin,
      if Corner.TopRight in corners then Point(radius, radius) else Origin,
      if Corner.BottomRight in corners then Point(radius, radius) else Origin,
      if Corner.BottomLeft in corners then Point(radius, radius) else Origin ]
  }

  /** What the generator draws for a node with the given computed style and
      padding-box size. The shader is built before the border radius is
      looked at, so an unknown gradient type fails whatever the radius. */
  function Generate(style: WorkingState, paddingSize: Size): (r: Result<DrawPlan, GeneratorError>)
    ensures r == Ok(NoDraw) <==> style.backgroundGradient.None? || style.backgroundGradient.value.isEmpty
    ensures r.Err? <==>
              && style.backgroundGradient.Some?
              && !style.backgroundGradient.value.isEmpty
              && style.backgroundGradient.value.kind.Undefined?
    ensures r.Err? ==> r.error == InvalidOperation(TypeMemberName)
    ensures r.Ok? && r.value.DrawRect? <==>
              && style.backgroundGradient.Some?
              && !style.backgroundGradient.value.isEmpty
              && !style.backgroundGradient.value.kind.Undefined?
              && style.borderRadius == 0
    ensures r.Ok? && !r.value.NoDraw? ==>
              && r.value.rect == FillRect(paddingSize, style.backgroundGradient.value.inset)
              && CreateShader(paddingSize, style.backgroundGradient.value) == Ok(r.value.shader)
    ensures r.Ok? && r.value.DrawRoundRect? ==>
              r.value.radii == CornerRadii(style.borderRadius, style.roundedCorners)
  {
    if style.backgroundGradient.None? || style.backgroundGradient.value.isEmpty then
      Ok(NoDraw)
    else
      var g := style.backgroundGradient.value;
      var rect := FillRect(paddingSize, g.inset);
      match CreateShader(paddingSize, g)
      case Err(e) => Err(e)
      case Ok(shader) =>
        if style.borderRadius == 0 then
          Ok(DrawRect(rect, shader))
        else
          Ok(DrawRoundRect(rect, CornerRadii(style.borderRadius, style.roundedCorners), shader))
  }

  // ---------------------------------------------------------------------
  // How the shader sits on the rectangle it fills.

  /** A horizontal gradient runs along the top edge of the fill rectangle,
      from its top-left to its top-right corner; a vertical one runs down
      its left edge, from its top-left to its bottom-left corner. */
  lemma LinearShaderSpansFillRect(size: Size, g: GradientColor)
    requires g.kind == GradientType.Horizontal || g.kind == GradientType.Vertical
    ensures CreateShader(size, g).Ok? && CreateShader(size, g).value.LinearGradient?
    ensures var s := CreateShader(size, g).value; var r := FillRect(size, g.inset);
      && s.start == Point(r.left, r.top)
      && (g.kind == GradientType.Horizontal ==> s.end == Point(r.right, r.top))
      && (g.kind == GradientType.Vertical ==> s.end == Point(r.left, r.bottom))
  {
  }

  /** A radial gradient is centred on the padding box, which is also the
      centre of the fill rectangle (up to the truncating halving), whatever
      the inset. Its radius is half of the width less one inset, so it
      reaches half an inset beyond the fill rectangle's side. */
  lemma RadialShaderIsCentred(size: Size, g: GradientColor)
    requires g.kind == GradientType.Radial
    requires 0 <= size.width && 0 <= size.height
    requires 0 <= g.inset <= size.width && g.inset <= size.height
    ensures CreateShader(size, g).Ok? && CreateShader(size, g).value.RadialGradient?
    ensures var s := CreateShader(size, g).value; var r := FillRect(size, g.inset);
      && 0 <= (r.left + r.right) - 2 * s.center.x <= 1
      && 0 <= (r.top + r.bottom) - 2 * s.center.y <= 1
      && 0 <= (size.width - g.inset) - 2 * s.radius <= 1
      && 2 * s.radius - (r.right - r.left) - g.inset <= 0 <= 2 * s.radius - (r.right - r.left) - g.inset + 1
  {
  }

  // ---------------------------------------------------------------------
  // Corner radii.

  /** Rounding every corner gives four equal radii; rounding none gives four
      zero radii, a rounded rectangle that draws as a plain one. */
  lemma CornerRadiiOfAllAndNone(radius: int32)
    ensures CornerRadii(radius, AllCorners) == [Point(radius, radius), Point(radius, radius), Point(radius, radius), Point(radius, radius)]
    ensures CornerRadii(radius, {}) == [Origin, Origin, Origin, Origin]
  {
  }

  /** The radii tell the rounded corners apart: two corner sets with a
      non-zero radius give the same radii only if they are the same set. */
  lemma {:induction false} CornerRadiiAreFaithful(radius: int32, c1: RoundedCorners, c2: RoundedCorners)
    requires radius != 0
    requires CornerRadii(radius, c1) == CornerRadii(radius, c2)
    ensures c1 == c2
  {
    forall c: Corner
      ensures c in c1 <==> c in c2
    {
      var i := CornerIndex(c);
      assert CornerRadii(radius, c1)[i] == CornerRadii(radius, c2)[i];
    }
  }

  /** Where a corner's radius sits in the list of four. */
  function CornerIndex(c: Corner): (i: nat)
    ensures i < |CornerOrder| && CornerOrder[i] == c
  {
    match c
    case TopLeft => 0
    case TopRight => 1
    case BottomRight => 2
    case BottomLeft => 3
  }

  // ---------------------------------------------------------------------
  // What the generator reads.

  /** The generator reads the background gradient, the border radius and
      the rounded corners of the style and nothing else. */
  lemma GenerateReadsThreeProperties(w1: WorkingState, w2: WorkingState, size: Size)
    requires w1.backgroundGradient == w2.backgroundGradient
    requires w1.borderRadius == w2.borderRadius
    requires w1.roundedCorners == w2.roundedCorners
    ensures Generate(w1, size) == Generate(w2, size)
  {
  }

  /** Changing which corners are rounded changes what is drawn for a node
      with a rounded background gradient, yet `Commit` reports no change:
      the corners are not part of either snapshot, so a node repainted only
      on a reported paint change keeps the old corners. */
  lemma {:induction false} RoundedCornersChangeIsNotReported(w: WorkingState, size: Size, corners: RoundedCorners)
    requires w.backgroundGradient.Some? && !w.backgroundGradient.value.isEmpty
    requires !w.backgroundGradient.value.kind.Undefined?
    requires w.borderRadius != 0
    requires corners != w.roundedCorners
    ensures ChangeMask(LayoutSnapshot(w), PaintSnapshot(w), w.(roundedCorners := corners)) == 0
    ensures Generate(w.(roundedCorners := corners), size) != Generate(w, size)
  {
    var w' := w.(roundedCorners := corners);
    CommitAfterUnsnapshottedChange(w, w');
    if Generate(w', size) == Generate(w, size) {
      CornerRadiiAreFaithful(w.borderRadius, corners, w.roundedCorners);
    }
  }

  /** Switching a background gradient to another known type changes what
      is drawn, yet `Commit` reports no change: the type is not part of the
      paint snapshot. The one exception is a switch between horizontal and
      vertical on a fill rectangle whose right and bottom edges both lie at
      the inset, where the two shaders coincide (see
      `LinearKindsCoincideOnDegenerateRect`). */
  lemma {:induction false} GradientKindChangeIsNotReported(w: WorkingState, size: Size, g: GradientColor, k: GradientType)
    requires !g.isEmpty
    requires !g.kind.Undefined? && !k.Undefined?
    requires g.kind != k
    requires g.kind.Radial? || k.Radial? || !LinearEndsMeet(size, g.inset)
    ensures var before := w.(backgroundGradient := Some(g));
      ChangeMask(LayoutSnapshot(before), PaintSnapshot(before), before.(backgroundGradient := Some(g.(kind := k)))) == 0
    ensures Generate(w.(backgroundGradient := Some(g.(kind := k))), size) != Generate(w.(backgroundGradient := Some(g)), size)
  {
    var before := w.(backgroundGradient := Some(g));
    var after := before.(backgroundGradient := Some(g.(kind := k)));
    GradientTypeIsInvisible(w, g, k);
    assert LayoutSnapshot(after) == LayoutSnapshot(before);
  }

  /** The horizontal gradient's end point, the fill rectangle's top-right
      corner, equals the vertical one's, its bottom-left corner: both
      subtractions leave exactly the inset. */
  predicate LinearEndsMeet(size: Size, inset: int32)
  {
    Sub32(size.width, inset) == inset && Sub32(size.height, inset) == inset
  }

  /** On such a fill rectangle a horizontal and a vertical gradient draw
      the same, so the exception above is exact. */
  lemma LinearKindsCoincideOnDegenerateRect(w: WorkingState, size: Size, g: GradientColor)
    requires LinearEndsMeet(size, g.inset)
    ensures Generate(w.(backgroundGradient := Some(g.(kind := GradientType.Horizontal))), size)
         == Generate(w.(backgroundGradient := Some(g.(kind := GradientType.Vertical))), size)
  {
  }
}
