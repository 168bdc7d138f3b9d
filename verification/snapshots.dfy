/** The two fixed-shape snapshots `Commit` builds from the working state,
    the change mask it returns, and what that mask can and cannot see.

    The source compares snapshots byte for byte. Every snapshot field here
    is a plain value (floats by their bit pattern, a nullable value as
    present-or-absent with nothing stored when absent), so byte equality
    is datatype equality. */
module Snapshots {
  import opened Primitives
  import opened Styles
  import opened WorkingStates

  /** Everything that affects geometry, in the struct's field order. */
  datatype LayoutStyle = LayoutStyle(
    anchor: AnchorPoint,
    isVisible: bool,
    width: int32,
    height: int32,
    flow: Flow,
    gap: int32,
    stretch: bool,
    paddingTop: int32,
    paddingRight: int32,
    paddingBottom: int32,
    paddingLeft: int32,
    marginTop: int32,
    marginRight: int32,
    marginBottom: int32,
    marginLeft: int32,
    wordWrap: bool,
    font: uint32,
    fontSize: int32,
    lineHeight: Float32)

  /** Everything that affects only pixels, in the struct's field order. */
  datatype PaintStyle = PaintStyle(
    textAlign: AnchorPoint,
    outlineSize: Float32,
    textOffset: Vector2,
    color: uint32,
    backgroundColor: Option<uint32>,
    borderTopColor: Option<uint32>,
    borderRightColor: Option<uint32>,
    borderBottomColor: Option<uint32>,
    borderLeftColor: Option<uint32>,
    borderInset: Float32,
    borderRadius: int32,
    borderTopWidth: int32,
    borderRightWidth: int32,
    borderBottomWidth: int32,
    borderLeftWidth: int32,
    strokeColor: Option<uint32>,
    strokeWidth: int32,
    strokeInset: Float32,
    roundedCorners: Option<RoundedCorners>,
    backgroundGradient1: Option<uint32>,
    backgroundGradient2: Option<uint32>,
    backgroundGradientInset: Option<int32>,
    outlineColor: Option<uint32>,
    textShadowSize: Float32,
    textShadowColor: Option<uint32>,
    iconId: Option<uint32>,
    iconInsetTop: Option<int32>,
    iconInsetRight: Option<int32>,
    iconInsetBottom: Option<int32>,
    iconInsetLeft: Option<int32>,
    iconOffsetX: Option<Float32>,
    iconOffsetY: Option<Float32>,
    iconRounding: Option<Float32>,
    iconGrayscale: Option<bool>,
    iconContrast: Option<Float32>,
    isAntialiased: bool)

  /** `default(LayoutStyle)`: the committed layout snapshot of a new object. */
  const ZeroLayout: LayoutStyle := LayoutStyle(
    AnchorPoint.NoPoint, false, 0, 0, Flow.Horizontal, 0, false,
    0, 0, 0, 0, 0, 0, 0, 0, false, 0, 0, FloatZero)

  /** `default(PaintStyle)`: the committed paint snapshot of a new object. */
  const ZeroPaint: PaintStyle := PaintStyle(
    AnchorPoint.NoPoint, FloatZero, Vector2Zero, 0, None, None, None, None, None,
    FloatZero, 0, 0, 0, 0, 0, None, 0, FloatZero, None, None, None, None, None,
    FloatZero, None, None, None, None, None, None, None, None, None, None, None,
    false)

  // C#'s null-conditional member accesses used while building the paint snapshot.

  function TopOf(bc: Option<BorderColor>): Option<Color> { if bc.Some? then bc.value.top else None }
  function RightOf(bc: Option<BorderColor>): Option<Color> { if bc.Some? then bc.value.right else None }
  function BottomOf(bc: Option<BorderColor>): Option<Color> { if bc.Some? then bc.value.bottom else None }
  function LeftOf(bc: Option<BorderColor>): Option<Color> { if bc.Some? then bc.value.left else None }

  function Color1Of(g: Option<GradientColor>): Option<Color> { if g.Some? then g.value.color1 else None }
  function Color2Of(g: Option<GradientColor>): Option<Color> { if g.Some? then g.value.color2 else None }
  function InsetOf(g: Option<GradientColor>): Option<int32> { if g.Some? then Some(g.value.inset) else None }

  function EdgeTopOf(e: Option<EdgeSize>): Option<int32> { if e.Some? then Some(e.value.top) else None }
  function EdgeRightOf(e: Option<EdgeSize>): Option<int32> { if e.Some? then Some(e.value.right) else None }
  function EdgeBottomOf(e: Option<EdgeSize>): Option<int32> { if e.Some? then Some(e.value.bottom) else None }
  function EdgeLeftOf(e: Option<EdgeSize>): Option<int32> { if e.Some? then Some(e.value.left) else None }

  function XOf(v: Option<Vector2>): Option<Float32> { if v.Some? then Some(v.value.x) else None }
  function YOf(v: Option<Vector2>): Option<Float32> { if v.Some? then Some(v.value.y) else None }

  /** The `LayoutStyle` `Commit` builds from the working state. */
  function LayoutSnapshot(w: WorkingState): LayoutStyle
  {
    LayoutStyle(
      anchor := w.anchor,
      isVisible := w.isVisible,
      width := w.size.width,
      height := w.size.height,
      flow := w.flow,
      gap := w.gap,
      stretch := w.stretch,
      paddingTop := w.padding.top,
      paddingRight := w.padding.right,
      paddingBottom := w.padding.bottom,
      paddingLeft := w.padding.left,
      marginTop := w.margin.top,
      marginRight := w.margin.right,
      marginBottom := w.margin.bottom,
      marginLeft := w.margin.left,
      wordWrap := w.wordWrap,
      font := w.font,
      fontSize := w.fontSize,
      lineHeight := w.lineHeight)
  }

  /** The `PaintStyle` `Commit` builds from the working state. Its
      `roundedCorners` field is never assigned, so it stays null. */
  function PaintSnapshot(w: WorkingState): PaintStyle
  {
    PaintStyle(
      textAlign := w.textAlign,
      outlineSize := w.outlineSize,
      textOffset := w.textOffset,
      color := w.color.ToUInt(),
      backgroundColor := ToUIntOrNull(w.backgroundColor),
      borderTopColor := ToUIntOrNull(TopOf(w.borderColor)),
      borderRightColor := ToUIntOrNull(RightOf(w.borderColor)),
      borderBottomColor := ToUIntOrNull(BottomOf(w.borderColor)),
      borderLeftColor := ToUIntOrNull(LeftOf(w.borderColor)),
      borderInset := w.borderInset,
      borderRadius := w.borderRadius,
      borderTopWidth := w.borderWidth.top,
      borderRightWidth := w.borderWidth.right,
      borderBottomWidth := w.borderWidth.bottom,
      borderLeftWidth := w.borderWidth.left,
      strokeColor := ToUIntOrNull(w.strokeColor),
      strokeWidth := w.strokeWidth,
      strokeInset := w.strokeInset,
      roundedCorners := None,
      backgroundGradient1 := ToUIntOrNull(Color1Of(w.backgroundGradient)),
      backgroundGradient2 := ToUIntOrNull(Color2Of(w.backgroundGradient)),
      backgroundGradientInset := InsetOf(w.backgroundGradient),
      outlineColor := ToUIntOrNull(w.outlineColor),
      textShadowSize := w.textShadowSize,
      textShadowColor := ToUIntOrNull(w.textShadowColor),
      iconId := w.iconId,
      iconInsetTop := EdgeTopOf(w.iconInset),
      iconInsetRight := EdgeRightOf(w.iconInset),
      iconInsetBottom := EdgeBottomOf(w.iconInset),
      iconInsetLeft := EdgeLeftOf(w.iconInset),
      iconOffsetX := XOf(w.iconOffset),
      iconOffsetY := YOf(w.iconOffset),
      iconRounding := Some(w.iconRounding),
      iconGrayscale := Some(w.iconGrayscale),
      iconContrast := Some(w.iconContrast),
      isAntialiased := w.isAntialiased)
  }

  /** Byte-wise comparison of two snapshots. */
  function AreStructsEqual<T(==)>(a: T, b: T): bool
  {
    a == b
  }

  /** Bit 1 of a change mask: `OnLayoutPropertyChanged` fires. */
  predicate LayoutChanged(mask: int)
  {
    mask % 2 == 1
  }

  /** Bit 2 of a change mask: `OnPaintPropertyChanged` fires. */
  predicate PaintChanged(mask: int)
  {
    mask / 2 % 2 == 1
  }

  /** What `Commit` returns, given the snapshots committed before the call
      and the working state at the call. */
  function ChangeMask(committedLayout: LayoutStyle, committedPaint: PaintStyle, w: WorkingState): (mask: int)
    ensures 0 <= mask <= 3
    ensures LayoutChanged(mask) <==> !AreStructsEqual(committedLayout, LayoutSnapshot(w))
    ensures PaintChanged(mask) <==> !AreStructsEqual(committedPaint, PaintSnapshot(w))
  {
    (if AreStructsEqual(committedLayout, LayoutSnapshot(w)) then 0 else 1)
    + (if AreStructsEqual(committedPaint, PaintSnapshot(w)) then 0 else 2)
  }

  // ---------------------------------------------------------------------
  // The partition of the working properties between the snapshots.

  /** Agreement on the properties `Commit` copies into `LayoutStyle`. */
  predicate AgreeOnLayout(w1: WorkingState, w2: WorkingState)
  {
    && w1.anchor == w2.anchor
    && w1.isVisible == w2.isVisible
    && w1.size == w2.size
    && w1.flow == w2.flow
    && w1.gap == w2.gap
    && w1.stretch == w2.stretch
    && w1.padding == w2.padding
    && w1.margin == w2.margin
    && w1.wordWrap == w2.wordWrap
    && w1.font == w2.font
    && w1.fontSize == w2.fontSize
    && w1.lineHeight == w2.lineHeight
  }

  /** Agreement on the paint properties `Commit` copies whole. */
  predicate AgreeOnPlainPaint(w1: WorkingState, w2: WorkingState)
  {
    && w1.color == w2.color
    && w1.textAlign == w2.textAlign
    && w1.outlineSize == w2.outlineSize
    && w1.textOffset == w2.textOffset
    && w1.backgroundColor == w2.backgroundColor
    && w1.borderInset == w2.borderInset
    && w1.borderRadius == w2.borderRadius
    && w1.borderWidth == w2.borderWidth
    && w1.strokeColor == w2.strokeColor
    && w1.strokeWidth == w2.strokeWidth
    && w1.strokeInset == w2.strokeInset
    && w1.outlineColor == w2.outlineColor
    && w1.textShadowSize == w2.textShadowSize
    && w1.textShadowColor == w2.textShadowColor
    && w1.iconId == w2.iconId
    && w1.iconInset == w2.iconInset
    && w1.iconOffset == w2.iconOffset
    && w1.iconRounding == w2.iconRounding
    && w1.iconGrayscale == w2.iconGrayscale
    && w1.iconContrast == w2.iconContrast
    && w1.isAntialiased == w2.isAntialiased
  }

  /** Agreement on every property `Commit` copies into `PaintStyle`,
      including the border colour and the background gradient whole. */
  predicate AgreeOnPaint(w1: WorkingState, w2: WorkingState)
  {
    && AgreeOnPlainPaint(w1, w2)
    && w1.borderColor == w2.borderColor
    && w1.backgroundGradient == w2.backgroundGradient
  }

  /** Agreement on what `PaintStyle` actually records: of the border colour
      only its four sides, of the gradient only its two colours and inset. */
  predicate AgreeOnRecordedPaint(w1: WorkingState, w2: WorkingState)
  {
    && AgreeOnPlainPaint(w1, w2)
    && TopOf(w1.borderColor) == TopOf(w2.borderColor)
    && RightOf(w1.borderColor) == RightOf(w2.borderColor)
    && BottomOf(w1.borderColor) == BottomOf(w2.borderColor)
    && LeftOf(w1.borderColor) == LeftOf(w2.borderColor)
    && Color1Of(w1.backgroundGradient) == Color1Of(w2.backgroundGradient)
    && Color2Of(w1.backgroundGradient) == Color2Of(w2.backgroundGradient)
    && InsetOf(w1.backgroundGradient) == InsetOf(w2.backgroundGradient)
  }

  /** Agreement on the properties `Apply` merges but no snapshot records. */
  predicate AgreeOnUnsnapshotted(w1: WorkingState, w2: WorkingState)
  {
    && w1.opacity == w2.opacity
    && w1.shadowSize == w2.shadowSize
    && w1.shadowInset == w2.shadowInset
    && w1.shadowOffset == w2.shadowOffset
    && w1.roundedCorners == w2.roundedCorners
  }

  /** The three groups cover every property. */
  lemma PartitionIsExhaustive(w1: WorkingState, w2: WorkingState)
    requires AgreeOnLayout(w1, w2) && AgreeOnPaint(w1, w2) && AgreeOnUnsnapshotted(w1, w2)
    ensures w1 == w2
  {
  }

  /** The layout snapshot changes exactly when a layout property changes:
      nothing else reaches it, and no layout change is missed. */
  lemma LayoutSnapshotIsExact(w1: WorkingState, w2: WorkingState)
    ensures LayoutSnapshot(w1) == LayoutSnapshot(w2) <==> AgreeOnLayout(w1, w2)
  {
  }

  /** The paint snapshot changes exactly when something it records changes. */
  lemma PaintSnapshotIsExact(w1: WorkingState, w2: WorkingState)
    ensures PaintSnapshot(w1) == PaintSnapshot(w2) <==> AgreeOnRecordedPaint(w1, w2)
  {
  }

  /** Distinct colours give distinct recorded values. */
  lemma ToUIntOrNullIsInjective(a: Option<Color>, b: Option<Color>)
    requires ToUIntOrNull(a) == ToUIntOrNull(b)
    ensures a == b
  {
  }

  /** Every paint property is recorded in the paint snapshot in some form,
      so agreeing on all of them leaves the snapshot unchanged. */
  lemma PaintSnapshotDependsOnPaintOnly(w1: WorkingState, w2: WorkingState)
    requires AgreeOnPaint(w1, w2)
    ensures PaintSnapshot(w1) == PaintSnapshot(w2)
  {
  }

  /** `Opacity`, `ShadowSize`, `ShadowInset`, `ShadowOffset` and
      `RoundedCorners` reach neither snapshot: any change confined to them
      is invisible to `Commit`. */
  lemma UnsnapshottedPropertiesAreInvisible(w1: WorkingState, w2: WorkingState)
    requires AgreeOnLayout(w1, w2) && AgreeOnPaint(w1, w2)
    ensures LayoutSnapshot(w1) == LayoutSnapshot(w2)
    ensures PaintSnapshot(w1) == PaintSnapshot(w2)
  {
    LayoutSnapshotIsExact(w1, w2);
  }

  /** The gradient's type is not recorded: switching a background gradient
      between, say, horizontal and radial leaves the paint snapshot as it
      was. */
  lemma GradientTypeIsInvisible(w: WorkingState, g: GradientColor, k: GradientType)
    ensures PaintSnapshot(w.(backgroundGradient := Some(g)))
         == PaintSnapshot(w.(backgroundGradient := Some(g.(kind := k))))
  {
  }

  /** A null border colour and a border colour with four null sides record
      the same paint snapshot. */
  lemma NullBorderColorIsIndistinguishable(w: WorkingState)
    ensures PaintSnapshot(w.(borderColor := None))
         == PaintSnapshot(w.(borderColor := Some(BorderColor(None, None, None, None))))
  {
  }

  // ---------------------------------------------------------------------
  // The change mask over sequences of calls.

  /** Committing again with nothing changed in between reports nothing. */
  lemma CommitIsQuietOnceCommitted(w: WorkingState)
    ensures ChangeMask(LayoutSnapshot(w), PaintSnapshot(w), w) == 0
  {
  }

  /** The paint snapshot of any working state differs from the zeroed one
      (its icon rounding, grayscale and contrast fields are always present),
      so the first `Commit` of a new object always reports a paint change;
      it reports a layout change too whenever the node is visible. */
  lemma FirstCommitReportsChange(w: WorkingState)
    ensures PaintChanged(ChangeMask(ZeroLayout, ZeroPaint, w))
    ensures w.isVisible ==> ChangeMask(ZeroLayout, ZeroPaint, w) == 3
  {
    assert PaintSnapshot(w).iconRounding != ZeroPaint.iconRounding;
  }

  /** Right after construction the working state is the defaults, and the
      first `Commit` reports both changes. */
  lemma FirstCommitAfterResetReportsBoth()
    ensures ChangeMask(ZeroLayout, ZeroPaint, Defaults) == 3
  {
    FirstCommitReportsChange(Defaults);
  }

  /** A change confined to layout properties gives exactly mask 1 (or 0
      when nothing changed at all). */
  lemma CommitAfterLayoutOnlyChange(w: WorkingState, w': WorkingState)
    requires AgreeOnPaint(w, w')
    ensures ChangeMask(LayoutSnapshot(w), PaintSnapshot(w), w') == if AgreeOnLayout(w, w') then 0 else 1
  {
    LayoutSnapshotIsExact(w, w');
    PaintSnapshotDependsOnPaintOnly(w, w');
  }

  /** A change confined to paint properties gives exactly mask 2, unless
      it is one the paint snapshot does not record, which gives 0. */
  lemma CommitAfterPaintOnlyChange(w: WorkingState, w': WorkingState)
    requires AgreeOnLayout(w, w')
    ensures ChangeMask(LayoutSnapshot(w), PaintSnapshot(w), w') == if AgreeOnRecordedPaint(w, w') then 0 else 2
  {
    LayoutSnapshotIsExact(w, w');
    PaintSnapshotIsExact(w, w');
  }

  /** A change confined to the unsnapshotted properties gives mask 0. */
  lemma CommitAfterUnsnapshottedChange(w: WorkingState, w': WorkingState)
    requires AgreeOnLayout(w, w') && AgreeOnPaint(w, w')
    ensures ChangeMask(LayoutSnapshot(w), PaintSnapshot(w), w') == 0
  {
    UnsnapshottedPropertiesAreInvisible(w, w');
  }

  // ---------------------------------------------------------------------
  // Apply followed by Commit, for one property of each kind.

  /** Applying a new gap after a commit makes the next commit return 1. */
  lemma ApplyGapThenCommit(w: WorkingState, gap: int32)
    requires gap != w.gap
    ensures ChangeMask(LayoutSnapshot(w), PaintSnapshot(w), Merge(w, Unset.(gap := Some(gap)))) == 1
  {
    CommitAfterLayoutOnlyChange(w, Merge(w, Unset.(gap := Some(gap))));
  }

  /** Applying a new background colour after a commit makes the next
      commit return 2. */
  lemma ApplyBackgroundColorThenCommit(w: WorkingState, c: Color)
    requires w.backgroundColor != Some(c)
    ensures ChangeMask(LayoutSnapshot(w), PaintSnapshot(w), Merge(w, Unset.(backgroundColor := Some(c)))) == 2
  {
    CommitAfterPaintOnlyChange(w, Merge(w, Unset.(backgroundColor := Some(c))));
  }

  /** Applying a new opacity after a commit makes the next commit return 0. */
  lemma ApplyOpacityThenCommit(w: WorkingState, opacity: Float32)
    ensures ChangeMask(LayoutSnapshot(w), PaintSnapshot(w), Merge(w, Unset.(opacity := Some(opacity)))) == 0
  {
    CommitAfterUnsnapshottedChange(w, Merge(w, Unset.(opacity := Some(opacity))));
  }
}
