/** The fully defaulted working state of a ComputedStyle, the defaults
    `Reset` installs, and the field-wise merge `Apply` performs. */
module WorkingStates {
  import opened Primitives
  import opened Styles

  /** One value per ComputedStyle property, in the order `Apply` assigns
      them. Nullable properties stay optional. */
  datatype WorkingState = WorkingState(
    isVisible: bool,
    anchor: AnchorPoint,
    size: Size,
    flow: Flow,
    gap: int32,
    stretch: bool,
    padding: EdgeSize,
    margin: EdgeSize,
    color: Color,
    font: uint32,
    fontSize: int32,
    lineHeight: Float32,
    wordWrap: bool,
    textAlign: AnchorPoint,
    outlineSize: Float32,
    textOffset: Vector2,
    backgroundColor: Option<Color>,
    borderColor: Option<BorderColor>,
    borderInset: Float32,
    borderRadius: int32,
    borderWidth: EdgeSize,
    strokeColor: Option<Color>,
    strokeWidth: int32,
    strokeInset: Float32,
    roundedCorners: RoundedCorners,
    backgroundGradient: Option<GradientColor>,
    outlineColor: Option<Color>,
    textShadowSize: Float32,
    textShadowColor: Option<Color>,
    iconId: Option<uint32>,
    iconInset: Option<EdgeSize>,
    iconOffset: Option<Vector2>,
    iconRounding: Float32,
    iconGrayscale: bool,
    iconContrast: Float32,
    opacity: Float32,
    shadowSize: EdgeSize,
    shadowInset: int32,
    shadowOffset: Vector2,
    isAntialiased: bool)

  /** The state `Reset` leaves behind. */
  const Defaults: WorkingState := WorkingState(
    isVisible := true,
    anchor := AnchorPoint.TopLeft,
    size := EmptySize,
    flow := Flow.Horizontal,
    gap := 0,
    stretch := false,
    padding := NoEdges,
    margin := NoEdges,
    color := Color(0xFFC0_C0C0),
    font := 0,
    fontSize := 12,
    lineHeight := FloatOnePointTwo,
    wordWrap := false,
    textAlign := AnchorPoint.TopLeft,
    outlineSize := FloatZero,
    textOffset := Vector2Zero,
    backgroundColor := None,
    borderColor := None,
    borderInset := FloatZero,
    borderRadius := 0,
    borderWidth := NoEdges,
    strokeColor := None,
    strokeWidth := 0,
    strokeInset := FloatZero,
    roundedCorners := AllCorners,
    backgroundGradient := None,
    outlineColor := None,
    textShadowSize := FloatZero,
    textShadowColor := None,
    iconId := None,
    iconInset := None,
    iconOffset := None,
    iconRounding := FloatZero,
    iconGrayscale := false,
    iconContrast := FloatZero,
    opacity := FloatOne,
    shadowSize := NoEdges,
    shadowInset := 0,
    shadowOffset := Vector2Zero,
    isAntialiased := true)

  /** `Apply`: every property the style sets overwrites the working value,
      every property it leaves unset keeps it (`style.X ?? X`). */
  function Merge(w: WorkingState, st: Style): WorkingState
  {
    WorkingState(
      isVisible := if st.isVisible.Some? then st.isVisible.value else w.isVisible,
      anchor := if st.anchor.Some? then st.anchor.value else w.anchor,
      size := if st.size.Some? then st.size.value else w.size,
      flow := if st.flow.Some? then st.flow.value else w.flow,
      gap := if st.gap.Some? then st.gap.value else w.gap,
      stretch := if st.stretch.Some? then st.stretch.value else w.stretch,
      padding := if st.padding.Some? then st.padding.value else w.padding,
      margin := if st.margin.Some? then st.margin.value else w.margin,
      color := if st.color.Some? then st.color.value else w.color,
      font := if st.font.Some? then st.font.value else w.font,
      fontSize := if st.fontSize.Some? then st.fontSize.value else w.fontSize,
      lineHeight := if st.lineHeight.Some? then st.lineHeight.value else w.lineHeight,
      wordWrap := if st.wordWrap.Some? then st.wordWrap.value else w.wordWrap,
      textAlign := if st.textAlign.Some? then st.textAlign.value else w.textAlign,
      outlineSize := if st.outlineSize.Some? then st.outlineSize.value else w.outlineSize,
      textOffset := if st.textOffset.Some? then st.textOffset.value else w.textOffset,
      backgroundColor := if st.backgroundColor.Some? then st.backgroundColor else w.backgroundColor,
      borderColor := if st.borderColor.Some? then st.borderColor else w.borderColor,
      borderInset := if st.borderInset.Some? then st.borderInset.value else w.borderInset,
      borderRadius := if st.borderRadius.Some? then st.borderRadius.value else w.borderRadius,
      borderWidth := if st.borderWidth.Some? then st.borderWidth.value else w.borderWidth,
      strokeColor := if st.strokeColor.Some? then st.strokeColor else w.strokeColor,
      strokeWidth := if st.strokeWidth.Some? then st.strokeWidth.value else w.strokeWidth,
      strokeInset := if st.strokeInset.Some? then st.strokeInset.value else w.strokeInset,
      roundedCorners := if st.roundedCorners.Some? then st.roundedCorners.value else w.roundedCorners,
      backgroundGradient := if st.backgroundGradient.Some? then st.backgroundGradient else w.backgroundGradient,
      outlineColor := if st.outlineColor.Some? then st.outlineColor else w.outlineColor,
      textShadowSize := if st.textShadowSize.Some? then st.textShadowSize.value else w.textShadowSize,
      textShadowColor := if st.textShadowColor.Some? then st.textShadowColor else w.textShadowColor,
      iconId := if st.iconId.Some? then st.iconId else w.iconId,
      iconInset := if st.iconInset.Some? then st.iconInset else w.iconInset,
      iconOffset := if st.iconOffset.Some? then st.iconOffset else w.iconOffset,
      iconRounding := if st.iconRounding.Some? then st.iconRounding.value else w.iconRounding,
      iconGrayscale := if st.iconGrayscale.Some? then st.iconGrayscale.value else w.iconGrayscale,
      iconContrast := if st.iconContrast.Some? then st.iconContrast.value else w.iconContrast,
      opacity := if st.opacity.Some? then st.opacity.value else w.opacity,
      shadowSize := if st.shadowSize.Some? then st.shadowSize.value else w.shadowSize,
      shadowInset := if st.shadowInset.Some? then st.shadowInset.value else w.shadowInset,
      shadowOffset := if st.shadowOffset.Some? then st.shadowOffset.value else w.shadowOffset,
      isAntialiased := if st.isAntialiased.Some? then st.isAntialiased.value else w.isAntialiased)
  }

  /** Applying a style that sets nothing changes nothing. */
  lemma MergeUnsetIsIdentity(w: WorkingState)
    ensures Merge(w, Unset) == w
  {
  }

  /** Applying the same style twice is the same as applying it once. */
  lemma MergeIsIdempotent(w: WorkingState, st: Style)
    ensures Merge(Merge(w, st), st) == Merge(w, st)
  {
    var once := Merge(w, st);
    var twice := Merge(once, st);
    assert twice == once;
  }

  /** A nullable property, once set, cannot be cleared by `Apply`: an unset
      property in the style keeps the current value, so only `Reset` brings
      back null. */
  lemma MergeNeverClearsNullable(w: WorkingState, st: Style)
    ensures w.backgroundColor.Some? ==> Merge(w, st).backgroundColor.Some?
    ensures w.borderColor.Some? ==> Merge(w, st).borderColor.Some?
    ensures w.strokeColor.Some? ==> Merge(w, st).strokeColor.Some?
    ensures w.backgroundGradient.Some? ==> Merge(w, st).backgroundGradient.Some?
    ensures w.outlineColor.Some? ==> Merge(w, st).outlineColor.Some?
    ensures w.textShadowColor.Some? ==> Merge(w, st).textShadowColor.Some?
    ensures w.iconId.Some? ==> Merge(w, st).iconId.Some?
    ensures w.iconInset.Some? ==> Merge(w, st).iconInset.Some?
    ensures w.iconOffset.Some? ==> Merge(w, st).iconOffset.Some?
  {
  }
}
