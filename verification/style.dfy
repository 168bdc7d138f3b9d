/** A style declaration: every property is optional, and an absent one
    never overrides a value that is already resolved. Style.cs is not part
    of this model; its properties are read off the way ComputedStyle.Apply
    uses them (a nullable property of the computed style stays nullable
    here, and `Anchor` is represented by its anchor point). */
module Styles {
  import opened Primitives

  datatype Style = Style(
    isVisible: Option<bool>,
    anchor: Option<AnchorPoint>,
    size: Option<Size>,
    flow: Option<Flow>,
    gap: Option<int32>,
    stretch: Option<bool>,
    padding: Option<EdgeSize>,
    margin: Option<EdgeSize>,
    color: Option<Color>,
    font: Option<uint32>,
    fontSize: Option<int32>,
    lineHeight: Option<Float32>,
    wordWrap: Option<bool>,
    textAlign: Option<AnchorPoint>,
    outlineSize: Option<Float32>,
    textOffset: Option<Vector2>,
    backgroundColor: Option<Color>,
    borderColor: Option<BorderColor>,
    borderInset: Option<Float32>,
    borderRadius: Option<int32>,
    borderWidth: Option<EdgeSize>,
    strokeColor: Option<Color>,
    strokeWidth: Option<int32>,
    strokeInset: Option<Float32>,
    roundedCorners: Option<RoundedCorners>,
    backgroundGradient: Option<GradientColor>,
    outlineColor: Option<Color>,
    textShadowSize: Option<Float32>,
    textShadowColor: Option<Color>,
    iconId: Option<uint32>,
    iconInset: Option<EdgeSize>,
    iconOffset: Option<Vector2>,
    iconRounding: Option<Float32>,
    iconGrayscale: Option<bool>,
    iconContrast: Option<Float32>,
    opacity: Option<Float32>,
    shadowSize: Option<EdgeSize>,
    shadowInset: Option<int32>,
    shadowOffset: Option<Vector2>,
    isAntialiased: Option<bool>)

  /** A style that sets nothing. */
  const Unset: Style := Style(
    None, None, None, None, None, None, None, None, None, None,
    None, None, None, None, None, None, None, None, None, None,
    None, None, None, None, None, None, None, None, None, None,
    None, None, None, None, None, None, None, None, None, None)
}
