/** The ComputedStyle properties by name, so that statements such as
    "Apply changes exactly the properties the style sets" and "this
    snapshot records exactly these properties" can be made about all of
    them at once. */
module Fields {
  import opened Styles
  import opened WorkingStates

  datatype FieldName =
    | IsVisible | Anchor | Size | Flow | Gap | Stretch | Padding | Margin
    | Color | Font | FontSize | LineHeight | WordWrap | TextAlign | OutlineSize
    | TextOffset | BackgroundColor | BorderColor | BorderInset | BorderRadius
    | BorderWidth | StrokeColor | StrokeWidth | StrokeInset | RoundedCorners
    | BackgroundGradient | OutlineColor | TextShadowSize | TextShadowColor
    | IconId | IconInset | IconOffset | IconRounding | IconGrayscale
    | IconContrast | Opacity | ShadowSize | ShadowInset | ShadowOffset
    | IsAntialiased

  /** The two working states hold the same value for property `f`. */
  predicate Same(w1: WorkingState, w2: WorkingState, f: FieldName)
  {
    match f
    case IsVisible => w1.isVisible == w2.isVisible
    case Anchor => w1.anchor == w2.anchor
    case Size => w1.size == w2.size
    case Flow => w1.flow == w2.flow
    case Gap => w1.gap == w2.gap
    case Stretch => w1.stretch == w2.stretch
    case Padding => w1.padding == w2.padding
    case Margin => w1.margin == w2.margin
    case Color => w1.color == w2.color
    case Font => w1.font == w2.font
    case FontSize => w1.fontSize == w2.fontSize
    case LineHeight => w1.lineHeight == w2.lineHeight
    case WordWrap => w1.wordWrap == w2.wordWrap
    case TextAlign => w1.textAlign == w2.textAlign
    case OutlineSize => w1.outlineSize == w2.outlineSize
    case TextOffset => w1.textOffset == w2.textOffset
    case BackgroundColor => w1.backgroundColor == w2.backgroundColor
    case BorderColor => w1.borderColor == w2.borderColor
    case BorderInset => w1.borderInset == w2.borderInset
    case BorderRadius => w1.borderRadius == w2.borderRadius
    case BorderWidth => w1.borderWidth == w2.borderWidth
    case StrokeColor => w1.strokeColor == w2.strokeColor
    case StrokeWidth => w1.strokeWidth == w2.strokeWidth
    case StrokeInset => w1.strokeInset == w2.strokeInset
    case RoundedCorners => w1.roundedCorners == w2.roundedCorners
    case BackgroundGradient => w1.backgroundGradient == w2.backgroundGradient
    case OutlineColor => w1.outlineColor == w2.outlineColor
    case TextShadowSize => w1.textShadowSize == w2.textShadowSize
    case TextShadowColor => w1.textShadowColor == w2.textShadowColor
    case IconId => w1.iconId == w2.iconId
    case IconInset => w1.iconInset == w2.iconInset
    case IconOffset => w1.iconOffset == w2.iconOffset
    case IconRounding => w1.iconRounding == w2.iconRounding
    case IconGrayscale => w1.iconGrayscale == w2.iconGrayscale
    case IconContrast => w1.iconContrast == w2.iconContrast
    case Opacity => w1.opacity == w2.opacity
    case ShadowSize => w1.shadowSize == w2.shadowSize
    case ShadowInset => w1.shadowInset == w2.shadowInset
    case ShadowOffset => w1.shadowOffset == w2.shadowOffset
    case IsAntialiased => w1.isAntialiased == w2.isAntialiased
  }

  /** The style gives property `f` a value. */
  predicate Sets(st: Style, f: FieldName)
  {
    match f
    case IsVisible => st.isVisible.Some?
    case Anchor => st.anchor.Some?
    case Size => st.size.Some?
    case Flow => st.flow.Some?
    case Gap => st.gap.Some?
    case Stretch => st.stretch.Some?
    case Padding => st.padding.Some?
    case Margin => st.margin.Some?
    case Color => st.color.Some?
    case Font => st.font.Some?
    case FontSize => st.fontSize.Some?
    case LineHeight => st.lineHeight.Some?
    case WordWrap => st.wordWrap.Some?
    case TextAlign => st.textAlign.Some?
    case OutlineSize => st.outlineSize.Some?
    case TextOffset => st.textOffset.Some?
    case BackgroundColor => st.backgroundColor.Some?
    case BorderColor => st.borderColor.Some?
    case BorderInset => st.borderInset.Some?
    case BorderRadius => st.borderRadius.Some?
    case BorderWidth => st.borderWidth.Some?
    case StrokeColor => st.strokeColor.Some?
    case StrokeWidth => st.strokeWidth.Some?
    case StrokeInset => st.strokeInset.Some?
    case RoundedCorners => st.roundedCorners.Some?
    case BackgroundGradient => st.backgroundGradient.Some?
    case OutlineColor => st.outlineColor.Some?
    case TextShadowSize => st.textShadowSize.Some?
    case TextShadowColor => st.textShadowColor.Some?
    case IconId => st.iconId.Some?
    case IconInset => st.iconInset.Some?
    case IconOffset => st.iconOffset.Some?
    case IconRounding => st.iconRounding.Some?
    case IconGrayscale => st.iconGrayscale.Some?
    case IconContrast => st.iconContrast.Some?
    case Opacity => st.opacity.Some?
    case ShadowSize => st.shadowSize.Some?
    case ShadowInset => st.shadowInset.Some?
    case ShadowOffset => st.shadowOffset.Some?
    case IsAntialiased => st.isAntialiased.Some?
  }

  /** Property `f` of the working state holds the value the style gives it
      (for a nullable property, the style's value itself). */
  predicate Takes(w: WorkingState, st: Style, f: FieldName)
  {
    match f
    case IsVisible => st.isVisible.Some? && w.isVisible == st.isVisible.value
    case Anchor => st.anchor.Some? && w.anchor == st.anchor.value
    case Size => st.size.Some? && w.size == st.size.value
    case Flow => st.flow.Some? && w.flow == st.flow.value
    case Gap => st.gap.Some? && w.gap == st.gap.value
    case Stretch => st.stretch.Some? && w.stretch == st.stretch.value
    case Padding => st.padding.Some? && w.padding == st.padding.value
    case Margin => st.margin.Some? && w.margin == st.margin.value
    case Color => st.color.Some? && w.color == st.color.value
    case Font => st.font.Some? && w.font == st.font.value
    case FontSize => st.fontSize.Some? && w.fontSize == st.fontSize.value
    case LineHeight => st.lineHeight.Some? && w.lineHeight == st.lineHeight.value
    case WordWrap => st.wordWrap.Some? && w.wordWrap == st.wordWrap.value
    case TextAlign => st.textAlign.Some? && w.textAlign == st.textAlign.value
    case OutlineSize => st.outlineSize.Some? && w.outlineSize == st.outlineSize.value
    case TextOffset => st.textOffset.Some? && w.textOffset == st.textOffset.value
    case BackgroundColor => w.backgroundColor == st.backgroundColor
    case BorderColor => w.borderColor == st.borderColor
    case BorderInset => st.borderInset.Some? && w.borderInset == st.borderInset.value
    case BorderRadius => st.borderRadius.Some? && w.borderRadius == st.borderRadius.value
    case BorderWidth => st.borderWidth.Some? && w.borderWidth == st.borderWidth.value
    case StrokeColor => w.strokeColor == st.strokeColor
    case StrokeWidth => st.strokeWidth.Some? && w.strokeWidth == st.strokeWidth.value
    case StrokeInset => st.strokeInset.Some? && w.strokeInset == st.strokeInset.value
    case RoundedCorners => st.roundedCorners.Some? && w.roundedCorners == st.roundedCorners.value
    case BackgroundGradient => w.backgroundGradient == st.backgroundGradient
    case OutlineColor => w.outlineColor == st.outlineColor
    case TextShadowSize => st.textShadowSize.Some? && w.textShadowSize == st.textShadowSize.value
    case TextShadowColor => w.textShadowColor == st.textShadowColor
    case IconId => w.iconId == st.iconId
    case IconInset => w.iconInset == st.iconInset
    case IconOffset => w.iconOffset == st.iconOffset
    case IconRounding => st.iconRounding.Some? && w.iconRounding == st.iconRounding.value
    case IconGrayscale => st.iconGrayscale.Some? && w.iconGrayscale == st.iconGrayscale.value
    case IconContrast => st.iconContrast.Some? && w.iconContrast == st.iconContrast.value
    case Opacity => st.opacity.Some? && w.opacity == st.opacity.value
    case ShadowSize => st.shadowSize.Some? && w.shadowSize == st.shadowSize.value
    case ShadowInset => st.shadowInset.Some? && w.shadowInset == st.shadowInset.value
    case ShadowOffset => st.shadowOffset.Some? && w.shadowOffset == st.shadowOffset.value
    case IsAntialiased => st.isAntialiased.Some? && w.isAntialiased == st.isAntialiased.value
  }

  /** Every property the style leaves unset keeps its value. */
  lemma MergeKeepsUnset(w: WorkingState, st: Style)
    ensures forall f :: !Sets(st, f) ==> Same(w, Merge(w, st), f)
  {
  }

  /** Every property the style sets takes the style's value. */
  lemma MergeTakesStyleValues(w: WorkingState, st: Style)
    ensures forall f :: Sets(st, f) ==> Takes(Merge(w, st), st, f)
  {
  }

  /** `Apply` changes exactly the properties the style sets: every other
      property keeps its value, every property it sets takes the style's
      value, and so on those the outcome depends on the style alone (no
      value leaks from an earlier state). */
  lemma MergeIsFieldwise(w: WorkingState, st: Style)
    ensures forall f :: !Sets(st, f) ==> Same(w, Merge(w, st), f)
    ensures forall f :: Sets(st, f) ==> Takes(Merge(w, st), st, f)
    ensures forall f, w' :: Sets(st, f) ==> Same(Merge(w, st), Merge(w', st), f)
  {
    MergeKeepsUnset(w, st);
    MergeTakesStyleValues(w, st);
    forall f, w' | Sets(st, f) ensures Same(Merge(w, st), Merge(w', st), f) {
    }
  }

  /** Composition of two `Apply` calls: a property the second style sets
      takes its value; otherwise one the first style sets takes that
      value; every other property keeps its value from before both. */
  lemma MergeTwiceIsFieldwise(w: WorkingState, a: Style, b: Style)
    ensures forall f :: Sets(b, f) ==> Takes(Merge(Merge(w, a), b), b, f)
    ensures forall f :: !Sets(b, f) && Sets(a, f) ==> Takes(Merge(Merge(w, a), b), a, f)
    ensures forall f :: !Sets(b, f) && !Sets(a, f) ==> Same(Merge(Merge(w, a), b), w, f)
  {
    var wa := Merge(w, a);
    var wab := Merge(wa, b);
    MergeKeepsUnset(w, a);
    MergeTakesStyleValues(w, a);
    MergeKeepsUnset(wa, b);
    MergeTakesStyleValues(wa, b);
    forall f | !Sets(b, f) && !Sets(a, f) ensures Same(wab, w, f) {
      SameIsTransitive(w, wa, wab, f);
    }
    forall f | !Sets(b, f) && Sets(a, f) ensures Takes(wab, a, f) {
      SameKeepsTakes(wa, wab, a, f);
    }
  }

  /** Agreement on one property chains across three states. */
  lemma SameIsTransitive(w1: WorkingState, w2: WorkingState, w3: WorkingState, f: FieldName)
    requires Same(w1, w2, f) && Same(w2, w3, f)
    ensures Same(w3, w1, f)
  {
  }

  /** A state that agrees on `f` with one holding the style's value for
      `f` holds it too. */
  lemma SameKeepsTakes(w1: WorkingState, w2: WorkingState, st: Style, f: FieldName)
    requires Same(w1, w2, f) && Takes(w1, st, f)
    ensures Takes(w2, st, f)
  {
  }
}
