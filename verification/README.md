# Una.Drawing computed style and gradient generator, in Dafny

Una.Drawing is a declarative drawing library: every node carries a
`ComputedStyle`, the fully resolved value of each of its forty style
properties. Style declarations are merged into it with `Apply`, the
defaults are restored with `Reset`, and `Commit` takes two snapshots:

- a `LayoutStyle`, with everything that affects geometry;
- a `PaintStyle`, with everything that affects only pixels.

`Commit` compares each snapshot byte for byte with the one committed
before and stores it if it differs. It then raises the matching change
notification and returns a mask: 1 for layout, 2 for paint, 3 for both.
The `GradientGenerator` draws a node's background gradient over its
padding box. The rectangle may be plain or rounded, and the shader is
linear or radial.

The model is split into these files:

- `primitives.dfy` (`Primitives`): the value types.
  - Floats are represented by their 32-bit pattern, because style code only copies and compares them.
  - C# `int` and `uint` are range-restricted integers. Unchecked subtraction wraps around (`Sub32`), and division by two truncates toward zero (`HalfTowardZero`).
  - Colours, sizes and edge offsets are small records.
  - Anchor points, flows and gradient types are enumerations. `RoundedCorners` is the set of its flags.
- `style.dfy` (`Styles`): a style declaration, with every property optional.
- `working_state.dfy` (`WorkingStates`): the forty properties as one record, the defaults `Reset` installs, and `Merge`, the property-by-property `style.X ?? X` that `Apply` performs.
- `fields.dfy` (`Fields`): the properties by name, used to state that `Apply` changes exactly the properties a style sets.
- `snapshots.dfy` (`Snapshots`): covers these parts of `Commit`:
  - the two snapshot structs in their field order, and the zeroed structs a new object starts with;
  - the snapshot builders, the byte-wise comparison and the change mask;
  - which property changes each snapshot can and cannot see.
- `computed_style.dfy` (`ComputedStyles`): the `ComputedStyle` class. It has mutable properties and committed snapshots, plus its constructor, `Apply`, `Reset` and `Commit`.
- `gradient_generator.dfy` (`Gradients`): `Generate` and `CreateShader`, with what is drawn given as a value.
  - A call draws nothing, a rectangle, or a rounded rectangle with four corner radii, each with its shader.
  - An unknown gradient type is an `InvalidOperation` error.
  - The generator's render order is the constant 1.

The main results:

- `Apply` changes exactly the properties the style sets. It is idempotent, and it never clears a nullable property.
- The layout snapshot changes exactly when a layout property changes.
- The paint snapshot changes exactly when something it records changes. It does not record:
  - the gradient's type;
  - a null border colour as distinct from one with four null sides;
  - any of the five properties that reach no snapshot: `Opacity`, `ShadowSize`, `ShadowInset`, `ShadowOffset`, `RoundedCorners`.
- Committing twice reports nothing the second time. The first `Commit` of a new object always reports a paint change.
- Two quirks combine the two files:
  - Changing the rounded corners changes what the gradient generator draws, yet `Commit` reports no change.
  - The same holds for switching a gradient to another known type, except horizontal against vertical when their end points coincide.

## Model

| member | source | states |
|---|---|---|
| Primitives.ToUIntOrNull | Una.Drawing/src/Style/ComputedStyle.cs:271-275 | `color?.ToUInt()` is null exactly when the colour is null, and otherwise the colour's 32-bit value |
| Primitives.Sub32 | Una.Drawing/src/Renderer/Generator/GradientGenerator.cs:27 | unchecked `int` subtraction: congruent to the exact difference modulo 2^32, and equal to it when it fits |
| Primitives.HalfTowardZero | Una.Drawing/src/Renderer/Generator/GradientGenerator.cs:69-70 | `int / 2` truncates toward zero: the remainder is 0 or 1 for non-negative values, 0 or -1 for negative ones |
| WorkingStates.MergeUnsetIsIdentity | Una.Drawing/src/Style/ComputedStyle.cs:151-193 | applying a style that sets nothing changes nothing |
| WorkingStates.MergeIsIdempotent | Una.Drawing/src/Style/ComputedStyle.cs:151-193 | applying the same style twice is the same as applying it once |
| WorkingStates.MergeNeverClearsNullable | Una.Drawing/src/Style/ComputedStyle.cs:151-193 | each of the nine nullable properties, once non-null, stays non-null under `Apply` |
| Fields.MergeKeepsUnset | Una.Drawing/src/Style/ComputedStyle.cs:151-193 | every property the style leaves unset keeps its value |
| Fields.MergeTakesStyleValues | Una.Drawing/src/Style/ComputedStyle.cs:151-193 | every property the style sets takes the style's value (for a nullable property, the style's value itself) |
| Fields.MergeIsFieldwise | Una.Drawing/src/Style/ComputedStyle.cs:151-193 | every property the style does not set keeps its value; every property it sets takes the style's value, so it does not depend on the state before |
| Fields.MergeTwiceIsFieldwise | Una.Drawing/src/Style/ComputedStyle.cs:151-193 | after two `Apply` calls each property holds the later style's value, else the earlier style's, else its value from before both |
| Snapshots.ChangeMask | Una.Drawing/src/Style/ComputedStyle.cs:304-318 | the result is in 0..3; bit 1 is set exactly when the layout snapshot differs from the committed one, bit 2 exactly when the paint snapshot does |
| Snapshots.PartitionIsExhaustive | Una.Drawing/src/Style/ComputedStyle.cs:32-149 | the layout, paint and unsnapshotted groups together cover every property |
| Snapshots.LayoutSnapshotIsExact | Una.Drawing/src/Style/ComputedStyle.cs:244-264 | two working states give the same layout snapshot if and only if they agree on all twelve layout properties |
| Snapshots.PaintSnapshotIsExact | Una.Drawing/src/Style/ComputedStyle.cs:266-302 | two working states give the same paint snapshot if and only if they agree on what it records: the whole plain paint properties, the four border-side colours, and the gradient's two colours and inset |
| Snapshots.PaintSnapshotDependsOnPaintOnly | Una.Drawing/src/Style/ComputedStyle.cs:266-302 | agreeing on every paint property, border colour and gradient whole, gives the same paint snapshot |
| Snapshots.UnsnapshottedPropertiesAreInvisible | Una.Drawing/src/Style/ComputedStyle.cs:244-302 | states that differ only in opacity, shadow size, shadow inset, shadow offset or rounded corners give the same two snapshots |
| Snapshots.GradientTypeIsInvisible | Una.Drawing/src/Style/ComputedStyle.cs:285-287 | changing only the gradient's type leaves the paint snapshot unchanged |
| Snapshots.NullBorderColorIsIndistinguishable | Una.Drawing/src/Style/ComputedStyle.cs:272-275 | a null border colour and one whose four sides are null give the same paint snapshot |
| Snapshots.CommitIsQuietOnceCommitted | Una.Drawing/src/Style/ComputedStyle.cs:304-318 | with nothing changed since the last commit, the mask is 0 |
| Snapshots.FirstCommitReportsChange | Una.Drawing/src/Style/ComputedStyle.cs:239-302 | against the zeroed snapshots a new object starts with, the paint bit is always set (icon rounding, grayscale and contrast are always present), and the mask is 3 whenever the node is visible |
| Snapshots.FirstCommitAfterResetReportsBoth | Una.Drawing/src/Style/ComputedStyle.cs:27-30 | the first commit after construction returns 3 |
| Snapshots.CommitAfterLayoutOnlyChange | Una.Drawing/src/Style/ComputedStyle.cs:242-319 | a change confined to layout properties gives mask 1, or 0 when no layout property changed |
| Snapshots.CommitAfterPaintOnlyChange | Una.Drawing/src/Style/ComputedStyle.cs:242-319 | a change confined to paint properties gives mask 2, or 0 when nothing the paint snapshot records changed |
| Snapshots.CommitAfterUnsnapshottedChange | Una.Drawing/src/Style/ComputedStyle.cs:242-319 | a change confined to the five unsnapshotted properties gives mask 0 |
| Snapshots.ApplyGapThenCommit | Una.Drawing/src/Style/ComputedStyle.cs:242-319 | after a commit, applying a style that sets only a new gap gives mask 1 |
| Snapshots.ApplyBackgroundColorThenCommit | Una.Drawing/src/Style/ComputedStyle.cs:242-319 | after a commit, applying a style that sets only a new background colour gives mask 2 |
| Snapshots.ApplyOpacityThenCommit | Una.Drawing/src/Style/ComputedStyle.cs:242-319 | after a commit, applying a style that sets only the opacity gives mask 0 |
| ComputedStyles.ComputedStyle.constructor | Una.Drawing/src/Style/ComputedStyle.cs:27-30 | a new object holds the defaults, and its committed snapshots are the zeroed structs |
| ComputedStyles.ComputedStyle.Apply | Una.Drawing/src/Style/ComputedStyle.cs:151-193 | the properties become the merge of the old properties with the style; nothing else changes |
| ComputedStyles.ComputedStyle.Reset | Una.Drawing/src/Style/ComputedStyle.cs:195-237 | the properties become the defaults; nothing else changes |
| ComputedStyles.ComputedStyle.Commit | Una.Drawing/src/Style/ComputedStyle.cs:242-319 | returns the change mask of the old committed snapshots against the current properties; afterwards both committed snapshots are those of the current properties, and the properties are unchanged |
| Gradients.FillRect | Una.Drawing/src/Renderer/Generator/GradientGenerator.cs:27 | the fill rectangle starts at the inset; without overflow it is centred in the padding box and is twice the inset narrower and shorter |
| Gradients.CreateShader | Una.Drawing/src/Renderer/Generator/GradientGenerator.cs:51-77 | fails with `InvalidOperation("Type")` exactly for an unknown gradient type; otherwise passes both colours on in order and is radial exactly for a radial gradient |
| Gradients.CornerRadii | Una.Drawing/src/Renderer/Generator/GradientGenerator.cs:40-47 | four radii in top-left, top-right, bottom-right, bottom-left order, each the border radius if that corner is rounded and zero otherwise |
| Gradients.Generate | Una.Drawing/src/Renderer/Generator/GradientGenerator.cs:17-49 | draws nothing exactly when the gradient is null or empty; fails exactly for a non-empty gradient of unknown type, whatever the radius; draws a plain rectangle exactly when the gradient is drawable and the radius is 0; what it draws fills the inset rectangle with the shader `CreateShader` builds, with the corner radii of the rounded corners |
| Gradients.LinearShaderSpansFillRect | Una.Drawing/src/Renderer/Generator/GradientGenerator.cs:54-67 | a horizontal gradient runs from the fill rectangle's top-left to its top-right corner, a vertical one from its top-left to its bottom-left corner |
| Gradients.RadialShaderIsCentred | Una.Drawing/src/Renderer/Generator/GradientGenerator.cs:68-74 | a radial gradient is centred on the fill rectangle, up to truncation; its radius is half the width less one inset, so it reaches half an inset beyond the rectangle's side |
| Gradients.CornerRadiiOfAllAndNone | Una.Drawing/src/Renderer/Generator/GradientGenerator.cs:40-47 | all corners rounded gives four equal radii; none rounded gives four zero radii |
| Gradients.CornerRadiiAreFaithful | Una.Drawing/src/Renderer/Generator/GradientGenerator.cs:40-47 | with a non-zero radius, equal radii imply equal corner sets |
| Gradients.GenerateReadsThreeProperties | Una.Drawing/src/Renderer/Generator/GradientGenerator.cs:17-49 | the result depends only on the background gradient, the border radius and the rounded corners |
| Gradients.RoundedCornersChangeIsNotReported | Una.Drawing/src/Renderer/Generator/GradientGenerator.cs:40-48 | for a drawable gradient with a non-zero radius, changing the rounded corners changes what is drawn, while the commit mask stays 0 |
| Gradients.GradientKindChangeIsNotReported | Una.Drawing/src/Renderer/Generator/GradientGenerator.cs:53-74 | switching a drawable gradient to another known type changes what is drawn, while the commit mask stays 0; the only exception is horizontal against vertical when both end points meet |
| Gradients.LinearKindsCoincideOnDegenerateRect | Una.Drawing/src/Renderer/Generator/GradientGenerator.cs:54-67 | when the box width and height less the inset both equal the inset, a horizontal and a vertical gradient draw the same |

## Left out

- ComputedStyle's forty properties are one record-valued field, `props`, instead of forty separate fields. `Apply` and `Reset` replace the record in one step. No code runs between the individual property assignments, and no property is read by another's assignment, so the end state is the same. The order of the individual assignments is not modelled. With forty separately assigned fields, the proofs of `Apply` and `Reset` do not fit the verifier's resource limit.
- The layout and paint notifications are not modelled as callbacks. Each is represented by its bit in the mask `Commit` returns, and a handler that is not set is not distinguished.
- The byte-wise struct comparison is modelled as equality of values. This assumes padding bytes are zero and an absent nullable value stores nothing, as both are for structs built with `new()`.
- Floating-point values are bit patterns; no float arithmetic is modelled. The generator converts integer coordinates and radii to `float`; points and radii are kept as those integers, so the rounding of integers above 2^24 is not modelled.
- Style.cs, Anchor, Color, GradientColor, Size, EdgeSize, BorderColor and RoundedCorners are not part of this model. Their shapes are taken from how the core uses them, and each is treated as an immutable value.
  - If one of them is a class, `Apply` shares the style's object with the computed style. A later in-place change to that object would then reach the computed style without another `Apply`. This aliasing is not modelled.
  - An anchor is represented by its anchor point. `AnchorPoint.None` and `Flow.Horizontal` are taken to be the zero members.
  - `GradientColor.IsEmpty` is taken as a given flag.
  - `Color.ToUInt` is a colour's 32-bit value.
- Color.ToSkColor, SKShader, SKPaint, SKRoundRect and SKCanvas (SkiaSharp) are not part of this model. What the generator would pass to them is its result.
- The disposal of the paint object is not modelled.
- Node and its bounds are not part of this model. The padding-box size is a parameter of `Generate`.
- DrawingLib, IFont and the example plugin are context only, and not modelled.
- RadialShaderIsCentred: stated only for a non-negative padding box and an inset no larger than it, where no subtraction overflows.
- GradientKindChangeIsNotReported: a switch between horizontal and vertical is covered only when the two end points differ, that is unless the width less the inset and the height less the inset (with wrap-around) both equal the inset. In that case the two draw the same, as `LinearKindsCoincideOnDegenerateRect` shows.
