/** The per-node computed style: the working value of every style property,
    updated in place by `Apply` and `Reset`, and the two snapshots last
    committed. The layout and paint notifications `Commit` raises are
    represented by the mask it returns: the layout handler fires exactly
    when `LayoutChanged(mask)` and the paint handler exactly when
    `PaintChanged(mask)`. */
module ComputedStyles {
  import opened Styles
  import opened WorkingStates
  import opened Snapshots

  class ComputedStyle {
    /** The forty properties, held as one record (see `WorkingState`). */
    var props: WorkingState

    var committedLayout: LayoutStyle
    var committedPaint: PaintStyle

    /** A new computed style holds the defaults, and its committed
        snapshots are the zero-initialised structs. */
    constructor ()
      ensures props == Defaults
      ensures committedLayout == ZeroLayout && committedPaint == ZeroPaint
    {
      committedLayout := ZeroLayout;
      committedPaint := ZeroPaint;
      new;
      Reset();
    }

    /** Every property the style sets overwrites the working value; every
        property it leaves unset keeps it. The snapshots are untouched. */
    method Apply(style: Style)
      modifies this`props
      ensures props == Merge(old(props), style)
    {
      props := Merge(props, style);
    }

    /** Restores every property to its default. The snapshots are
        untouched. */
    method Reset()
      modifies this`props
      ensures props == Defaults
    {
      props := Defaults;
    }

    /** Builds both snapshots, stores each one that differs from the one
        committed before, and reports which did: 1 for layout, 2 for paint,
        3 for both, 0 for neither. The properties are untouched. */
    method Commit() returns (result: int)
      modifies this`committedLayout, this`committedPaint
      ensures result == ChangeMask(old(committedLayout), old(committedPaint), props)
      ensures committedLayout == LayoutSnapshot(props)
      ensures committedPaint == PaintSnapshot(props)
    {
      var ls := LayoutSnapshot(props);
      var ps := PaintSnapshot(props);

      result := 0;

      if !AreStructsEqual(committedLayout, ls) {
        committedLayout := ls;
        result := 1;
      }

      if !AreStructsEqual(committedPaint, ps) {
        committedPaint := ps;
        result := result + 2;
      }
    }
  }
}
