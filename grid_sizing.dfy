/**
  The sizing half of the grid layout policy: the size and placement of the
  collection view, the widths and heights of the two kinds of cell, the
  section header and the spacing constants of the flow layout. A CGFloat is
  modelled as an exact real, so the "the pieces fill the row" identities hold
  exactly.
 */
module GridSizing {
  import opened LayoutInputs
  import opened GridIndex

  /** Spacing at the left and right edge of the section and between cells. */
  function LeftRightInset(): real { 4.0 }

  /** Spacing below the section and between rows. */
  function BottomInset(): real { 4.0 }

  function HeaderHeight(): real { 40.0 }

  /** The side of the square icon of every cell. */
  function ImageSize(): real { 42.0 }

  /** The flow-layout settings the controller installs. */
  datatype EdgeInsets = EdgeInsets(top: real, left: real, bottom: real, right: real)
  datatype FlowLayout = FlowLayout(sectionInset: EdgeInsets, minimumInteritemSpacing: real, minimumLineSpacing: real)

  function ControllerFlowLayout(): (l: FlowLayout)
    ensures l.sectionInset.top == 0.0
    ensures l.sectionInset.left == l.sectionInset.right == l.minimumInteritemSpacing == LeftRightInset()
    ensures l.sectionInset.bottom == l.minimumLineSpacing == BottomInset()
  {
    FlowLayout(EdgeInsets(0.0, LeftRightInset(), BottomInset(), LeftRightInset()), LeftRightInset(), BottomInset())
  }

  /**
    On a phone the collection view covers the view; on any other idiom it is
    a fixed 414 by 736 canvas, turned on its side outside portrait.
   */
  function CollectionViewWidth(idiom: Idiom, o: InterfaceOrientation, view: Size): real {
    if idiom == Phone then view.width
    else if IsPortrait(o) then 414.0 else 736.0
  }

  function CollectionViewHeight(idiom: Idiom, o: InterfaceOrientation, view: Size): real {
    if idiom == Phone then view.height
    else if IsPortrait(o) then 736.0 else 414.0
  }

  lemma CanvasSize(idiom: Idiom, o: InterfaceOrientation, view: Size)
    ensures idiom == Phone ==>
      CollectionViewWidth(idiom, o, view) == view.width && CollectionViewHeight(idiom, o, view) == view.height
    ensures idiom != Phone && IsPortrait(o) ==>
      CollectionViewWidth(idiom, o, view) == 414.0 && CollectionViewHeight(idiom, o, view) == 736.0
    ensures idiom != Phone && !IsPortrait(o) ==>
      CollectionViewWidth(idiom, o, view) == 736.0 && CollectionViewHeight(idiom, o, view) == 414.0
  {
  }

  /**
    Off a phone the canvas does not depend on the view, and rotating between
    portrait and landscape swaps its width and height.
   */
  lemma TabletCanvasRotates(idiom: Idiom, o1: InterfaceOrientation, o2: InterfaceOrientation, v1: Size, v2: Size)
    requires idiom != Phone
    ensures IsPortrait(o1) == IsPortrait(o2) ==>
      CollectionViewWidth(idiom, o1, v1) == CollectionViewWidth(idiom, o2, v2) &&
      CollectionViewHeight(idiom, o1, v1) == CollectionViewHeight(idiom, o2, v2)
    ensures IsPortrait(o1) != IsPortrait(o2) ==>
      CollectionViewWidth(idiom, o1, v1) == CollectionViewHeight(idiom, o2, v2) &&
      CollectionViewHeight(idiom, o1, v1) == CollectionViewWidth(idiom, o2, v2)
  {
  }

  /**
    The collection view's frame: the whole view on a phone, otherwise the
    canvas at the top of the view, centred horizontally in it.
   */
  function CollectionViewFrame(idiom: Idiom, o: InterfaceOrientation, view: Size): (r: Rect)
    ensures r.y == 0.0
    ensures r.width == CollectionViewWidth(idiom, o, view) && r.height == CollectionViewHeight(idiom, o, view)
    ensures idiom == Phone ==> r == Rect(0.0, 0.0, view.width, view.height)
    ensures idiom != Phone ==> r.x + r.width / 2.0 == view.width / 2.0
  {
    if idiom == Phone then
      Rect(0.0, 0.0, CollectionViewWidth(idiom, o, view), CollectionViewHeight(idiom, o, view))
    else
      Rect(view.width / 2.0 - CollectionViewWidth(idiom, o, view) / 2.0, 0.0,
           CollectionViewWidth(idiom, o, view), CollectionViewHeight(idiom, o, view))
  }

  /**
    A row of vertical cells with an inset before, between and after them
    fills the collection view exactly; the cells have positive width exactly
    when the view is wider than the insets.
   */
  function VerticalCellWidth(idiom: Idiom, o: InterfaceOrientation, view: Size): (w: real)
    ensures RowCellCount(o) * w + LeftRightInset() * (RowCellCount(o) + 1.0) == CollectionViewWidth(idiom, o, view)
    ensures w > 0.0 <==> CollectionViewWidth(idiom, o, view) > LeftRightInset() * (RowCellCount(o) + 1.0)
  {
    (CollectionViewWidth(idiom, o, view) - LeftRightInset() * (RowCellCount(o) + 1.0)) / RowCellCount(o)
  }

  /**
    In portrait a horizontal cell spans the row between the two edge insets.
    Otherwise two horizontal cells, the width of one vertical cell and four
    insets fill the row.
   */
  function HorizontalCellWidth(idiom: Idiom, o: InterfaceOrientation, view: Size): (w: real)
    ensures IsPortrait(o) ==> w + 2.0 * LeftRightInset() == CollectionViewWidth(idiom, o, view)
    ensures !IsPortrait(o) ==>
      2.0 * w + VerticalCellWidth(idiom, o, view) + 4.0 * LeftRightInset() == CollectionViewWidth(idiom, o, view)
  {
    if IsPortrait(o) then
      CollectionViewWidth(idiom, o, view) - LeftRightInset() * 2.0
    else
      (CollectionViewWidth(idiom, o, view) - VerticalCellWidth(idiom, o, view) - LeftRightInset() * 4.0) / 2.0
  }

  function VerticalCellSize(idiom: Idiom, o: InterfaceOrientation, view: Size): (s: Size)
    ensures s.height == 75.0
    ensures RowCellCount(o) * s.width + LeftRightInset() * (RowCellCount(o) + 1.0) == CollectionViewWidth(idiom, o, view)
  {
    Size(VerticalCellWidth(idiom, o, view), 75.0)
  }

  function HorizontalCellSize(idiom: Idiom, o: InterfaceOrientation, view: Size): (s: Size)
    ensures s.height == 50.0
    ensures IsPortrait(o) ==> s.width + 2.0 * LeftRightInset() == CollectionViewWidth(idiom, o, view)
    ensures !IsPortrait(o) ==>
      2.0 * s.width + VerticalCellWidth(idiom, o, view) + 4.0 * LeftRightInset() == CollectionViewWidth(idiom, o, view)
  {
    Size(HorizontalCellWidth(idiom, o, view), 50.0)
  }

  /**
    The same identities stated against the flow layout that places the cells:
    the section's left and right insets plus the spacing between neighbours.
   */
  lemma RowsFillFlowLayout(idiom: Idiom, o: InterfaceOrientation, view: Size)
    ensures var l, n, cw := ControllerFlowLayout(), RowCellCount(o), CollectionViewWidth(idiom, o, view);
      n * VerticalCellWidth(idiom, o, view) + l.sectionInset.left + l.sectionInset.right
        + (n - 1.0) * l.minimumInteritemSpacing == cw
    ensures var l, cw := ControllerFlowLayout(), CollectionViewWidth(idiom, o, view);
      IsPortrait(o) ==>
        HorizontalCellWidth(idiom, o, view) + l.sectionInset.left + l.sectionInset.right == cw
    ensures var l, cw := ControllerFlowLayout(), CollectionViewWidth(idiom, o, view);
      !IsPortrait(o) ==>
        2.0 * HorizontalCellWidth(idiom, o, view) + VerticalCellWidth(idiom, o, view)
          + l.sectionInset.left + l.sectionInset.right + 2.0 * l.minimumInteritemSpacing == cw
  {
  }

  /**
    In portrait one horizontal cell takes a row by itself: two of them with
    the spacing between do not fit once the view is wider than one inset.
   */
  lemma PortraitHorizontalCellsStack(idiom: Idiom, o: InterfaceOrientation, view: Size)
    requires IsPortrait(o) && CollectionViewWidth(idiom, o, view) > LeftRightInset()
    ensures 2.0 * HorizontalCellWidth(idiom, o, view) + 3.0 * LeftRightInset() > CollectionViewWidth(idiom, o, view)
  {
  }

  /**
    The inset that centres the icon in a vertical cell; the cell's width is
    the icon plus two such insets, and it is non-negative exactly when the
    icon fits.
   */
  function ImageInset(idiom: Idiom, o: InterfaceOrientation, view: Size): (inset: real)
    ensures 2.0 * inset + ImageSize() == VerticalCellWidth(idiom, o, view)
    ensures inset >= 0.0 <==> VerticalCellWidth(idiom, o, view) >= ImageSize()
  {
    (VerticalCellWidth(idiom, o, view) - ImageSize()) / 2.0
  }

  /** Worked values on a tablet, whatever the view's size. */
  lemma TabletWidths(idiom: Idiom, o: InterfaceOrientation, view: Size)
    requires idiom != Phone
    ensures IsPortrait(o) ==>
      VerticalCellWidth(idiom, o, view) == 98.5 && HorizontalCellWidth(idiom, o, view) == 406.0
    ensures !IsPortrait(o) ==>
      VerticalCellWidth(idiom, o, view) == 704.0 / 7.0 && HorizontalCellWidth(idiom, o, view) == 2168.0 / 7.0
  {
  }
}
