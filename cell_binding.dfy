/**
  What the controller, as the collection view's data source and flow-layout
  delegate, hands back for each grid position: the cell variant and its reuse
  identifier, whether the cell is blank, the icon inset, the title bound to
  it, the size of each item and the size of the section header.
 */
module CellBinding {
  import opened LayoutInputs
  import opened GridIndex
  import opened GridSizing

  /** The two presentations of a cell: icon over caption, or icon beside it. */
  datatype CellVariant = Vertical | Horizontal

  /** The reuse identifier each variant is registered and dequeued under. */
  function ReuseIdentifier(v: CellVariant): (id: string)
    ensures id == "CellVertical" || id == "CellHorizontal"
    ensures (id == "CellHorizontal") <==> v == Horizontal
  {
    match v
    case Vertical => "CellVertical"
    case Horizontal => "CellHorizontal"
  }

  /** How one dequeued cell is configured. */
  datatype CellConfig = CellConfig(
    identifier: string,
    variant: CellVariant,
    hidden: bool,
    horizontalInsets: real,
    title: string)

  /**
    The configuration of the cell at a grid position. The data list must
    hold the sixteen entries the grid can show.
   */
  function CellForItem(data: seq<string>, row: int, o: InterfaceOrientation, idiom: Idiom, view: Size): (c: CellConfig)
    requires |data| >= 16 && 0 <= row < CellCount(o)
    ensures c.identifier == ReuseIdentifier(c.variant)
    ensures c.variant == Horizontal <==> row == CellCount(o) - 2 || row == CellCount(o) - 1
    ensures c.hidden <==> IsPortrait(o) && (row == 14 || row == 15)
    ensures c.hidden ==> c.variant == Vertical
    ensures 2.0 * c.horizontalInsets + ImageSize() == VerticalCellWidth(idiom, o, view)
    ensures c.title in data[..16]
    ensures c.title == data[GetRow(row, o)]
  {
    var variant := if IsHorizontalCell(row, o) then Horizontal else Vertical;
    CellConfig(
      ReuseIdentifier(variant),
      variant,
      IsHiddenCell(row, o),
      ImageInset(idiom, o, view),
      data[GetRow(row, o)])
  }

  /**
    The size of the item at a grid position: the last two are 50 high and as
    wide as HorizontalCellWidth, the rest 75 high and as wide as
    VerticalCellWidth.
   */
  function ItemSize(row: int, o: InterfaceOrientation, idiom: Idiom, view: Size): (s: Size)
    ensures 0 <= row < CellCount(o) && (row == CellCount(o) - 2 || row == CellCount(o) - 1) ==>
      s.height == 50.0 && s.width == HorizontalCellWidth(idiom, o, view)
    ensures 0 <= row < CellCount(o) - 2 ==>
      s.height == 75.0 && s.width == VerticalCellWidth(idiom, o, view)
  {
    if IsHorizontalCell(row, o) then HorizontalCellSize(idiom, o, view) else VerticalCellSize(idiom, o, view)
  }

  /**
    The section header is 40 high and as wide as the collection view's frame,
    which is exactly the width a row of vertical cells and its insets fill.
   */
  function HeaderSize(idiom: Idiom, o: InterfaceOrientation, view: Size): (s: Size)
    ensures s.height == 40.0
    ensures s.width == CollectionViewWidth(idiom, o, view)
    ensures s.width == RowCellCount(o) * VerticalCellWidth(idiom, o, view) + LeftRightInset() * (RowCellCount(o) + 1.0)
  {
    Size(CollectionViewFrame(idiom, o, view).width, HeaderHeight())
  }

  /**
    The titles of the visible cells from grid position `from` on, in grid
    order: what the grid displays once every position has been configured.
   */
  function DisplayedTitles(data: seq<string>, o: InterfaceOrientation, from: int): seq<string>
    requires |data| >= 16 && 0 <= from <= CellCount(o)
    decreases CellCount(o) - from
  {
    if from == CellCount(o) then []
    else if IsHiddenCell(from, o) then DisplayedTitles(data, o, from + 1)
    else [data[GetRow(from, o)]] + DisplayedTitles(data, o, from + 1)
  }

  /**
    The first data entry not yet displayed before grid position `from`: the
    position itself, except in portrait past the blank slots.
   */
  function NextDataRow(o: InterfaceOrientation, from: int): int {
    if IsPortrait(o) && from >= 16 then from - 2
    else if IsPortrait(o) && from >= 14 then 14
    else from
  }

  lemma {:induction false} DisplayedTitlesFrom(data: seq<string>, o: InterfaceOrientation, from: int)
    requires |data| >= 16 && 0 <= from <= CellCount(o)
    ensures 0 <= NextDataRow(o, from) <= 16
    ensures DisplayedTitles(data, o, from) == data[NextDataRow(o, from)..16]
    decreases CellCount(o) - from
  {
    if from < CellCount(o) {
      DisplayedTitlesFrom(data, o, from + 1);
      var k := NextDataRow(o, from);
      if !IsHiddenCell(from, o) {
        assert GetRow(from, o) == k && 0 <= k < 16 && NextDataRow(o, from + 1) == k + 1;
        assert data[k..16] == [data[k]] + data[k + 1..16];
      }
    }
  }

  /**
    Blank slots consume no data: the visible cells display the first sixteen
    entries of the data list, each once, in order.
   */
  lemma DisplayedTitlesAreFirstSixteen(data: seq<string>, o: InterfaceOrientation)
    requires |data| >= 16
    ensures DisplayedTitles(data, o, 0) == data[..16]
  {
    DisplayedTitlesFrom(data, o, 0);
  }
}
