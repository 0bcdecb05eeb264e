/**
  The index half of the grid layout policy: how many cells the grid has,
  how many vertical cells fill a row, which cells are the two trailing
  horizontal ones, which are the two blank slots of portrait, and how a grid
  position is mapped to an entry of the data list.
 */
module GridIndex {
  import opened LayoutInputs

  /** Number of grid positions: 18 in portrait, 16 otherwise. */
  function CellCount(o: InterfaceOrientation): int {
    if IsPortrait(o) then 18 else 16
  }

  /** Number of vertical cells per row (a CGFloat in the source). */
  function RowCellCount(o: InterfaceOrientation): real {
    if IsPortrait(o) then 4.0 else 7.0
  }

  /** A cell at or past the second-to-last position is drawn horizontally. */
  function IsHorizontalCell(row: int, o: InterfaceOrientation): (b: bool)
    ensures 0 <= row < CellCount(o) ==> (b <==> row == CellCount(o) - 2 || row == CellCount(o) - 1)
  {
    row >= CellCount(o) - 2
  }

  /** In portrait the two positions just before the horizontal cells are left blank. */
  function IsHiddenCell(row: int, o: InterfaceOrientation): (b: bool)
    ensures b ==> IsPortrait(o) && 0 <= row < CellCount(o) && !IsHorizontalCell(row, o)
    ensures !IsPortrait(o) ==> !b
    ensures IsPortrait(o) ==> (b <==> row == 14 || row == 15)
  {
    IsPortrait(o) && (row == CellCount(o) - 4 || row == CellCount(o) - 3)
  }

  /**
    The data-list index shown at a grid position. In portrait the horizontal
    cells take the two entries the blank slots leave unused; every position
    of the grid, blank or not, maps into the first sixteen entries.
   */
  function GetRow(row: int, o: InterfaceOrientation): (r: int)
    ensures 0 <= row < CellCount(o) ==> 0 <= r < 16
    ensures r <= row
  {
    if IsPortrait(o) && IsHorizontalCell(row, o) then row - 2 else row
  }

  /** The subsets of the grid positions that the policy singles out. */
  ghost function HorizontalCells(o: InterfaceOrientation): set<int> {
    set i | 0 <= i < CellCount(o) && IsHorizontalCell(i, o)
  }

  ghost function HiddenCells(o: InterfaceOrientation): set<int> {
    set i | 0 <= i < CellCount(o) && IsHiddenCell(i, o)
  }

  ghost function VisibleCells(o: InterfaceOrientation): set<int> {
    set i | 0 <= i < CellCount(o) && !IsHiddenCell(i, o)
  }

  /** The data-list entries the visible cells show. */
  ghost function DataRowsShown(o: InterfaceOrientation): set<int> {
    set i | i in VisibleCells(o) :: GetRow(i, o)
  }

  // Below repeats the bounds of Range only to give its set comprehension a trigger.
  predicate Below(i: int, n: int) {
    0 <= i < n
  }

  /** The integers 0, 1, ..., n-1. */
  ghost function Range(n: int): set<int> {
    set i | 0 <= i < n && Below(i, n)
  }

  lemma {:induction false} RangeSize(n: nat)
    ensures |Range(n)| == n
  {
    if n > 0 {
      RangeSize(n - 1);
      assert Range(n) == Range(n - 1) + {n - 1};
    }
  }

  /** The fixed counts of each orientation. */
  lemma CellCounts(o: InterfaceOrientation)
    ensures IsPortrait(o) ==> CellCount(o) == 18 && RowCellCount(o) == 4.0
    ensures !IsPortrait(o) ==> CellCount(o) == 16 && RowCellCount(o) == 7.0
  {
  }

  /**
    The positions before the horizontal cells fill whole rows of vertical
    cells (four rows of four in portrait, counting the blank slots; two rows
    of seven otherwise), so the horizontal cells start on a row of their own.
   */
  lemma VerticalSlotsFillRows(o: InterfaceOrientation)
    ensures IsPortrait(o) ==> (CellCount(o) - 2) as real == 4.0 * RowCellCount(o)
    ensures !IsPortrait(o) ==> (CellCount(o) - 2) as real == 2.0 * RowCellCount(o)
  {
  }

  /** Exactly two cells are horizontal, and they are the last two. */
  lemma HorizontalCellsAreLastTwo(o: InterfaceOrientation)
    ensures HorizontalCells(o) == {CellCount(o) - 2, CellCount(o) - 1}
    ensures |HorizontalCells(o)| == 2
  {
  }

  /**
    Blank slots appear only in portrait, as exactly positions 14 and 15
    (four and three before the end); none of them is horizontal.
   */
  lemma HiddenCellsExactly(o: InterfaceOrientation)
    ensures HiddenCells(o) == if IsPortrait(o) then {CellCount(o) - 4, CellCount(o) - 3} else {}
    ensures |HiddenCells(o)| == if IsPortrait(o) then 2 else 0
    ensures HiddenCells(o) !! HorizontalCells(o)
  {
  }

  /** Outside portrait's horizontal cells, a position shows its own entry. */
  lemma GetRowCases(row: int, o: InterfaceOrientation)
    ensures IsPortrait(o) && IsHorizontalCell(row, o) ==> GetRow(row, o) == row - 2
    ensures !(IsPortrait(o) && IsHorizontalCell(row, o)) ==> GetRow(row, o) == row
  {
  }

  /**
    On the visible cells GetRow keeps grid order strictly, so no two visible
    cells show the same data entry.
   */
  lemma GetRowOrderedOnVisible(i: int, j: int, o: InterfaceOrientation)
    requires i in VisibleCells(o) && j in VisibleCells(o)
    ensures i < j <==> GetRow(i, o) < GetRow(j, o)
    ensures GetRow(i, o) == GetRow(j, o) ==> i == j
  {
  }

  /** The visible cells show exactly the data entries 0 to 15. */
  lemma DataRowsShownExactly(o: InterfaceOrientation)
    ensures DataRowsShown(o) == Range(16)
  {
    forall j | j in Range(16) ensures j in DataRowsShown(o) {
      var i := if IsPortrait(o) && j >= 14 then j + 2 else j;
      assert 0 <= i < CellCount(o) && !IsHiddenCell(i, o);
      assert i in VisibleCells(o);
      assert GetRow(i, o) == j;
    }
  }

  /** Sixteen cells are visible in every orientation, one per data entry shown. */
  lemma VisibleCellCount(o: InterfaceOrientation)
    ensures |VisibleCells(o)| == 16
  {
    if IsPortrait(o) {
      RangeSize(14);
      assert VisibleCells(o) == Range(14) + {16, 17};
    } else {
      RangeSize(16);
      forall i | i in Range(16) ensures i in VisibleCells(o) {
        assert !IsHiddenCell(i, o);
      }
      assert VisibleCells(o) == Range(16);
    }
  }

  /** Worked positions: the first blank slot, and the first horizontal cell of each orientation. */
  lemma WorkedPositions()
    ensures IsHiddenCell(14, Portrait) && !IsHorizontalCell(14, Portrait)
    ensures IsHorizontalCell(16, Portrait) && GetRow(16, Portrait) == 14
    ensures IsHorizontalCell(14, LandscapeLeft) && !IsHiddenCell(14, LandscapeLeft) && GetRow(14, LandscapeLeft) == 14
  {
  }
}
