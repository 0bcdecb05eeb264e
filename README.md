# Grid layout policy of AddNewViewController

This project models the one piece of logic in the CollectionViewCellWithAutoLayout
demonstration app: the layout policy of `AddNewViewController`, which lays a fixed
grid of "vertical" cells (icon over caption) and two trailing "horizontal" cells
(icon beside caption) into a collection view, differently in portrait and landscape
and on phones and other devices.

The source reads the status-bar orientation, the device idiom and the view's frame
from global platform state. Here they are parameters (`LayoutInputs`): the orientation
is the platform's five-valued `InterfaceOrientation`, with `IsPortrait` true of
`Portrait` and `PortraitUpsideDown` only, so `Unknown` takes the landscape branch
as it does in the source; the idiom is `Unspecified | Phone | Pad`, and only `Phone`
takes the phone branch. CGFloat is an exact `real`, so every layout function is a
total Dafny function and the sizing identities hold exactly.

- `GridIndex`: cell count, cells per row, horizontal and blank cells, and the
  mapping `GetRow` from grid position to data entry, with the sets of positions the
  policy singles out and their sizes.
- `GridSizing`: collection-view size and frame, vertical and horizontal cell widths
  and sizes, the inset, header height and icon constants, and the flow-layout settings.
- `CellBinding`: what the data source and delegate return per position: variant,
  reuse identifier, hidden flag, icon inset, bound title, item size and header size,
  and the list of titles the grid shows.

The functions `CellCount`, `RowCellCount`, `CollectionViewWidth`,
`CollectionViewHeight`, `LeftRightInset`, `BottomInset`, `HeaderHeight`,
`ImageSize` (the cell's `imageSize`, CollectionViewCellWithAutoLayout/CollectionViewCellWithAutoLayout/CollectionViewController/AddNewCell.swift line 30) and
`DisplayedTitles` are constants, dispatches or (`DisplayedTitles`) the titles the grid shows; what they mean is stated by the lemmas
in the table. The data list (`model.dataArray`) is a `seq<string>` of titles, and the
members that index it require at least sixteen entries.

## Model

| member | source | states |
|---|---|---|
| GridIndex.CellCounts | CollectionViewCellWithAutoLayout/CollectionViewCellWithAutoLayout/CollectionViewController/AddNewViewController.swift:36-44 | 18 positions and 4 cells per row in portrait, 16 positions and 7 per row otherwise |
| GridIndex.VerticalSlotsFillRows | CollectionViewCellWithAutoLayout/CollectionViewCellWithAutoLayout/CollectionViewController/AddNewViewController.swift:36-53 | the positions before the horizontal cells make whole rows (four rows of four in portrait, two rows of seven otherwise), so the horizontal cells start a new row |
| GridIndex.IsHorizontalCell | CollectionViewCellWithAutoLayout/CollectionViewCellWithAutoLayout/CollectionViewController/AddNewViewController.swift:46-48 | among valid positions, a cell is horizontal exactly when it is one of the last two |
| GridIndex.HorizontalCellsAreLastTwo | CollectionViewCellWithAutoLayout/CollectionViewCellWithAutoLayout/CollectionViewController/AddNewViewController.swift:46-48 | the set of horizontal positions is exactly the last two, so there are exactly two |
| GridIndex.IsHiddenCell | CollectionViewCellWithAutoLayout/CollectionViewCellWithAutoLayout/CollectionViewController/AddNewViewController.swift:50-53 | a blank slot only occurs in portrait, is a valid position and is never horizontal; in portrait the blank slots are exactly 14 and 15 |
| GridIndex.HiddenCellsExactly | CollectionViewCellWithAutoLayout/CollectionViewCellWithAutoLayout/CollectionViewController/AddNewViewController.swift:50-53 | the set of blank positions is {14, 15} (count minus four and minus three) in portrait and empty otherwise, and is disjoint from the horizontal cells |
| GridIndex.GetRow | CollectionViewCellWithAutoLayout/CollectionViewCellWithAutoLayout/CollectionViewController/AddNewViewController.swift:55-58 | every valid position, blank or not, maps into the data entries 0 to 15, and never to a later entry than its own position |
| GridIndex.GetRowCases | CollectionViewCellWithAutoLayout/CollectionViewCellWithAutoLayout/CollectionViewController/AddNewViewController.swift:55-58 | a horizontal cell in portrait shows the entry two before its position; every other position shows its own |
| GridIndex.GetRowOrderedOnVisible | CollectionViewCellWithAutoLayout/CollectionViewCellWithAutoLayout/CollectionViewController/AddNewViewController.swift:50-58 | on visible cells GetRow preserves and reflects grid order strictly, so it is injective there |
| GridIndex.DataRowsShownExactly | CollectionViewCellWithAutoLayout/CollectionViewCellWithAutoLayout/CollectionViewController/AddNewViewController.swift:50-58 | the data entries shown by visible cells are exactly 0 to 15 in either orientation |
| GridIndex.VisibleCellCount | CollectionViewCellWithAutoLayout/CollectionViewCellWithAutoLayout/CollectionViewController/AddNewViewController.swift:36-53 | sixteen cells are visible in either orientation |
| GridIndex.WorkedPositions | CollectionViewCellWithAutoLayout/CollectionViewCellWithAutoLayout/CollectionViewController/AddNewViewController.swift:46-58 | portrait position 14 is blank; portrait position 16 is horizontal and shows entry 14; landscape position 14 is horizontal, visible and shows entry 14 |
| GridSizing.ControllerFlowLayout | CollectionViewCellWithAutoLayout/CollectionViewCellWithAutoLayout/CollectionViewController/AddNewViewController.swift:116-122 | the section has no top inset, left and right insets and spacing between items of 4, and bottom inset and line spacing of 4 (as installed at lines 161-164) |
| GridSizing.CanvasSize | CollectionViewCellWithAutoLayout/CollectionViewCellWithAutoLayout/CollectionViewController/AddNewViewController.swift:86-102 | on a phone the collection view is the view's width and height; otherwise 414 by 736 in portrait and 736 by 414 outside it |
| GridSizing.TabletCanvasRotates | CollectionViewCellWithAutoLayout/CollectionViewCellWithAutoLayout/CollectionViewController/AddNewViewController.swift:86-102 | off a phone the canvas ignores the view's size and rotation swaps its width and height |
| GridSizing.CollectionViewFrame | CollectionViewCellWithAutoLayout/CollectionViewCellWithAutoLayout/CollectionViewController/AddNewViewController.swift:104-110 | the frame has the collection view's width and height at y = 0; on a phone it is at the origin, otherwise its centre is at the view's horizontal centre |
| GridSizing.VerticalCellWidth | CollectionViewCellWithAutoLayout/CollectionViewCellWithAutoLayout/CollectionViewController/AddNewViewController.swift:82-84 | n vertical cells plus n + 1 insets fill the collection view's width exactly, and the width is positive exactly when the view is wider than the n + 1 insets |
| GridSizing.HorizontalCellWidth | CollectionViewCellWithAutoLayout/CollectionViewCellWithAutoLayout/CollectionViewController/AddNewViewController.swift:69-76 | in portrait a horizontal cell plus two insets fills the width; otherwise two horizontal cells, one vertical cell's width and four insets fill it |
| GridSizing.VerticalCellSize | CollectionViewCellWithAutoLayout/CollectionViewCellWithAutoLayout/CollectionViewController/AddNewViewController.swift:78-84 | a vertical cell is 75 high and its width makes n cells and n + 1 insets fill the row |
| GridSizing.HorizontalCellSize | CollectionViewCellWithAutoLayout/CollectionViewCellWithAutoLayout/CollectionViewController/AddNewViewController.swift:65-76 | a horizontal cell is 50 high and its width satisfies the fill identity of its orientation |
| GridSizing.RowsFillFlowLayout | CollectionViewCellWithAutoLayout/CollectionViewCellWithAutoLayout/CollectionViewController/AddNewViewController.swift:161-164 | the fill identities restated with the flow layout's section insets and spacing between items |
| GridSizing.PortraitHorizontalCellsStack | CollectionViewCellWithAutoLayout/CollectionViewCellWithAutoLayout/CollectionViewController/AddNewViewController.swift:69-72 | in portrait two horizontal cells with the two section insets and the spacing between them (three insets) are wider than the view, so each horizontal cell takes its own row |
| GridSizing.ImageInset | CollectionViewCellWithAutoLayout/CollectionViewCellWithAutoLayout/CollectionViewController/AddNewViewController.swift:196 | the icon inset centres the 42-point icon in a vertical cell: two insets plus the icon make the cell's width, and the inset is non-negative exactly when the icon fits |
| GridSizing.TabletWidths | CollectionViewCellWithAutoLayout/CollectionViewCellWithAutoLayout/CollectionViewController/AddNewViewController.swift:69-93 | off a phone, for every orientation: vertical cells are 98.5 wide and horizontal cells 406 in the two portrait orientations; 704/7 and 2168/7 in every other orientation |
| CellBinding.ReuseIdentifier | CollectionViewCellWithAutoLayout/CollectionViewCellWithAutoLayout/CollectionViewController/AddNewViewController.swift:192 | a cell is dequeued under "CellHorizontal" exactly when it is horizontal, and under "CellVertical" otherwise |
| CellBinding.CellForItem | CollectionViewCellWithAutoLayout/CollectionViewCellWithAutoLayout/CollectionViewController/AddNewViewController.swift:190-200 | a configured cell's identifier and variant agree; it is horizontal exactly when among the last two, blank exactly at portrait positions 14 and 15 (and then vertical), its inset is the margin that centres a 42-point icon in a vertical cell (a horizontal cell pins its icon and title by it), and its title is the entry GetRow selects, which lies in the first sixteen |
| CellBinding.ItemSize | CollectionViewCellWithAutoLayout/CollectionViewCellWithAutoLayout/CollectionViewController/AddNewViewController.swift:259-261 | the last two positions get the horizontal size (height 50), all others the vertical size (height 75) |
| CellBinding.HeaderSize | CollectionViewCellWithAutoLayout/CollectionViewCellWithAutoLayout/CollectionViewController/AddNewViewController.swift:263-265 | the header is 40 high and as wide as the collection view's frame, which is the width a row of vertical cells and its insets fill |
| CellBinding.DisplayedTitlesFrom | CollectionViewCellWithAutoLayout/CollectionViewCellWithAutoLayout/CollectionViewController/AddNewViewController.swift:195-199 | from any position on, the visible cells show a contiguous run of the data entries ending at entry 15 |
| CellBinding.DisplayedTitlesAreFirstSixteen | CollectionViewCellWithAutoLayout/CollectionViewCellWithAutoLayout/CollectionViewController/AddNewViewController.swift:195-199 | blank slots consume no data: the visible cells show data entries 0 to 15, each once, in grid order |

## Left out

- View-controller lifecycle and framework calls (`viewDidLoad` beyond its flow-layout
  settings, `viewWillAppear`, the rotation and autorotation callbacks, notification
  registration, `reloadData`, collection-view creation, dequeuing, the header label's
  construction and text): these are calls into UIKit whose effects are in the framework.
- The rest of configuring a cell (setting the "star" image, marking it as an
  accessibility element with its title as label, forcing a constraint update): UIKit
  view state with no bearing on the layout policy.
- The two `assert(false)` fallbacks (an unknown dequeued cell type, an unknown
  supplementary kind): the model's preconditions (`0 <= row < CellCount(o)`, at least
  sixteen data entries) take their place; the kind of a supplementary view is not modelled.
- `HeaderSize` uses the width of the frame the controller last gave the collection view;
  the model takes that frame to be the one computed for the current orientation, idiom
  and view, as `updateViews` sets it on appearance and on rotation.
- IEEE floating-point rounding of CGFloat: widths are exact reals.
- The Model type and its `populate`: that file is not part of this model; the data list
  is a sequence of titles. Entries after the sixteenth are never shown.
- AddNewCell.swift (constraint setup, the one-time constraint latch, highlight colours,
  the offset label's drawing) and AppDelegate.swift: UIKit and auto-layout plumbing.
  Only the cell's icon size is used.
- Determinism of recomputation: every member is a Dafny function, so it holds by construction.
