/**
 * The layout rules of the collage preview: the container class chosen from the number
 * of images and the orientation, the span of the first cell of a three-image collage,
 * one cell per image in list order, and the empty-state panel and watermark.
 */
module CollageCanvas {
  import opened Types

  const EmptyLayout := "flex items-center justify-center"
  const OneColumn := "grid grid-cols-1"
  const TwoColumns := "grid grid-cols-2"
  const TwoRows := "grid grid-rows-2"
  const TwoByTwo := "grid grid-cols-2 grid-rows-2"
  const ThreeByTwo := "grid grid-cols-3 grid-rows-2"
  const RowSpanTwo := "row-span-2"
  const ColSpanTwo := "col-span-2"

  /** getGridClass. */
  function GridClass(count: nat, orientation: Orientation): string {
    if count == 0 then EmptyLayout
    else if count == 1 then OneColumn
    else if count == 2 then (if orientation == Landscape then TwoColumns else TwoRows)
    else if count == 3 then TwoByTwo
    else if count == 4 then TwoByTwo
    else ThreeByTwo
  }

  /** The span class of cell `index` among `count` cells. */
  function SpanClass(count: nat, index: nat, orientation: Orientation): (c: string)
    ensures c != "" <==> count == 3 && index == 0
    ensures c != "" ==> c == (if orientation == Landscape then RowSpanTwo else ColSpanTwo)
  {
    if count == 3 && index == 0 then (if orientation == Landscape then RowSpanTwo else ColSpanTwo) else ""
  }

  /** One rendered cell: its React key, the image source and the span class. */
  datatype Cell = Cell(key: string, src: string, spanClass: string)

  /** images.map: one cell per image, in list order. */
  function Cells(images: seq<ImageAsset>, orientation: Orientation): (cells: seq<Cell>)
    ensures |cells| == |images|
    ensures forall i :: 0 <= i < |images| ==>
      cells[i].key == images[i].id && cells[i].src == images[i].currentData
      && cells[i].spanClass == SpanClass(|images|, i, orientation)
  {
    seq(|images|, i requires 0 <= i < |images| => Cell(images[i].id, images[i].currentData, SpanClass(|images|, i, orientation)))
  }

  /** The "Preview Canvas" placeholder is rendered. */
  predicate ShowsEmptyState(images: seq<ImageAsset>) {
    |images| == 0
  }

  /** The brand watermark is rendered. */
  predicate ShowsWatermark(images: seq<ImageAsset>) {
    |images| > 0
  }

  /** Exactly one of the empty state and the watermark shows, and the empty state goes with the flex layout. */
  lemma EmptyStateXorWatermark(images: seq<ImageAsset>, orientation: Orientation)
    ensures ShowsEmptyState(images) != ShowsWatermark(images)
    ensures ShowsEmptyState(images) <==> GridClass(|images|, orientation) == EmptyLayout
  {
    var c := GridClass(|images|, orientation);
    if |images| > 0 {
      assert c[0] == 'g' && EmptyLayout[0] == 'f';
    }
  }

  /** Orientation decides the layout only for two images. */
  lemma GridClassOrientation(count: nat)
    ensures GridClass(count, Landscape) != GridClass(count, Portrait) <==> count == 2
  {
    if count == 2 {
      assert TwoColumns[10] == 'c' && TwoRows[10] == 'r';
    }
  }

  /**
   * The layout for each number of images: flex when empty, one column for one image, two
   * columns or two rows for two, the two-by-two grid for three and four, and the
   * three-by-two grid for every count from five on.
   */
  lemma GridClassTable(count: nat, orientation: Orientation)
    ensures count == 0 ==> GridClass(count, orientation) == EmptyLayout
    ensures count == 1 ==> GridClass(count, orientation) == OneColumn
    ensures count == 2 ==> GridClass(count, orientation) == (if orientation == Landscape then TwoColumns else TwoRows)
    ensures count == 3 || count == 4 ==> GridClass(count, orientation) == TwoByTwo
    ensures count >= 5 ==> GridClass(count, orientation) == ThreeByTwo
  {
  }

  /** The number of grid slots a layout class declares: columns times rows, a missing axis counting as one. */
  function DeclaredSlots(gridClass: string): nat {
    if gridClass == OneColumn then 1
    else if gridClass == TwoColumns || gridClass == TwoRows then 2
    else if gridClass == TwoByTwo then 4
    else if gridClass == ThreeByTwo then 6
    else 0
  }

  /** The slots the cells occupy: two for a spanning cell, one otherwise. */
  function SlotsUsed(cells: seq<Cell>): nat {
    if cells == [] then 0 else (if cells[0].spanClass != "" then 2 else 1) + SlotsUsed(cells[1..])
  }

  /** Cells occupy one slot each, plus one more for the spanning first cell of a three-image collage. */
  lemma {:induction false} SlotsUsedCount(cells: seq<Cell>, count: nat, from: nat, orientation: Orientation)
    requires forall i :: 0 <= i < |cells| ==> cells[i].spanClass == SpanClass(count, from + i, orientation)
    ensures SlotsUsed(cells) == |cells| + (if count == 3 && from == 0 && |cells| > 0 then 1 else 0)
  {
    if cells != [] {
      forall i | 0 <= i < |cells[1..]|
        ensures cells[1..][i].spanClass == SpanClass(count, from + 1 + i, orientation)
      {
        assert cells[1..][i] == cells[i + 1];
      }
      SlotsUsedCount(cells[1..], count, from + 1, orientation);
    }
  }

  /**
   * The span rule exists to fill the grid: for one to four images, and for six, the cells
   * occupy exactly the slots the chosen layout declares; five images leave one slot empty,
   * and from seven on the cells overflow the three-by-two grid.
   */
  lemma CellsFillGrid(images: seq<ImageAsset>, orientation: Orientation)
    requires 1 <= |images|
    ensures var used := SlotsUsed(Cells(images, orientation));
      var declared := DeclaredSlots(GridClass(|images|, orientation));
      && (|images| == 5 ==> used + 1 == declared)
      && (|images| <= 6 && |images| != 5 ==> used == declared)
      && (|images| >= 7 ==> used > declared)
  {
    SlotsUsedCount(Cells(images, orientation), |images|, 0, orientation);
    var c := GridClass(|images|, orientation);
    if |images| == 1 {
      assert c == OneColumn;
    } else if |images| == 2 {
      assert c == TwoColumns || c == TwoRows;
      assert OneColumn[15] == '1' && TwoColumns[15] == '2';
      assert OneColumn[10] == 'c' && TwoRows[10] == 'r';
    } else if |images| <= 4 {
      assert c == TwoByTwo;
      assert |OneColumn| == 16 && |TwoColumns| == 16 && |TwoRows| == 16 && |TwoByTwo| == 28;
    } else {
      assert c == ThreeByTwo;
      assert |OneColumn| == 16 && |TwoColumns| == 16 && |TwoRows| == 16 && |TwoByTwo| == 28;
      assert TwoByTwo[15] == '2' && ThreeByTwo[15] == '3';
    }
  }
}
