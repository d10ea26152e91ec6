/** Viewport geometry of the table widget: the `Dimensions` record built from the
    viewport box, the declared column sizes, the row count and the sampled
    header and row heights (dimensions.js, default export; the same block is
    repeated inside `render` in index.js). Pixel values are exact reals. */
module Geometry {

  /** `scroller.size`: the fixed thickness, in pixels, reserved for a scrollbar. */
  const ScrollerSize: real := 20.0

  /** One entry of the column map: its `label` (a reserved word in Dafny, so the
      field is called `heading`) and its declared width in pixels. */
  datatype Column = Column(heading: string, size: real)

  datatype Box = Box(width: real, height: real)

  /** `table`: the full, unclipped content extent and the sampled heights. */
  datatype TableBox = TableBox(width: real, height: real, headerHeight: real, rowHeight: real)

  /** `scrollBar`: the tracks along which the thumbs travel. */
  datatype ScrollBars = ScrollBars(horizontal: Box, vertical: Box)

  /** `scroller`: the gutter size and the thumbs. */
  datatype Scrollers = Scrollers(size: real, horizontal: Box, vertical: Box)

  datatype Dimensions = Dimensions(
    width: real,
    height: real,
    table: TableBox,
    scrollBar: ScrollBars,
    scroller: Scrollers)

  /** The `reduce((memo, col) => memo + col.size, memo)` fold, left to right. */
  function Reduce(columns: seq<Column>, memo: real): (r: real)
  {
    if columns == [] then memo else Reduce(columns[1..], memo + columns[0].size)
  }

  /** `table.width`: the fold started at 0. */
  function TotalWidth(columns: seq<Column>): (w: real)
  {
    Reduce(columns, 0.0)
  }

  /** Reference definition: the mathematical sum of the column sizes. */
  function SizeSum(columns: seq<Column>): (sum: real)
  {
    if columns == [] then 0.0 else columns[0].size + SizeSum(columns[1..])
  }

  lemma {:induction false} ReduceIsSum(columns: seq<Column>, memo: real)
    ensures Reduce(columns, memo) == memo + SizeSum(columns)
  {
    if columns != [] {
      ReduceIsSum(columns[1..], memo + columns[0].size);
    }
  }

  lemma {:induction false} SizeSumAppend(columns: seq<Column>, c: Column)
    ensures SizeSum(columns + [c]) == SizeSum(columns) + c.size
  {
    if columns != [] {
      assert (columns + [c])[1..] == columns[1..] + [c];
      SizeSumAppend(columns[1..], c);
    }
  }

  /** The table width is the sum of the column sizes; adding a column widens it by
      exactly that column's size. */
  lemma TotalWidthIsSum(columns: seq<Column>, c: Column)
    ensures TotalWidth(columns) == SizeSum(columns)
    ensures TotalWidth(columns + [c]) == TotalWidth(columns) + c.size
  {
    ReduceIsSum(columns, 0.0);
    ReduceIsSum(columns + [c], 0.0);
    SizeSumAppend(columns, c);
  }

  /** Columns of non-negative size give a table at least as wide as any one of them. */
  lemma {:induction false} TotalWidthCoversEachColumn(columns: seq<Column>, i: nat)
    requires i < |columns|
    requires forall k :: 0 <= k < |columns| ==> columns[k].size >= 0.0
    ensures columns[i].size <= TotalWidth(columns)
  {
    ReduceIsSum(columns, 0.0);
    SumCoversEach(columns, i);
  }

  lemma {:induction false} SumCoversEach(columns: seq<Column>, i: nat)
    requires i < |columns|
    requires forall k :: 0 <= k < |columns| ==> columns[k].size >= 0.0
    ensures columns[i].size <= SizeSum(columns)
  {
    SumNonNegative(columns[1..]);
    if i > 0 {
      SumCoversEach(columns[1..], i - 1);
    }
  }

  lemma {:induction false} SumNonNegative(columns: seq<Column>)
    requires forall k :: 0 <= k < |columns| ==> columns[k].size >= 0.0
    ensures SizeSum(columns) >= 0.0
  {
    if columns != [] {
      SumNonNegative(columns[1..]);
    }
  }

  /** `track * (track / content)`: a thumb proportional to the visible fraction. */
  function ThumbLength(track: real, content: real): (thumb: real)
    requires content != 0.0
  {
    track * (track / content)
  }

  /** `table.height`: header plus one row height per data row. */
  function TableHeight(rowCount: nat, headerHeight: real, rowHeight: real): (h: real)
  {
    headerHeight + rowHeight * rowCount as real
  }

  /** The default export of dimensions.js, with the probe measurement passed in as
      `headerHeight` and `rowHeight`. */
  function ComputeDimensions(viewport: Box, columns: seq<Column>, rowCount: nat,
                             headerHeight: real, rowHeight: real): (d: Dimensions)
    requires TotalWidth(columns) > 0.0
    requires TableHeight(rowCount, headerHeight, rowHeight) > 0.0
    ensures d.width == viewport.width && d.height == viewport.height
    ensures d.table.width == SizeSum(columns)
    ensures d.table.height - d.table.headerHeight == d.table.rowHeight * rowCount as real
    ensures d.table.headerHeight == headerHeight && d.table.rowHeight == rowHeight
    ensures d.scroller.size == ScrollerSize
    ensures d.scrollBar.horizontal.width + d.scroller.size == viewport.width
    ensures d.scrollBar.vertical.height + d.scroller.size == viewport.height
    ensures d.scrollBar.horizontal.height == d.scroller.size == d.scrollBar.vertical.width
    ensures d.scroller.horizontal.height == d.scrollBar.horizontal.height
    ensures d.scroller.vertical.width == d.scrollBar.vertical.width
    ensures Proportional(d)
  {
    ReduceIsSum(columns, 0.0);
    var tableWidth := TotalWidth(columns);
    var tableHeight := TableHeight(rowCount, headerHeight, rowHeight);
    var size := ScrollerSize;
    var trackH := Box(viewport.width - size, size);
    var trackV := Box(size, viewport.height - size);
    Dimensions(
      viewport.width,
      viewport.height,
      TableBox(tableWidth, tableHeight, headerHeight, rowHeight),
      ScrollBars(trackH, trackV),
      Scrollers(size,
                Box(ThumbLength(trackH.width, tableWidth), trackH.height),
                Box(trackV.width, ThumbLength(trackV.height, tableHeight))))
  }

  /** What the rest of the widget relies on: positive content extents, and each
      thumb's length times the content length equal to the track length squared. */
  predicate Proportional(d: Dimensions)
  {
    && d.table.width > 0.0
    && d.table.height > 0.0
    && d.scroller.horizontal.width * d.table.width
       == d.scrollBar.horizontal.width * d.scrollBar.horizontal.width
    && d.scroller.vertical.height * d.table.height
       == d.scrollBar.vertical.height * d.scrollBar.vertical.height
  }

  /** Sign of a product with a positive factor. */
  lemma SignOfFactor(a: real, c: real)
    requires c > 0.0
    ensures a > 0.0 <==> a * c > 0.0
    ensures a == 0.0 <==> a * c == 0.0
  {
  }

  /** A thumb `t` with `t * content == track * track`, where the content is at
      least as long as a positive track, lies in (0, track] and fills the track
      exactly when content and track have the same length. */
  lemma ThumbBetween(thumb: real, track: real, content: real)
    requires 0.0 < track <= content
    requires thumb * content == track * track
    ensures 0.0 < thumb <= track
    ensures thumb == track <==> content == track
  {
    SignOfFactor(track, track);
    SignOfFactor(thumb, content);
    assert (track - thumb) * content == track * (content - track);
    SignOfFactor(content - track, track);
    SignOfFactor(track - thumb, content);
  }

  /** A thumb fills its track exactly when the track is empty or as long as the
      content: `track * (track / content) == track` has no other solution. */
  lemma ThumbFillsTrackIff(thumb: real, track: real, content: real)
    requires content > 0.0
    requires thumb * content == track * track
    ensures thumb == track <==> (track == 0.0 || track == content)
  {
    assert (thumb - track) * content == track * (track - content);
    SignOfFactor(thumb - track, content);
    if track != 0.0 {
      if track > 0.0 {
        SignOfFactor(track - content, track);
      } else {
        SignOfFactor(track - content, -track);
        assert track * (track - content) == -((track - content) * -track);
      }
    }
  }

  /** No cap is applied: when the content is shorter than a positive track the thumb
      is longer than the track. */
  lemma ThumbExceedsShortContent(thumb: real, track: real, content: real)
    requires 0.0 < content < track
    requires thumb * content == track * track
    ensures thumb > track
  {
    assert (thumb - track) * content == track * (track - content);
    SignOfFactor(track - content, track);
    SignOfFactor(thumb - track, content);
  }

  /** Horizontal thumb bounds for a computed geometry whose content is at least as
      wide as a positive track. */
  lemma HorizontalThumbWithinTrack(d: Dimensions)
    requires Proportional(d)
    requires 0.0 < d.scrollBar.horizontal.width <= d.table.width
    ensures 0.0 < d.scroller.horizontal.width <= d.scrollBar.horizontal.width
    ensures d.scroller.horizontal.width == d.scrollBar.horizontal.width
            <==> d.table.width == d.scrollBar.horizontal.width
  {
    ThumbBetween(d.scroller.horizontal.width, d.scrollBar.horizontal.width, d.table.width);
  }

  /** Vertical thumb bounds, the analogue over table height and track height. */
  lemma VerticalThumbWithinTrack(d: Dimensions)
    requires Proportional(d)
    requires 0.0 < d.scrollBar.vertical.height <= d.table.height
    ensures 0.0 < d.scroller.vertical.height <= d.scrollBar.vertical.height
    ensures d.scroller.vertical.height == d.scrollBar.vertical.height
            <==> d.table.height == d.scrollBar.vertical.height
  {
    ThumbBetween(d.scroller.vertical.height, d.scrollBar.vertical.height, d.table.height);
  }
}
