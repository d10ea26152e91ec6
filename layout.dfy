/** The numeric layout decisions of the widget's stylesheet (Style.js): the two
    "maxed" flags, the heights that reclaim the horizontal gutter, which
    scrollbars are hidden, and the sizes passed through to the scrollbar rules.
    The CSS text itself is not modelled. */
module Layout {
  import opened Geometry

  /** One custom scrollbar: its track box, whether it is `display: none`, and the
      box of its handle (the thumb). */
  datatype Bar = Bar(track: Box, hidden: bool, handle: Box)

  datatype StyleValues = StyleValues(
    horizontalScrollMaxed: bool,
    verticalScrollMaxed: bool,
    outer: Box,                 // `.a11y-table`
    container: Box,             // `.a11y-table__container`
    columnHeaderHeight: real,   // `.a11y-table__column-header`
    wrapperWidth: real,         // `.a11y-table__table-wrapper`
    table: Box,                 // `.a11y-table__table`
    tableMarginTop: real,
    fakeHeadersWidth: real,     // `.a11y-table__column-headers--fake`
    horizontal: Bar,
    vertical: Bar)

  /** The style values for one geometry. */
  function Style(d: Dimensions): (s: StyleValues)
    ensures s.horizontalScrollMaxed <==> d.scrollBar.horizontal.width == d.scroller.horizontal.width
    ensures s.verticalScrollMaxed <==> d.scrollBar.vertical.height == d.scroller.vertical.height
    ensures s.horizontal.hidden == s.horizontalScrollMaxed
    ensures s.vertical.hidden == s.verticalScrollMaxed
    ensures s.container.height == s.table.height
    ensures s.container.height == d.height || s.container.height == d.height - d.scroller.size
    ensures s.container.width == d.scrollBar.horizontal.width
    ensures s.wrapperWidth == s.table.width == s.fakeHeadersWidth == d.table.width
    ensures s.horizontal.track == d.scrollBar.horizontal && s.horizontal.handle == d.scroller.horizontal
    ensures s.vertical.track == d.scrollBar.vertical && s.vertical.handle == d.scroller.vertical
  {
    var horizontalScrollMaxed := d.scrollBar.horizontal.width == d.scroller.horizontal.width;
    var verticalScrollMaxed := d.scrollBar.vertical.height == d.scroller.vertical.height;
    var bodyHeight := d.height - (if horizontalScrollMaxed then 0.0 else d.scroller.size);
    StyleValues(
      horizontalScrollMaxed,
      verticalScrollMaxed,
      Box(d.width, d.height),
      Box(d.scrollBar.horizontal.width, bodyHeight),
      d.table.headerHeight,
      d.table.width,
      Box(d.table.width, bodyHeight),
      -d.table.headerHeight,
      d.table.width,
      Bar(d.scrollBar.horizontal, horizontalScrollMaxed, d.scroller.horizontal),
      Bar(d.scrollBar.vertical, verticalScrollMaxed, d.scroller.vertical))
  }

  /** The horizontal gutter is reclaimed exactly when the horizontal bar is hidden:
      the container plus the visible horizontal bar always fill the viewport height. */
  lemma HeightGutterReclaimedIffHidden(d: Dimensions)
    requires d.scrollBar.horizontal.height == d.scroller.size
    ensures var s := Style(d);
      s.container.height + (if s.horizontal.hidden then 0.0 else s.horizontal.track.height) == d.height
  {
  }

  /** The vertical gutter is never reclaimed: container width plus vertical track
      width is the viewport width even when the vertical bar is hidden. */
  lemma WidthGutterAlwaysReserved(viewport: Box, columns: seq<Column>, rowCount: nat,
                                  headerHeight: real, rowHeight: real)
    requires TotalWidth(columns) > 0.0
    requires TableHeight(rowCount, headerHeight, rowHeight) > 0.0
    ensures var s := Style(ComputeDimensions(viewport, columns, rowCount, headerHeight, rowHeight));
      s.container.width + s.vertical.track.width == viewport.width
  {
  }

  /** For a computed geometry, the horizontal bar is hidden exactly when the
      horizontal track is empty or exactly as wide as the columns together, and the
      container is then the full viewport height. */
  lemma HorizontalHiddenIff(viewport: Box, columns: seq<Column>, rowCount: nat,
                            headerHeight: real, rowHeight: real)
    requires TotalWidth(columns) > 0.0
    requires TableHeight(rowCount, headerHeight, rowHeight) > 0.0
    ensures var s := Style(ComputeDimensions(viewport, columns, rowCount, headerHeight, rowHeight));
      var track := viewport.width - ScrollerSize;
      && (s.horizontal.hidden <==> track == 0.0 || track == SizeSum(columns))
      && s.container.height == (if s.horizontal.hidden then viewport.height
                                else viewport.height - ScrollerSize)
  {
    var d := ComputeDimensions(viewport, columns, rowCount, headerHeight, rowHeight);
    ThumbFillsTrackIff(d.scroller.horizontal.width, d.scrollBar.horizontal.width, d.table.width);
  }

  /** For a computed geometry, the vertical bar is hidden exactly when the vertical
      track is empty or exactly as tall as header plus rows. */
  lemma VerticalHiddenIff(viewport: Box, columns: seq<Column>, rowCount: nat,
                          headerHeight: real, rowHeight: real)
    requires TotalWidth(columns) > 0.0
    requires TableHeight(rowCount, headerHeight, rowHeight) > 0.0
    ensures var s := Style(ComputeDimensions(viewport, columns, rowCount, headerHeight, rowHeight));
      var track := viewport.height - ScrollerSize;
      s.vertical.hidden <==> track == 0.0 || track == TableHeight(rowCount, headerHeight, rowHeight)
  {
    var d := ComputeDimensions(viewport, columns, rowCount, headerHeight, rowHeight);
    ThumbFillsTrackIff(d.scroller.vertical.height, d.scrollBar.vertical.height, d.table.height);
  }

  /** Because the thumb is not capped, a table narrower than a positive track does
      not hide the horizontal bar: its thumb is wider than its track. */
  lemma NarrowTableKeepsBar(viewport: Box, columns: seq<Column>, rowCount: nat,
                            headerHeight: real, rowHeight: real)
    requires TotalWidth(columns) > 0.0
    requires TableHeight(rowCount, headerHeight, rowHeight) > 0.0
    requires TotalWidth(columns) < viewport.width - ScrollerSize
    ensures var d := ComputeDimensions(viewport, columns, rowCount, headerHeight, rowHeight);
      var s := Style(d);
      !s.horizontal.hidden && s.horizontal.handle.width > s.horizontal.track.width
  {
    var d := ComputeDimensions(viewport, columns, rowCount, headerHeight, rowHeight);
    ThumbExceedsShortContent(d.scroller.horizontal.width, d.scrollBar.horizontal.width, d.table.width);
  }
}
