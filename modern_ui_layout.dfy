/**
 * Integer layout arithmetic for the main window: the fixed partition of the
 * client area into named regions, cells of a padded grid, and in-place
 * alignment of a row or column of rectangles with even spacing.
 *
 * A rectangle is given by its edges, as in the Win32 RECT: `left` and `top`
 * are inside it, `right` and `bottom` are just outside it. Divisions
 * truncate toward zero, as C++ integer division does.
 */
module Layout {

  datatype Rect = Rect(left: int, top: int, right: int, bottom: int)

  function Width(r: Rect): int { r.right - r.left }
  function Height(r: Rect): int { r.bottom - r.top }

  /** C++ integer division by a positive divisor: the quotient is truncated toward zero. */
  function DivTrunc(a: int, b: int): (q: int)
    requires b > 0
    ensures a >= 0 ==> 0 <= q * b <= a < q * b + b
    ensures a < 0 ==> q <= 0 && a <= q * b < a + b
  {
    if a >= 0 then
      FloorDivBounds(a, b);
      a / b
    else
      var m := (-a) / b;
      FloorDivBounds(-a, b);
      assert (-m) * b == -(m * b);
      -m
  }

  lemma FloorDivBounds(x: int, b: int)
    requires x >= 0 && b > 0
    ensures 0 <= (x / b) * b <= x < (x / b) * b + b
  {
    assert x == (x / b) * b + x % b;
  }

  /** The regions of the main window. */
  datatype LayoutRegions = LayoutRegions(
    headerBar: Rect,
    transportBar: Rect,
    workspaceTop: Rect,
    workspaceMain: Rect,
    tracksPanel: Rect,
    inspectorPanel: Rect,
    statusBar: Rect,
    sidebarLeft: Rect)

  const HeaderHeight: int := 60
  const TransportHeight: int := 70
  const SidebarWidth: int := 50
  const InspectorWidth: int := 350
  const TracksWidth: int := 200
  const StatusHeight: int := 30
  const WorkspaceTopHeight: int := 300
  const WorkspaceGap: int := 4

  /** The partition exactly as the source computes it, including the inverted main workspace. */
  function ComputeLayout(client: Rect): (l: LayoutRegions)
    ensures Width(l.sidebarLeft) + Width(l.tracksPanel) + Width(l.workspaceTop) + Width(l.inspectorPanel) == Width(client)
    ensures Height(l.headerBar) + Height(l.transportBar) + Height(l.tracksPanel) + Height(l.statusBar) == Height(client)
  {
    var header := Rect(client.left, client.top, client.right, client.top + HeaderHeight);
    var transport := Rect(client.left, header.bottom, client.right, header.bottom + TransportHeight);
    var sidebar := Rect(client.left, transport.bottom, client.left + SidebarWidth, client.bottom - StatusHeight);
    var inspector := Rect(client.right - InspectorWidth, transport.bottom, client.right, client.bottom - StatusHeight);
    var tracks := Rect(sidebar.right, transport.bottom, sidebar.right + TracksWidth, client.bottom - StatusHeight);
    var workspaceTop := Rect(tracks.right, transport.bottom, inspector.left, tracks.top + WorkspaceTopHeight);
    var workspaceMain := Rect(tracks.right, workspaceTop.bottom + WorkspaceGap, inspector.left, inspector.top);
    var status := Rect(client.left, client.bottom - StatusHeight, client.right, client.bottom);
    LayoutRegions(header, transport, workspaceTop, workspaceMain, tracks, inspector, status, sidebar)
  }

  /**
   * The bars stack from the top: the header (60 tall) and the transport bar
   * (70 tall) below it at full width, and the status bar as the last 30 rows
   * at full width. Between the transport bar and the status bar, the sidebar
   * (50 wide), the tracks panel (200 wide), the upper workspace and the
   * inspector (350 wide, anchored right) sit side by side with no gaps. The
   * upper workspace is 300 tall.
   */
  lemma LayoutPartition(client: Rect)
    ensures var l := ComputeLayout(client);
      && l.headerBar.left == client.left && l.headerBar.right == client.right
      && l.headerBar.top == client.top && Height(l.headerBar) == HeaderHeight
      && l.transportBar.left == client.left && l.transportBar.right == client.right
      && l.transportBar.top == l.headerBar.bottom && Height(l.transportBar) == TransportHeight
      && l.statusBar.left == client.left && l.statusBar.right == client.right
      && l.statusBar.bottom == client.bottom && Height(l.statusBar) == StatusHeight
      && l.sidebarLeft.left == client.left && Width(l.sidebarLeft) == SidebarWidth
      && l.tracksPanel.left == l.sidebarLeft.right && Width(l.tracksPanel) == TracksWidth
      && l.workspaceTop.left == l.tracksPanel.right && l.workspaceTop.right == l.inspectorPanel.left
      && l.inspectorPanel.right == client.right && Width(l.inspectorPanel) == InspectorWidth
      && Height(l.workspaceTop) == WorkspaceTopHeight
      && l.sidebarLeft.top == l.tracksPanel.top == l.workspaceTop.top == l.inspectorPanel.top == l.transportBar.bottom
      && l.sidebarLeft.bottom == l.tracksPanel.bottom == l.inspectorPanel.bottom == l.statusBar.top
  {
  }

  /**
   * The main workspace as written is upside down in every window: its top
   * is 4 rows below the upper workspace, but its bottom is the inspector's
   * top, which is the upper workspace's top.
   */
  lemma WorkspaceMainInverted(client: Rect)
    ensures var l := ComputeLayout(client);
      l.workspaceMain.bottom == l.workspaceTop.top && Height(l.workspaceMain) == -(WorkspaceTopHeight + WorkspaceGap)
  {
  }

  /** The partition with the main workspace reaching down to the bottom of the side panels. */
  function ComputeLayoutCorrected(client: Rect): (l: LayoutRegions)
    ensures l == ComputeLayout(client).(workspaceMain := l.workspaceMain)
    ensures l.workspaceMain.left == l.workspaceTop.left && l.workspaceMain.right == l.workspaceTop.right
    ensures l.workspaceMain.top == l.workspaceTop.bottom + WorkspaceGap
    ensures l.workspaceMain.bottom == l.inspectorPanel.bottom
  {
    var l := ComputeLayout(client);
    l.(workspaceMain := Rect(l.tracksPanel.right, l.workspaceTop.bottom + WorkspaceGap, l.inspectorPanel.left, l.inspectorPanel.bottom))
  }

  /**
   * In a window at least 600 wide and 464 tall, every region of the
   * corrected partition has a non-negative size. The two workspaces lie
   * between the tracks panel and the inspector, one above the other with a
   * 4-row gap, and the main workspace ends where the status bar begins.
   */
  lemma {:induction false} CorrectedLayoutIsProper(client: Rect)
    requires Width(client) >= SidebarWidth + TracksWidth + InspectorWidth
    requires Height(client) >= HeaderHeight + TransportHeight + WorkspaceTopHeight + WorkspaceGap + StatusHeight
    ensures var l := ComputeLayoutCorrected(client);
      && Width(l.workspaceTop) >= 0 && Width(l.workspaceMain) >= 0
      && Height(l.workspaceMain) >= 0 && Height(l.sidebarLeft) >= WorkspaceTopHeight + WorkspaceGap
      && l.workspaceTop.bottom + WorkspaceGap == l.workspaceMain.top
      && l.workspaceMain.bottom == l.statusBar.top
  {
    LayoutPartition(client);
  }

  /** The offset of slot `i` in a row of slots `size` long separated and surrounded by `padding`. */
  function SlotStart(i: int, size: int, padding: int): int
  {
    padding + i * (size + padding)
  }

  /** The size of each of `n` slots sharing `total` with `padding` around and between them. */
  function SlotSize(total: int, n: int, padding: int): (size: int)
    requires n > 0
  {
    DivTrunc(total - padding * (n + 1), n)
  }

  /**
   * When the padding fits, the `n` slots fill `total` evenly: each is
   * non-negative, the last ends at least `padding` before `total`, and what
   * is left over beyond that padding is less than one unit per slot.
   */
  lemma SlotsFit(total: int, n: int, padding: int)
    requires n > 0 && total >= padding * (n + 1)
    ensures var size := SlotSize(total, n, padding);
      var end := SlotStart(n - 1, size, padding) + size;
      && size >= 0
      && end <= total - padding
      && total - padding - end < n
  {
    var size := SlotSize(total, n, padding);
    assert SlotStart(n - 1, size, padding) + size == padding * n + n * size;
  }

  /** Consecutive slots are exactly `padding` apart. */
  lemma SlotsAreSpaced(i: int, size: int, padding: int)
    ensures SlotStart(i + 1, size, padding) == SlotStart(i, size, padding) + size + padding
  {
  }

  /**
   * Cell (`column`, `row`) of a grid of `totalColumns` by `totalRows` cells
   * inside `container`, with `padding` around and between the cells. Every
   * cell has the same size, and cells are `padding` apart.
   */
  function CalculateGridPosition(container: Rect, column: int, row: int, totalColumns: int, totalRows: int, padding: int): (r: Rect)
    requires totalColumns > 0 && totalRows > 0
    ensures Width(r) == SlotSize(Width(container), totalColumns, padding)
    ensures Height(r) == SlotSize(Height(container), totalRows, padding)
    ensures r.left == container.left + SlotStart(column, Width(r), padding)
    ensures r.top == container.top + SlotStart(row, Height(r), padding)
  {
    var cellWidth := SlotSize(Width(container), totalColumns, padding);
    var cellHeight := SlotSize(Height(container), totalRows, padding);
    var left := container.left + padding + column * (cellWidth + padding);
    var top := container.top + padding + row * (cellHeight + padding);
    Rect(left, top, left + cellWidth, top + cellHeight)
  }

  /**
   * When the container has room for the padding, every cell of the grid lies
   * inside the container, at least `padding` from each of its edges, and
   * the next cell to the right starts `padding` after this one ends.
   */
  lemma GridCellInside(container: Rect, column: int, row: int, totalColumns: int, totalRows: int, padding: int)
    requires totalColumns > 0 && totalRows > 0 && padding >= 0
    requires 0 <= column < totalColumns && 0 <= row < totalRows
    requires Width(container) >= padding * (totalColumns + 1) && Height(container) >= padding * (totalRows + 1)
    ensures var r := CalculateGridPosition(container, column, row, totalColumns, totalRows, padding);
      && container.left + padding <= r.left <= r.right <= container.right - padding
      && container.top + padding <= r.top <= r.bottom <= container.bottom - padding
      && CalculateGridPosition(container, column + 1, row, totalColumns, totalRows, padding).left == r.right + padding
  {
    var r := CalculateGridPosition(container, column, row, totalColumns, totalRows, padding);
    SlotWithin(column, totalColumns, Width(container), padding);
    SlotWithin(row, totalRows, Height(container), padding);
    SlotsAreSpaced(column, Width(r), padding);
  }

  /** When the padding fits, slot `i` of `n` starts at least `padding` in and ends at least `padding` before `total`. */
  lemma SlotWithin(i: int, n: int, total: int, padding: int)
    requires 0 <= i < n && padding >= 0 && total >= padding * (n + 1)
    ensures var size := SlotSize(total, n, padding);
      size >= 0 && padding <= SlotStart(i, size, padding) <= SlotStart(i, size, padding) + size <= total - padding
  {
    var size := SlotSize(total, n, padding);
    SlotsFit(total, n, padding);
    var step := size + padding;
    MulNonneg(i, step);
    MulNonneg(n - 1 - i, step);
    MulDistributesOverSub(n - 1, i, step);
  }

  lemma MulNonneg(a: int, b: int)
    requires a >= 0 && b >= 0
    ensures a * b >= 0
  {
  }

  lemma MulDistributesOverSub(a: int, b: int, c: int)
    ensures a * c - b * c == (a - b) * c
  {
  }

  /**
   * Spreads the rectangles across `totalWidth` in one row, in place: slot `i`
   * starts at `padding + i * (w + padding)` and is `w` wide, where `w` is the
   * slot size. Tops and bottoms stay. An empty array is left as it is.
   */
  method AlignHorizontal(rects: array<Rect>, totalWidth: int, padding: int)
    modifies rects
    ensures rects.Length > 0 ==>
      var w := SlotSize(totalWidth, rects.Length, padding);
      forall i :: 0 <= i < rects.Length ==>
        rects[i] == old(rects[i]).(left := SlotStart(i, w, padding), right := SlotStart(i, w, padding) + w)
    ensures rects.Length == 0 ==> rects[..] == old(rects[..])
  {
    if rects.Length == 0 {
      return;
    }
    var itemCount := rects.Length;
    var availableWidth := totalWidth - padding * (itemCount + 1);
    var itemWidth := DivTrunc(availableWidth, itemCount);
    for i := 0 to itemCount
      invariant forall j :: 0 <= j < i ==>
        rects[j] == old(rects[j]).(left := SlotStart(j, itemWidth, padding), right := SlotStart(j, itemWidth, padding) + itemWidth)
      invariant forall j :: i <= j < itemCount ==> rects[j] == old(rects[j])
    {
      var x := padding + i * (itemWidth + padding);
      var height := rects[i].bottom - rects[i].top;
      rects[i] := Rect(x, rects[i].top, x + itemWidth, rects[i].top + height);
    }
  }

  /**
   * Stacks the rectangles down `totalHeight` in one column, in place: slot
   * `i` starts at `padding + i * (h + padding)` and is `h` tall, where `h` is
   * the slot size. Lefts and rights stay. An empty array is left as it is.
   */
  method AlignVertical(rects: array<Rect>, totalHeight: int, padding: int)
    modifies rects
    ensures rects.Length > 0 ==>
      var h := SlotSize(totalHeight, rects.Length, padding);
      forall i :: 0 <= i < rects.Length ==>
        rects[i] == old(rects[i]).(top := SlotStart(i, h, padding), bottom := SlotStart(i, h, padding) + h)
    ensures rects.Length == 0 ==> rects[..] == old(rects[..])
  {
    if rects.Length == 0 {
      return;
    }
    var itemCount := rects.Length;
    var availableHeight := totalHeight - padding * (itemCount + 1);
    var itemHeight := DivTrunc(availableHeight, itemCount);
    for i := 0 to itemCount
      invariant forall j :: 0 <= j < i ==>
        rects[j] == old(rects[j]).(top := SlotStart(j, itemHeight, padding), bottom := SlotStart(j, itemHeight, padding) + itemHeight)
      invariant forall j :: i <= j < itemCount ==> rects[j] == old(rects[j])
    {
      var y := padding + i * (itemHeight + padding);
      var width := rects[i].right - rects[i].left;
      rects[i] := Rect(rects[i].left, y, rects[i].left + width, y + itemHeight);
    }
  }
}
