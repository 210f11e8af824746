/**
 * The renderer helpers, with the markup reduced to its structure: which
 * cells appear, in which order, with which sort indicator, search text and
 * page numbers. The paginator's window rule is here as a function; the
 * widget applies it in place.
 */
module Render {
  import opened Rows

  /** A column descriptor: `value` is the row key, `heading` the descriptor's `label`. */
  datatype Column = Column(value: string, heading: string, sortable: bool, searchable: bool)

  /** The three sort indicators: ↑, ↓ and ↕. */
  datatype Icon = ArrowUp | ArrowDown | ArrowUpDown

  /** A header cell: a label with a clickable indicator, or a label alone. */
  datatype HeaderCell = SortHeader(heading: string, col: string, icon: Icon) | PlainHeader(heading: string)

  /** A search-row cell: a text input pre-filled with `text`, or an empty cell. */
  datatype FilterCell = SearchInput(col: string, heading: string, text: string) | NoSearch

  /**
   * A paginator entry: a page number (marked when it is the current page),
   * the ellipsis, or one of the "< Previous" and "Next >" buttons.
   */
  datatype PageControl = PageLink(number: int, current: bool) | Ellipsis | PreviousPage | NextPage

  /** One render: the search row, the header row, the body rows and the paginator bar. */
  datatype View = View(filters: seq<FilterCell>, headers: seq<HeaderCell>, body: seq<seq<string>>, paginator: seq<PageControl>)

  /** The paginator window: the first and last page number listed. */
  datatype Window = Window(lo: int, hi: int)

  /** `getSortIcon`. */
  function SortIcon(order: Order): Icon {
    if order == Asc then ArrowUp else ArrowDown
  }

  /** `_renderTableHeaderCell`. */
  function HeaderCellOf(c: Column, sortCol: string, order: Order): HeaderCell {
    if c.sortable then
      SortHeader(c.heading, c.value, if sortCol == c.value then SortIcon(order) else ArrowUpDown)
    else PlainHeader(c.heading)
  }

  /** `_renderSearchFilter`. */
  function SearchFilterOf(c: Column, filterCol: string, searchKey: string): FilterCell {
    if c.searchable then SearchInput(c.value, c.heading, if filterCol == c.value then searchKey else "")
    else NoSearch
  }

  /** The text of one body cell: the row's value, or `undefined` when the row lacks the key. */
  function CellText(row: Row, key: string): string {
    if key in row then row[key] else "undefined"
  }

  /** `getTableHeaders`: one header cell per column, in column order. */
  function TableHeaders(columns: seq<Column>, sortCol: string, order: Order): (r: seq<HeaderCell>)
    ensures |r| == |columns|
    ensures forall i :: 0 <= i < |columns| ==> r[i] == HeaderCellOf(columns[i], sortCol, order)
  {
    if columns == [] then [] else [HeaderCellOf(columns[0], sortCol, order)] + TableHeaders(columns[1..], sortCol, order)
  }

  /** `getSearchFilters`: one search cell per column, in column order. */
  function SearchFilters(columns: seq<Column>, filterCol: string, searchKey: string): (r: seq<FilterCell>)
    ensures |r| == |columns|
    ensures forall i :: 0 <= i < |columns| ==> r[i] == SearchFilterOf(columns[i], filterCol, searchKey)
  {
    if columns == [] then [] else [SearchFilterOf(columns[0], filterCol, searchKey)] + SearchFilters(columns[1..], filterCol, searchKey)
  }

  /** `_renderTableRow`: one cell per column, in column order. */
  function RowCells(columns: seq<Column>, row: Row): (r: seq<string>)
    ensures |r| == |columns|
    ensures forall i :: 0 <= i < |columns| ==> r[i] == CellText(row, columns[i].value)
  {
    if columns == [] then [] else [CellText(row, columns[0].value)] + RowCells(columns[1..], row)
  }

  /** `getTableRows`: one body row per visible record, in order. */
  function TableRows(columns: seq<Column>, data: seq<Row>): (r: seq<seq<string>>)
    ensures |r| == |data|
    ensures forall i :: 0 <= i < |data| ==> r[i] == RowCells(columns, data[i])
  {
    if data == [] then [] else [RowCells(columns, data[0])] + TableRows(columns, data[1..])
  }

  /** The indicator of a sortable column: ↑ or ↓ only on the active column, by direction; ↕ elsewhere. */
  lemma HeaderIndicator(columns: seq<Column>, sortCol: string, order: Order, i: int)
    requires 0 <= i < |columns|
    ensures var h := TableHeaders(columns, sortCol, order)[i];
      && (h.SortHeader? <==> columns[i].sortable)
      && (h.SortHeader? ==> h.col == columns[i].value)
      && (h.SortHeader? ==> (h.icon == ArrowUp <==> columns[i].value == sortCol && order == Asc))
      && (h.SortHeader? ==> (h.icon == ArrowDown <==> columns[i].value == sortCol && order == Dsc))
      && (h.SortHeader? ==> (h.icon == ArrowUpDown <==> columns[i].value != sortCol))
  {
  }

  /** Column keys are pairwise different. */
  predicate DistinctKeys(columns: seq<Column>) {
    forall i, j :: 0 <= i < j < |columns| ==> columns[i].value != columns[j].value
  }

  /** With distinct column keys, at most one header shows ↑ or ↓. */
  lemma OneActiveIndicator(columns: seq<Column>, sortCol: string, order: Order, i: int, j: int)
    requires DistinctKeys(columns)
    requires 0 <= i < |columns| && 0 <= j < |columns|
    requires TableHeaders(columns, sortCol, order)[i].SortHeader?
    requires TableHeaders(columns, sortCol, order)[j].SortHeader?
    requires TableHeaders(columns, sortCol, order)[i].icon != ArrowUpDown
    requires TableHeaders(columns, sortCol, order)[j].icon != ArrowUpDown
    ensures i == j
  {
  }

  /** A search input is pre-filled with the key only on the active filter column, and is empty elsewhere. */
  lemma SearchInputText(columns: seq<Column>, filterCol: string, searchKey: string, i: int)
    requires 0 <= i < |columns|
    ensures var f := SearchFilters(columns, filterCol, searchKey)[i];
      && (f.SearchInput? <==> columns[i].searchable)
      && (f.SearchInput? ==> f.col == columns[i].value)
      && (f.SearchInput? ==> f.text == if columns[i].value == filterCol then searchKey else "")
  {
  }

  /** The body shows each visible row's values under the column keys, in column order. */
  lemma BodyCell(columns: seq<Column>, data: seq<Row>, i: int, j: int)
    requires 0 <= i < |data| && 0 <= j < |columns|
    requires columns[j].value in data[i]
    ensures |TableRows(columns, data)| == |data| && |TableRows(columns, data)[i]| == |columns|
    ensures TableRows(columns, data)[i][j] == data[i][columns[j].value]
  {
  }

  /** The recentring rule of `getPaginator` for the 1-based `current` page of `pages`. */
  function NextWindow(w: Window, current: int, pages: int): Window {
    if current >= w.hi || current <= w.lo then
      Window(current, if current + 5 < pages then current + 5 else current + (pages - current))
    else w
  }

  /** A recentred window starts at the current page and ends five pages later or at the last page. */
  lemma NextWindowRecentres(w: Window, current: int, pages: int)
    ensures var w' := NextWindow(w, current, pages);
      && (current >= w.hi || current <= w.lo ==> w'.lo == current && w'.hi == (if current + 5 < pages then current + 5 else pages))
      && (w.lo < current < w.hi ==> w' == w)
  {
  }

  /** A window inside `1..pages`, at most five wide, stays so and shows any valid current page. */
  lemma NextWindowShowsCurrent(w: Window, current: int, pages: int)
    requires 1 <= current <= pages
    requires 1 <= w.lo && w.hi <= pages && w.hi - w.lo <= 5
    ensures var w' := NextWindow(w, current, pages);
      1 <= w'.lo <= current <= w'.hi <= pages && w'.hi - w'.lo <= 5
  {
  }

  /** The page links `lo..hi`, the current page marked. */
  function PageList(lo: int, hi: int, current: int): seq<PageControl>
    decreases if hi < lo then 0 else hi - lo + 1
  {
    if hi < lo then [] else PageList(lo, hi - 1, current) + [PageLink(hi, current == hi)]
  }

  /** The page list holds the numbers `lo` to `hi` in order, and marks exactly `current`. */
  lemma {:induction false} PageListShape(lo: int, hi: int, current: int)
    ensures |PageList(lo, hi, current)| == if hi < lo then 0 else hi - lo + 1
    ensures forall k :: 0 <= k < |PageList(lo, hi, current)| ==>
      PageList(lo, hi, current)[k] == PageLink(lo + k, lo + k == current)
    decreases if hi < lo then 0 else hi - lo + 1
  {
    if lo <= hi {
      PageListShape(lo, hi - 1, current);
    }
  }

  /** What `getPaginator` lists once the window is `w`: its pages, the ellipsis, then the last page unmarked. */
  function PaginatorControls(w: Window, current: int, pages: int): seq<PageControl> {
    PageList(w.lo, w.hi, current) + [Ellipsis, PageLink(pages, false)]
  }

  /** The paginator bar of `render`: "< Previous", the entries of `getPaginator`, then "Next >". */
  function PaginatorBar(controls: seq<PageControl>): seq<PageControl> {
    [PreviousPage] + controls + [NextPage]
  }

  /** On 12 pages with window 1..5, moving to page 6 recentres to 6..11. */
  lemma RecentreExample()
    ensures NextWindow(Window(1, 5), 6, 12) == Window(6, 11)
  {
  }
}
