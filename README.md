# DataTable view-state engine

A Dafny model of the `DataTable` widget of `table.js`: a client-side table that shows an in-memory list of records, paginated into fixed-size chunks, and lets the user sort by a column, search within a column and move between pages. The model covers the widget's state (`data`, `chunkedData`, `pageNo`, `paginatorWindow`, `sortDetails`, `filterDetails`), the handlers that change it, the paginator's window recentring and the pure renderer helpers.

Layout, one module per file:

- `wrappers.dfy` (`Wrappers`): `Option`. `None` stands for JavaScript's `undefined` wherever the code reads an array slot that does not exist.
- `strings.dfy` (`Strings`): JavaScript's `<` on strings, ASCII `toLowerCase`, and `indexOf` with its specification.
- `rows.dfy` (`Rows`): a row is a `map<string, string>`; the sort direction is `Asc | Dsc`.
- `sorting.dfy` (`Sorting`): the stable sort that `Array.prototype.sort` performs with the handler's comparator, written as an insertion sort. Lemmas prove that it is a permutation, that it is ordered, and that it is stable.
- `filtering.dfy` (`Filtering`): the case-insensitive substring filter and its properties.
- `chunking.dfy` (`Chunking`): `_chunkData` as a loop, proved equal to the specification function `Chunks`, plus lemmas about `Chunks`.
- `render.dfy` (`Render`): header, search and body cells as data (`HeaderCell`, `FilterCell`, rows of cell texts), the paginator window rule and the page list.
- `table.dfy` (`Table`): class `DataTable`, whose fields mirror `this.*`, with one method per handler, the paginator, `Render`, and `Create` for construction.

A handler returns `ok == false` exactly where the JavaScript code throws a `TypeError`. The state it leaves is whatever the code had already written before the throw.

Two invariants hold on every state the widget reaches. `DataTable.Valid`: when a paginated table shows rows, `pageNo` indexes an existing chunk. `DataTable.WindowInRange`: once rendered, a paginated table's window `[lo, hi]` satisfies `1 <= lo <= hi <= pages` and `hi - lo <= 5`. `Create` establishes both, every handler keeps them, and `Render` also shows that the window contains the current page.

Where the code and the widget's documented behaviour disagree, the model follows the code:

- `_sort` and `_filterBySearchKey` work on `this.data`, which holds only the current page. They do not work on the whole dataset.
- A search with an empty key shows the raw chunk again, so it also discards any sort order.
- `_chunkData` drops a trailing partial chunk. A paginated list shorter than `pageSize` therefore has no chunks, `data` becomes `undefined`, and the first render throws. `Create` returns `None` in that case, so the initial view is never `min(pageSize, |list|)` rows.
- "Next" increments while `pageNo < chunkedData.length`, so it can reach a page index that has no chunk.
- A page-number click is not clamped.
- A cell whose row lacks the column key shows the text `undefined`. It is not empty.
- The constructor's first render recentres the window. After constructing a paginated table the window is `[1, min(6, pages)]`, not `[1, 5]`.

`Table.PageScopedSortExample` traces the two-row, one-row-per-page case. Sorting page 1 leaves it `[Chad]`. Page 2 shows `[Benin]`. A second sort on the same column switches the direction to `Dsc`.

## Model

| member | source | states |
|---|---|---|
| `Chunking.ChunkData` | table.js:34-48 | the loop that fills a buffer and emits it when it reaches `size` rows returns exactly `Chunks(list, size)` |
| `Chunking.ChunksHaveSize` | table.js:41-44 | every chunk holds exactly `size` rows |
| `Chunking.ChunksCount` | table.js:34-48 | the number of chunks is the list length divided by `size`, rounded down |
| `Chunking.ChunksConcat` | table.js:34-48 | the chunks concatenated are the list's first (length / `size`) * `size` rows in order, so the remainder is dropped |
| `Chunking.ChunksEmpty` | table.js:27-32 | there are no chunks exactly when the list is shorter than `size` |
| `Strings.StrLessIrreflexive` | table.js:269-272 | no string is `<` itself, so the comparator returns 0 for equal values |
| `Strings.StrLessTransitive` | table.js:269-278 | string `<` is transitive |
| `Strings.StrLessTotal` | table.js:269-278 | two different strings are ordered one way or the other, so the comparator is consistent |
| `Strings.StrLess` | table.js:269-278 | JavaScript's `<` on two strings, specified by `StrLessIrreflexive`, `StrLessTransitive` and `StrLessTotal` |
| `Strings.Lower` | table.js:247 | `toLowerCase` on ASCII letters; `MatchesIgnoresKeyCase` states what the filter relies on |
| `Strings.IndexOf` | table.js:247 | `indexOf` is greater than -1 iff the needle occurs, and then it is the first occurrence |
| `Sorting.Precedes` | table.js:267-280 | the comparator's "strictly before" for each direction; `StableSortOrdered` and `StableSortStable` state the order it yields |
| `Sorting.StableSort` | table.js:267-283 | the sorted rows are a permutation of the shown rows |
| `Sorting.StableSortOrdered` | table.js:267-281 | the result is non-decreasing by `row[col]` for asc and non-increasing for dsc |
| `Sorting.StableSortStable` | table.js:273-279 | for every value, the rows holding it keep their input order, because the comparator returns 0 on ties |
| `Sorting.InsertOrdered` | table.js:267-281 | inserting a row before the first row that does not strictly precede it keeps the order |
| `Sorting.InsertKeyFilter` | table.js:273-279 | that insertion never moves a row past another row with the same value |
| `Filtering.Matches` | table.js:247 | the filter callback; `MatchesIsSubstring` and `MatchesIgnoresKeyCase` state its meaning |
| `Filtering.FilterRows` | table.js:246-248 | the filtered rows are no more than the base rows and all come from them |
| `Filtering.FilterRowsMembers` | table.js:246-248 | a row is kept iff it is a base row and its lowercased value contains the lowercased key |
| `Filtering.FilterRowsCount` | table.js:246-248 | a matching row is kept as often as it occurs, and a non-matching row never is |
| `Filtering.FilterRowsSubsequence` | table.js:246-248 | the kept rows are in base order |
| `Filtering.FilterRowsIdempotent` | table.js:240-249 | repeating a search on the same column with the same key keeps every row |
| `Filtering.FilterRowsCommute` | table.js:240-249 | narrowing twice on one column gives the same rows in either key order |
| `Filtering.MatchesIsSubstring` | table.js:247 | a row matches iff the lowercased key is a substring of the lowercased value |
| `Filtering.MatchesIgnoresKeyCase` | table.js:247 | the key's letter case does not matter |
| `Render.SortIcon` | table.js:94-103 | ↑ for asc, ↓ otherwise; `HeaderIndicator` states where it appears |
| `Render.HeaderCellOf` | table.js:73-92 | one header cell; `HeaderIndicator` states its indicator and label |
| `Render.SearchFilterOf` | table.js:55-71 | one search cell; `SearchInputText` states when it has an input and what it holds |
| `Render.CellText` | table.js:52 | one body cell's text; `BodyCell` states it is the row's value under the column key |
| `Render.TableHeaders` | table.js:138 | one header cell per column, in column order |
| `Render.SearchFilters` | table.js:136 | one search cell per column, in column order |
| `Render.RowCells` | table.js:51-53 | one cell per column in column order, holding the row's value under the column key, or `undefined` |
| `Render.TableRows` | table.js:140 | one body row per shown record, in order |
| `Render.HeaderIndicator` | table.js:73-103 | a sortable column shows ↑ iff it is the active asc column, ↓ iff it is the active dsc column, and ↕ otherwise; other columns show no indicator |
| `Render.OneActiveIndicator` | table.js:82 | with distinct column keys, at most one header shows ↑ or ↓ |
| `Render.SearchInputText` | table.js:55-71 | only searchable columns have an input, pre-filled with the key on the active filter column and empty elsewhere |
| `Render.BodyCell` | table.js:51-53 | body cell `(i, j)` is row `i`'s value under column `j`'s key |
| `Render.NextWindow` | table.js:150-153 | the recentring rule; `NextWindowRecentres` and `NextWindowShowsCurrent` state its effect |
| `Render.NextWindowRecentres` | table.js:150-153 | a current page at or beyond either end resets the window to `[current, min(current + 5, pages)]`; otherwise the window is unchanged |
| `Render.NextWindowShowsCurrent` | table.js:150-153 | a window within `1..pages` and at most five wide keeps both properties and contains any valid current page |
| `Render.PageList` | table.js:154-158 | the page links of the window; `PageListShape` states their numbers and marks |
| `Render.PaginatorControls` | table.js:154-162 | the window's page links, then the ellipsis, then the last page; `DataTable.Paginator` is proved to build exactly this |
| `Render.PaginatorBar` | table.js:121-131 | "< Previous", the paginator entries, then "Next >", on every table; `DataTable.Render` is proved to emit it |
| `Render.PageListShape` | table.js:154-158 | the page links are `lo..hi` in order, and `curr-page` marks exactly the current page |
| `Render.RecentreExample` | table.js:150-153 | on 12 pages with window `[1, 5]`, moving to page 6 recentres to `[6, 11]` |
| `Table.Flip` | table.js:3-6 | `sortOrderMap`; `NextOrderCases` states that it changes the direction |
| `Table.NextOrder` | table.js:260-265 | the direction after a click; `NextOrderCases` and `SortClicksOnFreshColumn` state it |
| `Table.NextOrderCases` | table.js:260-265 | a click on the sorted column flips the direction through `sortOrderMap`; a click on another column sets `asc` |
| `Table.SortClicksOnFreshColumn` | table.js:3-6 | two clicks on a fresh column end at `dsc`, and a third returns to `asc` |
| `Table.DataTable.constructor` | table.js:8-32 | initial state: window `[1, 5]`, sort `('', asc)`, filter `('', '')`, `pageNo = 0`, `data` the whole list or `chunkedData[0]` |
| `Table.Create` | table.js:21-32 | construction fails iff `columns` or `list` is empty, the container is absent, or the first render throws on a list shorter than `pageSize`; otherwise `data` holds the first `pageSize` rows (or all rows), the window is `[1, min(6, pages)]`, and `WindowInRange` holds |
| `Table.DataTable.Sort` | table.js:257-285 | throws iff `data` is `undefined`; otherwise it updates the direction as above and replaces `data` by its stable sort, a permutation ordered by the column; page and filter are unchanged; `Valid` and `WindowInRange` are kept |
| `Table.DataTable.FilterBySearchKey` | table.js:231-255 | a new column first resets to the raw current page; a non-empty key keeps exactly the matching base rows; an empty key restores the raw chunk; `filterDetails` becomes `(col, key)` once the code gets that far; each throw is stated; `Valid` and `WindowInRange` are kept |
| `Table.DataTable.SetPageData` | table.js:225-229 | `data` becomes `chunkedData[pageNo]`, or `undefined` outside the chunks; `Valid` holds afterwards, whatever `pageNo` the handler set |
| `Table.DataTable.PageNav` | table.js:208-216 | previous never goes below 0; next increments while `pageNo < chunkedData.length`, so "next" on the last page reaches a page with no rows; `data` is the raw chunk; sort and filter are unchanged; `Valid` and `WindowInRange` are kept |
| `Table.DataTable.PageNoClick` | table.js:218-223 | `pageNo = n - 1` without clamping, and `data` is that chunk; nothing else changes; `Valid` and `WindowInRange` are kept |
| `Table.DataTable.Paginator` | table.js:142-166 | when paginated, the window is recentred in place and the controls are its pages, then the ellipsis, then the last page; when unpaginated, no controls and no change |
| `Table.DataTable.Render` | table.js:105-134 | the view is the search row, header row, body and paginator of the current state; the paginator bar always has "< Previous" and "Next >" around the page entries; the recentred window contains the current page, and a window within `1..pages` and at most six pages wide stays so; it fails, without touching the window, when `data` is `undefined` |

## Left out

- DOM and event plumbing (table.js:168-206): `_updateDom`, `container.innerHTML`, `_addEvents`, `attachEvents` and the listeners that read `e.target.dataset` and `e.which`. Handlers take the column, key or page number directly. The "Enter key only" test is a condition on calling `FilterBySearchKey`.
- The re-render that ends every handler in the source. It is the separate method `DataTable.Render`, which the event router calls after each handler. The window therefore changes in `Render`, not in the handlers.
- Exact markup and whitespace of the template literals. The view is structural: cells, indicator values and page entries. The source does not escape values, and the model inserts them verbatim as well.
- `index.js` as a whole: `fetchData` is network I/O; `buildTable` does a DOM lookup and then constructs the widget; `processResponse` is a field projection.
- Numeric cell values. Every column holds strings, compared with JavaScript's string `<`. A number column such as `population` would be compared numerically by the source.
- Unicode case mapping. `toLowerCase` is modelled on ASCII letters only. Strings are compared by Dafny `char`, not by UTF-16 code unit, so the model may differ from the source on characters outside the Basic Multilingual Plane.
- `DataTable.Sort`: requires every shown row to hold the column. With a missing value, the source's comparator is inconsistent and the order is up to the engine.
- `DataTable.PageNav`, `DataTable.PageNoClick`, `DataTable.SetPageData`: require a paginated table. Without `chunkedData` these throw in the source.
- `Create`: `pageSize` is a natural number, with 0 for "absent". Negative or non-integer sizes are not modelled.
- `Create`: `options.pageNo` is not modelled. An unpaginated table starts at page 0. Its page number is read and written (by `getPaginator` and the page handlers), but it never affects the view.
- The assignment of the arrow-function handlers to globals. They are methods of the one `DataTable` object.
