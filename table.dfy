/**
 * The `DataTable` widget: the view state its event handlers change, the
 * paginator that recentres its window while rendering, and construction.
 * Each handler returns `ok == false` where the JavaScript code throws a
 * `TypeError`; the state is then whatever the code had written before the
 * throw.
 */
module Table {
  import opened Wrappers
  import opened Rows
  import opened Sorting
  import opened Filtering
  import opened Chunking
  import opened Render

  /** `chunkedData[i]`: the chunk, or `undefined` (None) outside the array. */
  function PageAt(chunks: seq<seq<Row>>, i: int): Option<seq<Row>> {
    if 0 <= i < |chunks| then Some(chunks[i]) else None
  }

  /** `sortOrderMap`. */
  function Flip(o: Order): Order {
    match o
    case Asc => Dsc
    case Dsc => Asc
  }

  /** The direction after a click on the indicator of `col`. */
  function NextOrder(sortCol: string, order: Order, col: string): Order {
    if sortCol == col then Flip(order) else Asc
  }

  /** Clicking the active column flips the direction; clicking another column starts at asc. */
  lemma NextOrderCases(sortCol: string, order: Order, col: string)
    ensures sortCol == col ==> NextOrder(sortCol, order, col) != order
    ensures sortCol != col ==> NextOrder(sortCol, order, col) == Asc
  {
  }

  /** Two clicks on a column that was not the sorted one end at dsc; a third returns to asc. */
  lemma SortClicksOnFreshColumn(sortCol: string, order: Order, col: string)
    requires sortCol != col
    ensures NextOrder(col, NextOrder(sortCol, order, col), col) == Dsc
    ensures NextOrder(col, NextOrder(col, NextOrder(sortCol, order, col), col), col) == Asc
  {
  }

  /** The rows the search handler filters: a change of column first resets to the raw current page. */
  function Rebased(prevCol: string, col: string, data: Option<seq<Row>>,
                   chunks: Option<seq<seq<Row>>>, pageNo: int): Option<seq<Row>>
  {
    if prevCol != col && chunks.Some? then PageAt(chunks.value, pageNo) else data
  }

  /** The search handler gets as far as recording the new filter: it did not throw on the way. */
  predicate FilterRecorded(prevCol: string, col: string, data: Option<seq<Row>>,
                           chunks: Option<seq<seq<Row>>>, pageNo: int)
  {
    (prevCol == col || chunks.Some?) && Rebased(prevCol, col, data, chunks, pageNo).Some?
  }

  class DataTable {
    /** The column descriptors, fixed for the widget's life. */
    const columns: seq<Column>
    /** `pageSize`; 0 stands for the option being absent. */
    const pageSize: nat
    /** `chunkedData`; None when the table is not paginated. */
    const chunkedData: Option<seq<seq<Row>>>
    /** `paginatorWindow`, the pair `[first, last]` that rendering rewrites in place. */
    const paginatorWindow: array<int>
    /** `data`, the rows shown; None is `undefined`. */
    var data: Option<seq<Row>>
    var pageNo: int
    /** `sortDetails`. */
    var sortCol: string
    var sortOrder: Order
    /** `filterDetails`. */
    var filterCol: string
    var searchKey: string

    /** The shape of the state: a two-slot window, and chunks of `pageSize` rows exactly when paginated. */
    ghost predicate WellFormed()
      reads this
    {
      && paginatorWindow.Length == 2
      && (chunkedData.Some? <==> pageSize > 0)
      && (chunkedData.Some? ==> forall c | c in chunkedData.value :: |c| == pageSize)
    }

    /** Between handlers: rows shown on a paginated table are those of an existing page. */
    ghost predicate Valid()
      reads this
    {
      && WellFormed()
      && (chunkedData.Some? && data.Some? ==> 0 <= pageNo < |chunkedData.value|)
    }

    function CurrentWindow(): Window
      reads this, paginatorWindow
      requires Valid()
    {
      Window(paginatorWindow[0], paginatorWindow[1])
    }

    /**
     * The window of a rendered, paginated table lies within its pages and
     * spans at most six of them. The constructor's `[1, 5]` need not: the
     * first render establishes it.
     */
    ghost predicate WindowInRange()
      reads this, paginatorWindow
    {
      && Valid()
      && (chunkedData.Some? ==>
            1 <= CurrentWindow().lo <= CurrentWindow().hi <= |chunkedData.value|
            && CurrentWindow().hi - CurrentWindow().lo <= 5)
    }

    /** The state set up by `new DataTable(...)` once the argument check has passed. */
    constructor (columns: seq<Column>, list: seq<Row>, pageSize: nat)
      requires |columns| > 0 && |list| > 0
      ensures Valid() && fresh(paginatorWindow)
      ensures this.columns == columns && this.pageSize == pageSize
      ensures CurrentWindow() == Window(1, 5)
      ensures pageNo == 0
      ensures sortCol == "" && sortOrder == Asc && filterCol == "" && searchKey == ""
      ensures pageSize == 0 ==> chunkedData == None && data == Some(list)
      ensures pageSize > 0 ==> chunkedData == Some(Chunks(list, pageSize)) && data == PageAt(Chunks(list, pageSize), 0)
    {
      var chunks: Option<seq<seq<Row>>> := None;
      var visible := Some(list);
      if pageSize > 0 {
        var c := ChunkData(list, pageSize);
        ChunksHaveSize(list, pageSize);
        chunks := Some(c);
        visible := PageAt(c, 0);
      }
      var w := new int[2];
      w[0], w[1] := 1, 5;
      this.columns := columns;
      this.pageSize := pageSize;
      chunkedData := chunks;
      paginatorWindow := w;
      data := visible;
      pageNo := 0;
      sortCol, sortOrder := "", Asc;
      filterCol, searchKey := "", "";
    }

    /** `_sort(col)`: sets the direction and stably sorts the shown rows by `col`. */
    method Sort(col: string) returns (ok: bool)
      requires Valid()
      requires data.Some? ==> HasKey(data.value, col)
      modifies this
      ensures Valid()
      ensures ok == old(data).Some?
      ensures !ok ==> data == old(data) && sortCol == old(sortCol) && sortOrder == old(sortOrder)
      ensures ok ==> sortCol == col && sortOrder == NextOrder(old(sortCol), old(sortOrder), col)
      ensures ok ==> data == Some(StableSort(old(data).value, col, sortOrder))
      ensures ok ==> multiset(data.value) == multiset(old(data).value)
      ensures ok ==> HasKey(data.value, col) && Ordered(data.value, col, sortOrder)
      ensures old(WindowInRange()) ==> WindowInRange()
      ensures pageNo == old(pageNo) && filterCol == old(filterCol) && searchKey == old(searchKey)
    {
      ok := data.Some?;
      if !ok {
        return;
      }
      var listData := data.value;
      if sortCol == col {
        sortOrder := Flip(sortOrder);
      } else {
        sortCol := col;
        sortOrder := Asc;
      }
      StableSortOrdered(listData, col, sortOrder);
      data := Some(StableSort(listData, col, sortOrder));
    }

    /** `_filterBySearchKey(key, col)`. */
    method FilterBySearchKey(key: string, col: string) returns (ok: bool)
      requires Valid()
      modifies this
      ensures Valid()
      ensures old(WindowInRange()) ==> WindowInRange()
      ensures pageNo == old(pageNo) && sortCol == old(sortCol) && sortOrder == old(sortOrder)
      ensures FilterRecorded(old(filterCol), col, old(data), chunkedData, pageNo) ==>
        filterCol == col && searchKey == key
      ensures !FilterRecorded(old(filterCol), col, old(data), chunkedData, pageNo) ==>
        filterCol == old(filterCol) && searchKey == old(searchKey)
      ensures ok <==>
        && FilterRecorded(old(filterCol), col, old(data), chunkedData, pageNo)
        && if key != "" then HasKey(Rebased(old(filterCol), col, old(data), chunkedData, pageNo).value, col)
           else chunkedData.Some?
      ensures ok && key != "" ==>
        data == Some(FilterRows(Rebased(old(filterCol), col, old(data), chunkedData, pageNo).value, col, key))
      ensures ok && key == "" ==> data == PageAt(chunkedData.value, pageNo)
      ensures !ok ==> data == Rebased(old(filterCol), col, old(data), chunkedData, pageNo)
    {
      if filterCol != col {
        if chunkedData.None? {
          // reading `chunkedData[pageNo]` of an unpaginated table throws
          return false;
        }
        data := PageAt(chunkedData.value, pageNo);
      }
      if data.None? {
        // spreading `undefined` throws
        return false;
      }
      var listData := data.value;
      filterCol := col;
      searchKey := key;
      if key != "" {
        if !HasKey(listData, col) {
          // `undefined.toLowerCase()` throws
          return false;
        }
        data := Some(FilterRows(listData, col, key));
      } else {
        if chunkedData.None? {
          return false;
        }
        data := PageAt(chunkedData.value, pageNo);
      }
      ok := true;
    }

    /** `setPageData`: shows the raw chunk of the current page. */
    method SetPageData()
      requires WellFormed() && chunkedData.Some?
      modifies this`data
      ensures Valid()
      ensures data == PageAt(chunkedData.value, pageNo)
      ensures data.Some? ==> |data.value| == pageSize
    {
      data := PageAt(chunkedData.value, pageNo);
    }

    /** `pageNavHandler`: "previous" or "next". */
    method PageNav(previous: bool)
      requires Valid() && chunkedData.Some?
      modifies this
      ensures Valid()
      ensures previous ==> pageNo == if old(pageNo) > 0 then old(pageNo) - 1 else old(pageNo)
      ensures !previous ==> pageNo == if old(pageNo) < |chunkedData.value| then old(pageNo) + 1 else old(pageNo)
      ensures 0 <= old(pageNo) <= |chunkedData.value| ==> 0 <= pageNo <= |chunkedData.value|
      ensures !previous && old(pageNo) == |chunkedData.value| - 1 ==> pageNo == |chunkedData.value| && data == None
      ensures data == PageAt(chunkedData.value, pageNo)
      ensures data.Some? ==> |data.value| == pageSize
      ensures sortCol == old(sortCol) && sortOrder == old(sortOrder)
      ensures filterCol == old(filterCol) && searchKey == old(searchKey)
      ensures old(WindowInRange()) ==> WindowInRange()
    {
      if previous {
        pageNo := if pageNo > 0 then pageNo - 1 else pageNo;
      } else {
        pageNo := if pageNo < |chunkedData.value| then pageNo + 1 else pageNo;
      }
      SetPageData();
    }

    /** `pageNoClickHandler`: a click on the page link numbered `n`. */
    method PageNoClick(n: int)
      requires Valid() && chunkedData.Some?
      modifies this
      ensures Valid()
      ensures pageNo == n - 1
      ensures data == PageAt(chunkedData.value, n - 1)
      ensures 1 <= n <= |chunkedData.value| ==> data == Some(chunkedData.value[n - 1])
      ensures sortCol == old(sortCol) && sortOrder == old(sortOrder)
      ensures filterCol == old(filterCol) && searchKey == old(searchKey)
      ensures old(WindowInRange()) ==> WindowInRange()
    {
      pageNo := n - 1;
      SetPageData();
    }

    /** `getPaginator`: recentres the window in place, then lists its pages and the last page. */
    method Paginator() returns (controls: seq<PageControl>)
      requires Valid()
      modifies paginatorWindow
      ensures chunkedData.None? ==> controls == [] && CurrentWindow() == old(CurrentWindow())
      ensures chunkedData.Some? ==>
        CurrentWindow() == NextWindow(old(CurrentWindow()), pageNo + 1, |chunkedData.value|)
      ensures chunkedData.Some? ==>
        controls == PaginatorControls(CurrentWindow(), pageNo + 1, |chunkedData.value|)
    {
      controls := [];
      if chunkedData.Some? {
        var noOfPages := |chunkedData.value|;
        var current := pageNo + 1;
        if current >= paginatorWindow[1] || current <= paginatorWindow[0] {
          paginatorWindow[0] := current;
          paginatorWindow[1] := if current + 5 < noOfPages then current + 5 else current + (noOfPages - current);
        }
        var lo, hi := paginatorWindow[0], paginatorWindow[1];
        var i := lo;
        while i <= hi
          invariant lo <= i && (i <= hi + 1 || i == lo)
          invariant controls == PageList(lo, i - 1, current)
          decreases hi - i
        {
          controls := controls + [PageLink(i, current == i)];
          i := i + 1;
        }
        controls := controls + [Ellipsis, PageLink(noOfPages, false)];
      }
    }

    /** `render`: the view of the current state; None where reading `data.map` of `undefined` throws. */
    method Render() returns (v: Option<View>)
      requires Valid()
      modifies paginatorWindow
      ensures data.None? ==> v == None && CurrentWindow() == old(CurrentWindow())
      ensures data.Some? ==> v.Some?
      ensures data.Some? ==> v.value.filters == SearchFilters(columns, filterCol, searchKey)
      ensures data.Some? ==> v.value.headers == TableHeaders(columns, sortCol, sortOrder)
      ensures data.Some? ==> v.value.body == TableRows(columns, data.value)
      ensures data.Some? && chunkedData.None? ==>
        v.value.paginator == PaginatorBar([]) && CurrentWindow() == old(CurrentWindow())
      ensures data.Some? && chunkedData.Some? ==>
        CurrentWindow() == NextWindow(old(CurrentWindow()), pageNo + 1, |chunkedData.value|)
      ensures data.Some? && chunkedData.Some? ==>
        v.value.paginator == PaginatorBar(PaginatorControls(CurrentWindow(), pageNo + 1, |chunkedData.value|))
      ensures data.Some? && chunkedData.Some? ==> CurrentWindow().lo <= pageNo + 1 <= CurrentWindow().hi
      ensures old(WindowInRange()) ==> WindowInRange()
    {
      if data.None? {
        return None;
      }
      ghost var before := CurrentWindow();
      var filters := SearchFilters(columns, filterCol, searchKey);
      var headers := TableHeaders(columns, sortCol, sortOrder);
      var shown := data.value;
      var body := TableRows(columns, shown);
      var pages := Paginator();
      assert data == Some(shown);
      if chunkedData.Some? && old(WindowInRange()) {
        NextWindowShowsCurrent(before, pageNo + 1, |chunkedData.value|);
      }
      v := Some(View(filters, headers, body, PaginatorBar(pages)));
    }
  }

  /**
   * `new DataTable(columns, list, container, {pageSize})` followed by its first
   * render: None where the constructor throws.
   */
  method Create(columns: seq<Column>, list: seq<Row>, hasContainer: bool, pageSize: nat)
    returns (t: Option<DataTable>)
    ensures t.None? <==> |columns| == 0 || |list| == 0 || !hasContainer || (pageSize > 0 && |list| < pageSize)
    ensures t.Some? ==> fresh(t.value) && fresh(t.value.paginatorWindow) && t.value.WindowInRange()
    ensures t.Some? ==> t.value.columns == columns && t.value.pageSize == pageSize && t.value.pageNo == 0
    ensures t.Some? ==> t.value.sortCol == "" && t.value.sortOrder == Asc
    ensures t.Some? ==> t.value.filterCol == "" && t.value.searchKey == ""
    ensures t.Some? ==> t.value.data == Some(if pageSize > 0 then list[..pageSize] else list)
    ensures t.Some? && pageSize == 0 ==> t.value.chunkedData == None && t.value.CurrentWindow() == Window(1, 5)
    ensures t.Some? && pageSize > 0 ==>
      && t.value.chunkedData == Some(Chunks(list, pageSize))
      && t.value.CurrentWindow() == Window(1, if 6 < |list| / pageSize then 6 else |list| / pageSize)
  {
    if |columns| < 1 || |list| < 1 || !hasContainer {
      return None;
    }
    var table := new DataTable(columns, list, pageSize);
    if pageSize > 0 {
      ChunksEmpty(list, pageSize);
      ChunksCount(list, pageSize);
    }
    var view := table.Render();
    if view.None? {
      return None;
    }
    t := Some(table);
  }

  /**
   * The widget sorts and filters only the rows on the current page, and a
   * page change shows the raw chunk again.
   */
  method PageScopedSortExample() {
    var chad := map["name" := "Chad", "population" := "100"];
    var benin := map["name" := "Benin", "population" := "50"];
    var columns := [Column("name", "Name", true, true), Column("population", "Population", true, false)];
    var t := Create(columns, [chad, benin], true, 1);
    var table := t.value;
    assert [chad, benin][..1] == [chad];
    var ok := table.Sort("name");
    assert [chad][1..] == [];
    assert table.data == Some([chad]);
    assert [chad, benin][1..] == [benin] && [benin][..1] == [benin] && [benin][1..] == [];
    assert Chunks<Row>([], 1) == [];
    assert Chunks([benin], 1) == [[benin]];
    assert Chunks([chad, benin], 1) == [[chad], [benin]];
    table.PageNoClick(2);
    assert table.data == Some([benin]);
    ok := table.Sort("name");
    assert table.sortOrder == Dsc;
  }
}
