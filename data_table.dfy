/**
 * The pagination adapter and body dispatch of the generic data table
 * (src/components/shared/data-table.tsx). The table library's row models
 * (sorting, filtering, slicing into pages) are not modelled; the adapter's own
 * state is the internal pagination and the callbacks it makes.
 */
module DataTable {
  import opened Wrappers

  const DEFAULT_PAGE_SIZE: nat := 10
  const SKELETON_ROWS: nat := 5

  /** Pagination as the table library sees it: a 0-based page index and a page size. */
  datatype PaginationState = PaginationState(pageIndex: int, pageSize: nat)

  /**
   * The `pagination` prop: a 1-based page index, the page size, the total
   * number of rows on the server, and whether `onPageSizeChange` is supplied.
   */
  datatype ExternalPagination = ExternalPagination(pageIndex: int, pageSize: nat, rowCount: nat, hasPageSizeCallback: bool)

  /** What the table hands to `onPaginationChange`: a function of the current state, or a new state. */
  datatype Updater = Apply(f: PaginationState -> PaginationState) | Replace(state: PaginationState)

  /** A call the adapter makes to the `pagination` prop's callbacks. */
  datatype PaginationCall = PageChange(pageIndex: int) | PageSizeChange(pageSize: nat)

  /** `Math.ceil(rows / pageSize)`; a zero page size gives NaN (no rows) or Infinity. */
  datatype PageCount = Pages(n: nat) | Infinite | NotANumber

  /** The number of pages needed to show `rows` rows, `pageSize` at a time. */
  function CeilPages(rows: nat, pageSize: nat): (r: PageCount)
    ensures pageSize > 0 ==> r.Pages? && r.n * pageSize >= rows && (r.n == 0 || (r.n - 1) * pageSize < rows)
    ensures pageSize > 0 ==> (r.n == 0 <==> rows == 0)
    ensures pageSize == 0 ==> r == if rows == 0 then NotANumber else Infinite
  {
    if pageSize == 0 then (if rows == 0 then NotANumber else Infinite)
    else
      var q := (rows + pageSize - 1) / pageSize;
      CeilDivBounds(rows, pageSize);
      Pages(q)
  }

  lemma CeilDivBounds(rows: nat, pageSize: nat)
    requires pageSize > 0
    ensures var q := (rows + pageSize - 1) / pageSize;
      q * pageSize >= rows && (q == 0 || (q - 1) * pageSize < rows) && (q == 0 <==> rows == 0)
  {
    var q := (rows + pageSize - 1) / pageSize;
    var rem := (rows + pageSize - 1) % pageSize;
    assert q * pageSize + rem == rows + pageSize - 1;
    assert (q - 1) * pageSize == q * pageSize - pageSize;
  }

  /** The 1-based page index of the prop as the table's 0-based index, and back. */
  function ToTableIndex(propIndex: int): int { propIndex - 1 }
  function ToPropIndex(tableIndex: int): int { tableIndex + 1 }

  /** The state a function updater is applied to in external mode: the prop's page made 0-based. */
  function UpdaterInput(ext: ExternalPagination): PaginationState {
    PaginationState(ToTableIndex(ext.pageIndex), ext.pageSize)
  }

  /** The pagination state handed to the table in external mode: the prop itself, still 1-based. */
  function ExternalTableState(ext: ExternalPagination): PaginationState {
    PaginationState(ext.pageIndex, ext.pageSize)
  }

  /** The callbacks an external-mode pagination change makes: the new page (1-based), then the page size if that callback exists. */
  function ExternalCalls(ext: ExternalPagination, updater: Updater): (calls: seq<PaginationCall>)
    ensures |calls| == if ext.hasPageSizeCallback then 2 else 1
    ensures updater.Replace? ==> calls[0] == PageChange(ToPropIndex(updater.state.pageIndex))
    ensures updater.Apply? ==> calls[0] == PageChange(ToPropIndex(updater.f(UpdaterInput(ext)).pageIndex))
    ensures ext.hasPageSizeCallback && updater.Replace? ==> calls[1] == PageSizeChange(updater.state.pageSize)
    ensures ext.hasPageSizeCallback && updater.Apply? ==> calls[1] == PageSizeChange(updater.f(UpdaterInput(ext)).pageSize)
  {
    var newState := match updater
      case Apply(f) => f(UpdaterInput(ext))
      case Replace(state) => state;
    [PageChange(ToPropIndex(newState.pageIndex))]
      + (if ext.hasPageSizeCallback then [PageSizeChange(newState.pageSize)] else [])
  }

  /**
   * In external mode the table is handed the prop's 1-based page index as its
   * state, while a function updater is applied to the 0-based one. The two
   * disagree by one, so a value updater built from the table's own state
   * ("its page index plus one") reports a page two ahead of the prop's.
   */
  lemma TableStateAheadOfUpdaterInput(ext: ExternalPagination)
    ensures ExternalTableState(ext).pageIndex == UpdaterInput(ext).pageIndex + 1
    ensures ExternalTableState(ext).pageSize == UpdaterInput(ext).pageSize
    ensures var next := ExternalTableState(ext).(pageIndex := ExternalTableState(ext).pageIndex + 1);
      ExternalCalls(ext, Replace(next))[0] == PageChange(ext.pageIndex + 2)
  {
  }

  /** An updater that keeps the state reports the page and size the prop already has. */
  lemma IdentityUpdaterKeepsPage(ext: ExternalPagination)
    requires ext.hasPageSizeCallback
    ensures ExternalCalls(ext, Apply(s => s)) == [PageChange(ext.pageIndex), PageSizeChange(ext.pageSize)]
  {
  }

  /** The table's "next page" updater moves the prop's page forward by one. */
  lemma NextPageUpdater(ext: ExternalPagination)
    ensures ExternalCalls(ext, Apply((s: PaginationState) => s.(pageIndex := s.pageIndex + 1)))[0] == PageChange(ext.pageIndex + 1)
  {
  }

  /** What the table body shows. */
  datatype BodyRows =
    | SkeletonRows(rows: nat, cellsPerRow: nat)
    | DataRows(count: nat)
    | NoResultsRow(colSpan: nat)

  /** Five placeholder rows while loading; else the rows, or one "No results." row across all columns. */
  function Body(loading: bool, rowCount: nat, columnCount: nat): (b: BodyRows)
    ensures b.SkeletonRows? <==> loading
    ensures b.SkeletonRows? ==> b.rows == SKELETON_ROWS && b.cellsPerRow == columnCount
    ensures b.DataRows? ==> b.count == rowCount && rowCount > 0
    ensures b.NoResultsRow? <==> !loading && rowCount == 0
    ensures b.NoResultsRow? ==> b.colSpan == columnCount
  {
    if loading then SkeletonRows(SKELETON_ROWS, columnCount)
    else if rowCount > 0 then DataRows(rowCount)
    else NoResultsRow(columnCount)
  }

  /** How a body cell is rendered, chosen by its column's header (`None` when the header is not text). */
  datatype CellKind = StatusCell | ActionCell | DefaultCell

  function CellKindFor(header: Option<string>): (k: CellKind)
    ensures k == StatusCell <==> header == Some("Status")
    ensures k == ActionCell <==> header == Some("Action")
  {
    if header == Some("Status") then StatusCell
    else if header == Some("Action") then ActionCell
    else DefaultCell
  }

  /** The adapter's state for one table: the props it was given and the internal pagination it keeps. */
  class DataGrid {
    const external: Option<ExternalPagination>
    const dataLength: nat
    var internalPagination: PaginationState
    var calls: seq<PaginationCall>

    constructor (pagination: Option<ExternalPagination>, dataLength: nat)
      ensures external == pagination && this.dataLength == dataLength
      ensures internalPagination == PaginationState(0, DEFAULT_PAGE_SIZE) && calls == []
    {
      external := pagination;
      this.dataLength := dataLength;
      internalPagination := PaginationState(0, DEFAULT_PAGE_SIZE);
      calls := [];
    }

    /** Manual (server-side) pagination is on exactly when the prop is given. */
    predicate IsManual() {
      external.Some?
    }

    /** The page count shown: from the prop's row count in external mode, from the data otherwise. */
    function PageCount(): (r: PageCount)
      reads this
      ensures external.Some? ==> r == CeilPages(external.value.rowCount, external.value.pageSize)
      ensures external.None? ==> r == CeilPages(dataLength, internalPagination.pageSize)
    {
      if external.Some? then CeilPages(external.value.rowCount, external.value.pageSize)
      else CeilPages(dataLength, internalPagination.pageSize)
    }

    /** The pagination state handed to the table: the prop's in external mode, the internal one otherwise. */
    function TableState(): (s: PaginationState)
      reads this
      ensures external.Some? ==> s == ExternalTableState(external.value) && s.pageIndex == UpdaterInput(external.value).pageIndex + 1
      ensures external.None? ==> s == internalPagination
    {
      if external.Some? then ExternalTableState(external.value) else internalPagination
    }

    /** `onPaginationChange`: forwarded to the prop's callbacks in external mode, applied to the internal state otherwise. */
    method OnPaginationChange(updater: Updater)
      modifies this
      ensures external.Some? ==>
        internalPagination == old(internalPagination) && calls == old(calls) + ExternalCalls(external.value, updater)
      ensures external.None? ==> calls == old(calls)
      ensures external.None? && updater.Apply? ==> internalPagination == updater.f(old(internalPagination))
      ensures external.None? && updater.Replace? ==> internalPagination == updater.state
    {
      if external.Some? {
        var ext := external.value;
        var newState := if updater.Apply? then updater.f(UpdaterInput(ext)) else updater.state;
        calls := calls + [PageChange(newState.pageIndex + 1)];
        if ext.hasPageSizeCallback {
          calls := calls + [PageSizeChange(newState.pageSize)];
        }
      } else {
        internalPagination := if updater.Apply? then updater.f(internalPagination) else updater.state;
      }
    }
  }

  /** A fresh internally paginated table over 25 rows shows 3 pages, starting on page index 0. */
  method InternalStart() returns (grid: DataGrid)
    ensures fresh(grid) && !grid.IsManual()
    ensures grid.PageCount() == Pages(3) && grid.TableState() == PaginationState(0, 10)
  {
    grid := new DataGrid(None, 25);
  }
}
