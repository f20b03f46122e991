/**
 * The OppProductsTable component: a paginated, inline-editable grid of opportunity line items.
 * Its reactive fields are the fields of a class; the toasts it dispatches are appended to
 * `toasts`; the backend query and the record-update calls are parameters of the handlers.
 */
module OppProdListView {
  import opened Outcomes
  import opened Records
  import opened Paging
  import opened Payloads

  /** A load failure reported by the backend query. */
  datatype LoadError = LoadError(message: string)

  /** What the wired query delivers: `data`, `error`, both or neither may be set. */
  datatype WireResponse = WireResponse(data: Option<seq<WireRecord>>, error: Option<LoadError>)

  datatype Variant = Success | Warning | Error

  /** A toast notification: title, message and variant. */
  datatype Toast = Toast(title: string, message: string, variant: Variant)

  const SavedToast: Toast := Toast("Success", "Records updated successfully", Success)
  const SaveFailedToast: Toast := Toast("Error", "Error updating records", Error)
  const NoSelectionToast: Toast := Toast("Warning", "Please select at least one record", Warning)

  class OppProductsTable {
    var data: seq<Row>
    var pageNumber: int
    var totalPages: nat
    var pageRecords: seq<Row>
    var isLoading: bool
    var error: Option<LoadError>
    var draftValues: seq<Draft>
    var selectedRows: seq<Row>
    /** Every toast dispatched so far, oldest first. */
    var toasts: seq<Toast>

    /**
     * The shown rows are always the window of the current page, the page number never goes
     * negative, and while there are rows totalPages is their page count. The page number is
     * not kept inside [1, totalPages] (page 0 after lastPage on no data, a stale cursor after
     * a reload that shrank the data), and after a load error empties the data totalPages
     * keeps its old value.
     */
    ghost predicate Valid()
      reads this
    {
      && pageNumber >= 0
      && pageRecords == PageWindow(data, pageNumber)
      && (data == [] || totalPages == TotalPages(|data|))
    }

    constructor ()
      ensures Valid()
      ensures data == [] && pageNumber == 1 && totalPages == 0 && pageRecords == []
      ensures isLoading && error == None && draftValues == [] && selectedRows == [] && toasts == []
    {
      data := [];
      pageNumber := 1;
      totalPages := 0;
      pageRecords := [];
      isLoading := true;
      error := None;
      draftValues := [];
      selectedRows := [];
      toasts := [];
    }

    /** Handler of the wired query: load the data, or on error clear data and shown rows. */
    method WiredOppProducts(response: WireResponse)
      requires Valid()
      modifies this
      ensures Valid()
      ensures !isLoading
      ensures pageNumber == old(pageNumber) && totalPages == (if response.data.Some? then TotalPages(|response.data.value|) else old(totalPages))
      ensures response.data.Some? ==> data == Flatten(response.data.value) && error == None
      ensures response.data.None? && response.error.Some? ==>
        data == [] && pageRecords == [] && error == response.error
      ensures response.data.None? && response.error.None? ==>
        data == old(data) && pageRecords == old(pageRecords) && error == old(error)
      ensures draftValues == old(draftValues) && selectedRows == old(selectedRows) && toasts == old(toasts)
    {
      if response.data.Some? {
        ProcessRecords(response.data.value);
        error := None;
      } else if response.error.Some? {
        error := response.error;
        data := [];
        pageRecords := [];
      }
      isLoading := false;
    }

    /** Replace the data by the flattened records and recount the pages; the cursor stays put. */
    method ProcessRecords(items: seq<WireRecord>)
      requires Valid()
      modifies this`data, this`totalPages, this`pageRecords
      ensures Valid()
      ensures data == Flatten(items)
      ensures totalPages == TotalPages(|items|)
      ensures pageNumber == old(pageNumber)
      ensures pageRecords == PageWindow(data, pageNumber)
      ensures pageNumber > totalPages ==> pageRecords == []
    {
      data := Flatten(items);
      totalPages := TotalPages(|data|);
      UpdatePageRecords();
      if pageNumber > totalPages {
        WindowPastLastPage(data, pageNumber);
      }
    }

    /** Record the rows the user selected, replacing the previous selection. */
    method HandleRowSelection(rows: seq<Row>)
      requires Valid()
      modifies this`selectedRows
      ensures Valid()
      ensures selectedRows == rows
    {
      selectedRows := rows;
    }

    /**
     * Save the drafts: one update per draft, issued all together. `accepts` stands for the
     * backend's verdict on each update, and `refetch` for the reload that follows success.
     * Returns the payloads that were sent.
     */
    method HandleSave(drafts: seq<Draft>, accepts: RecordInput -> bool,
                      refetch: Result<seq<WireRecord>, LoadError>)
      returns (records: seq<RecordInput>)
      requires Valid()
      modifies this
      ensures Valid()
      ensures |records| == |drafts|
      ensures forall i :: 0 <= i < |drafts| ==> records[i] == PayloadFor(drafts[i])
      ensures !isLoading
      ensures pageNumber == old(pageNumber)
      ensures AllAccepted(records, accepts) ==> draftValues == []
      ensures AllAccepted(records, accepts) && refetch.Ok? ==>
        && data == Flatten(refetch.value)
        && totalPages == TotalPages(|refetch.value|)
        && toasts == old(toasts) + [SavedToast]
      ensures AllAccepted(records, accepts) && refetch.Err? ==>
        && data == old(data) && totalPages == old(totalPages)
        && toasts == old(toasts) + [SavedToast, SaveFailedToast]
      ensures !AllAccepted(records, accepts) ==>
        && draftValues == old(draftValues)
        && data == old(data) && totalPages == old(totalPages) && pageRecords == old(pageRecords)
        && toasts == old(toasts) + [SaveFailedToast]
      ensures error == old(error) && selectedRows == old(selectedRows)
    {
      isLoading := true;
      records := BuildPayloads(drafts);
      if AllAccepted(records, accepts) {
        toasts := toasts + [SavedToast];
        draftValues := [];
        match refetch
        case Ok(items) =>
          ProcessRecords(items);
        case Err(_) =>
          toasts := toasts + [SaveFailedToast];
      } else {
        toasts := toasts + [SaveFailedToast];
      }
      isLoading := false;
    }

    /** With nothing selected, warn and stop; the bulk action itself is a placeholder. */
    method HandleBulkAction()
      requires Valid()
      modifies this`toasts
      ensures Valid()
      ensures toasts == if |selectedRows| == 0 then old(toasts) + [NoSelectionToast] else old(toasts)
      ensures HasSelectedRows() <==> toasts == old(toasts) + [NoSelectionToast]
    {
      if |selectedRows| == 0 {
        toasts := toasts + [NoSelectionToast];
        return;
      }
    }

    method PreviousPage()
      requires Valid()
      modifies this`pageNumber, this`pageRecords
      ensures Valid()
      ensures pageNumber == PrevCursor(old(pageNumber))
      ensures old(pageNumber) <= 1 ==> pageRecords == old(pageRecords)
      ensures old(pageNumber) > 1 ==> pageNumber == old(pageNumber) - 1
    {
      if pageNumber > 1 {
        pageNumber := pageNumber - 1;
        UpdatePageRecords();
      }
    }

    method NextPage()
      requires Valid()
      modifies this`pageNumber, this`pageRecords
      ensures Valid()
      ensures pageNumber == NextCursor(old(pageNumber), totalPages)
      ensures old(pageNumber) >= totalPages ==> pageRecords == old(pageRecords)
      ensures old(pageNumber) < totalPages ==> pageNumber == old(pageNumber) + 1
    {
      if pageNumber < totalPages {
        pageNumber := pageNumber + 1;
        UpdatePageRecords();
      }
    }

    method FirstPage()
      requires Valid()
      modifies this`pageNumber, this`pageRecords
      ensures Valid()
      ensures pageNumber == 1 && IsFirstPage()
      ensures old(pageNumber) == 1 ==> pageRecords == old(pageRecords)
    {
      pageNumber := 1;
      UpdatePageRecords();
    }

    /** Jump to page totalPages, which is page 0 when there are no pages. */
    method LastPage()
      requires Valid()
      modifies this`pageNumber, this`pageRecords
      ensures Valid()
      ensures pageNumber == totalPages && IsLastPage()
      ensures totalPages == 0 ==> pageNumber == 0 && pageRecords == []
      ensures old(pageNumber) == totalPages ==> pageRecords == old(pageRecords)
    {
      pageNumber := totalPages;
      UpdatePageRecords();
    }

    /** Recompute the shown rows from the data and the page number. */
    method UpdatePageRecords()
      modifies this`pageRecords
      ensures pageRecords == PageWindow(data, pageNumber)
    {
      pageRecords := JsSlice(data, (pageNumber - 1) * PageSize, pageNumber * PageSize);
    }

    /** On the first page the shown rows are the first PageSize rows (or all, if fewer). */
    function IsFirstPage(): (r: bool)
      reads this
      ensures r && Valid() ==> pageRecords == data[..Min(PageSize, |data|)]
    {
      pageNumber == 1
    }

    /** On the last page of non-empty data the shown rows are the rest of the data. */
    function IsLastPage(): (r: bool)
      reads this
      ensures r && Valid() && data != [] ==>
        1 <= totalPages && pageRecords == data[(totalPages - 1) * PageSize..]
    {
      pageNumber == totalPages
    }

    /**
     * The numbers behind "Showing {start}-{end} of {total} records". From page 1 on they
     * describe the shown rows; on page 0 they read "-99-0".
     */
    function CurrentPageInfo(): (info: PageInfo)
      reads this
      ensures info.total == |data|
      ensures Valid() && pageNumber >= 1 ==> (pageRecords == [] <==> info.end < info.start)
      ensures Valid() && 1 <= info.start <= info.end ==>
        info.end <= |data| && pageRecords == data[info.start - 1 .. info.end]
      ensures pageNumber == 0 ==> info.start == -99 && info.end == 0
      ensures Valid() && pageNumber >= 1 && pageRecords == [] ==>
        info.start == (pageNumber - 1) * PageSize + 1 && info.end == |data|
    {
      if pageNumber >= 1 then
        InfoDescribesWindow(data, pageNumber);
        InfoFor(|data|, pageNumber)
      else
        InfoFor(|data|, pageNumber)
    }

    /** True when NO row is selected: the name says the opposite of what it computes. */
    function HasSelectedRows(): (r: bool)
      reads this
      ensures r <==> selectedRows == []
    {
      |selectedRows| == 0
    }
  }

  /**
   * The component's shown rows follow the page-size rule: with rows present and the cursor on
   * a page in [1, totalPages], every page but the last shows PageSize rows and the last shows
   * the remainder.
   */
  lemma ShownPageSize(t: OppProductsTable)
    requires t.Valid() && t.data != [] && 1 <= t.pageNumber <= t.totalPages
    ensures |t.pageRecords| ==
      if t.pageNumber < t.totalPages then PageSize else |t.data| - (t.totalPages - 1) * PageSize
  {
    WindowSizes(t.data, t.pageNumber);
  }
}
