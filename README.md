# OppProductsTable in Dafny

A model of the `OppProductsTable` Lightning web component. The component shows opportunity line items in a grid, 100 rows per page, and lets the user edit three fields inline and save them back record by record. The model covers the component's logic:

- `Records`: the wire record fetched from the backend, the flat row the grid shows, and the mapping from one to the other.
- `Paging`: pure pagination. It covers the page count (ceiling division by `PageSize = 100`) and `Array.prototype.slice` with JavaScript's index clamping. It also covers the window of a page, the caption numbers, and page-button navigation as a function on the cursor.
- `Payloads`: turning drafts into update payloads (`{ fields }` keyed by backend field names), the loop that builds the batch, and what "the batch succeeded" means.
- `OppProdListView.OppProductsTable`: a class whose fields are the component's reactive state (`data`, `pageNumber`, `totalPages`, `pageRecords`, `isLoading`, `error`, `draftValues`, `selectedRows`). A `toasts` field records every notification dispatched. The handlers are methods that update these fields in place. `Valid()` is the invariant every handler keeps: the shown rows are the current page's window, the page number is never negative, and while there are rows `totalPages` is their page count.

Backend calls are parameters. `WiredOppProducts` takes the wired query's response. `HandleSave` takes a predicate `accepts` that gives the backend's verdict on each update, plus the result of the refetch that follows a successful save.

Edge cases the model keeps as the code has them:

- On a failed save the code leaves `draftValues` as it was and does not reload.
- After a successful save the code refetches. If that refetch fails, a second, error toast follows the success toast and the data is left as it was.
- A reload never resets or clamps `pageNumber`. `lastPage` with no pages sets it to 0.
- A load error clears `data` and `pageRecords` but leaves `totalPages` stale. A stale `totalPages` can only occur while `data` is empty, so `Valid()` ties `totalPages` to `|data|` whenever there are rows.
- `hasSelectedRows` is true when the selection is EMPTY, as written. `HandleBulkAction`'s contract pins this down.

## Model

| member | source | states |
|---|---|---|
| Records.Flatten | force-app/main/default/lwc/oppProdListView/oppProdListView.js:84-95 | one row per wire record, same length and order; each row's `id` and `recordId` are the record's Id; the other fields are copied under their grid names |
| Records.FlattenDistributes | force-app/main/default/lwc/oppProdListView/oppProdListView.js:85-95 | flattening works record by record: flattening `a + b` is flattening `a` followed by flattening `b` |
| Paging.TotalPages | force-app/main/default/lwc/oppProdListView/oppProdListView.js:97 | the page count is the ceiling of count/100: the smallest `t` with `count <= 100 t`, and 0 exactly when there are no rows |
| Paging.SliceIndex | force-app/main/default/lwc/oppProdListView/oppProdListView.js:221 | a slice index after JavaScript's normalisation: an index in `[0, len]` is kept, one at or past `len` becomes `len`, a negative one counts back from the end and clamps at 0 |
| Paging.JsSlice | force-app/main/default/lwc/oppProdListView/oppProdListView.js:221 | `s.slice(start, end)`: for `0 <= start <= end <= |s|` it is `s[start..end]`; it is empty when the normalised end does not lie after the normalised start; otherwise its length is the normalised end minus the normalised start and element `i` is `s[normalised start + i]` |
| Paging.PageWindow | force-app/main/default/lwc/oppProdListView/oppProdListView.js:218-222 | the window holds at most 100 rows. Page 0 and any page starting at or past the end are empty. From page 1, a page starting inside the data is `data[(p-1)*100 .. min(p*100, |data|)]` |
| Paging.WindowSizes | force-app/main/default/lwc/oppProdListView/oppProdListView.js:218-222 | for `1 <= p <= totalPages`, every page but the last is full and the last holds the remainder |
| Paging.WindowPastLastPage | force-app/main/default/lwc/oppProdListView/oppProdListView.js:218-222 | a cursor beyond the page count, as left by a reload that shrank the data, shows no rows |
| Paging.PagesArePrefix | force-app/main/default/lwc/oppProdListView/oppProdListView.js:218-222 | pages 1..k laid end to end are the first `min(100 k, |data|)` rows, so the windows are contiguous and do not overlap |
| Paging.PagesPartitionData | force-app/main/default/lwc/oppProdListView/oppProdListView.js:218-222 | pages 1..totalPages laid end to end are exactly the data |
| Paging.InfoDescribesWindow | force-app/main/default/lwc/oppProdListView/oppProdListView.js:232-236 | from page 1 on, the caption's start..end (1-based) are exactly the window's rows, and end < start exactly when the window is empty; total is the row count |
| Paging.NavigateStaysInRange | force-app/main/default/lwc/oppProdListView/oppProdListView.js:194-216 | starting on a page in `[1, totalPages]`, any sequence of previous/next/first/last presses stays in `[1, totalPages]` |
| Paging.NavigateDrift | force-app/main/default/lwc/oppProdListView/oppProdListView.js:194-206 | previous and next move the cursor by at most one page per press |
| Paging.PreviousNextInverse | force-app/main/default/lwc/oppProdListView/oppProdListView.js:194-206 | inside the page range, previous undoes next and next undoes previous |
| Payloads.PayloadFor | force-app/main/default/lwc/oppProdListView/oppProdListView.js:111-128 | the payload always has `Id` set to the draft's id. It has `Product_Details__c`, `Product_Expiration_Date__c` or `Warranty_yrs__c` exactly when the draft owns the matching property, carrying the draft's value. It has no other field |
| Payloads.PayloadRoundTrip | force-app/main/default/lwc/oppProdListView/oppProdListView.js:112-128 | reading a draft back from its payload gives the draft: the payload loses nothing |
| Payloads.OneRejectionFailsBatch | force-app/main/default/lwc/oppProdListView/oppProdListView.js:133-134 | the batch (all updates awaited together) fails as soon as any one update is rejected |
| Payloads.BuildPayloads | force-app/main/default/lwc/oppProdListView/oppProdListView.js:109-129 | the loop builds exactly one payload per draft, in draft order, each being that draft's payload |
| OppProdListView.OppProductsTable.constructor | force-app/main/default/lwc/oppProdListView/oppProdListView.js:61-67 | initial state: no data, page 1 of 0, nothing shown, loading, no error, no drafts, no selection |
| OppProdListView.OppProductsTable.WiredOppProducts | force-app/main/default/lwc/oppProdListView/oppProdListView.js:71-82 | data in the response: it is processed and the error cleared. Otherwise an error: data and shown rows are emptied, the error is recorded, and `totalPages` and the cursor stay. Neither: nothing but `isLoading` changes. Loading is off afterwards |
| OppProdListView.OppProductsTable.ProcessRecords | force-app/main/default/lwc/oppProdListView/oppProdListView.js:84-99 | data becomes the flattened records and totalPages their ceiling page count. The page number is unchanged, the shown rows are its window, and they are empty if the cursor is now past the last page |
| OppProdListView.OppProductsTable.HandleRowSelection | force-app/main/default/lwc/oppProdListView/oppProdListView.js:101-105 | the selection is replaced wholesale |
| OppProdListView.OppProductsTable.HandleSave | force-app/main/default/lwc/oppProdListView/oppProdListView.js:107-177 | one payload per draft in order. All accepted: success toast, drafts cleared, data rebuilt from the refetch, or an error toast too if the refetch fails. Any rejected: error toast only, drafts and data untouched. Loading is off afterwards, and the cursor, error and selection are unchanged |
| OppProdListView.OppProductsTable.HandleBulkAction | force-app/main/default/lwc/oppProdListView/oppProdListView.js:179-192 | an empty selection adds exactly one warning toast and nothing else happens. A non-empty selection changes nothing. `HasSelectedRows()` holds exactly when the warning is given, so it is inverted |
| OppProdListView.OppProductsTable.PreviousPage | force-app/main/default/lwc/oppProdListView/oppProdListView.js:194-199 | no-op at page 1 or below; otherwise the page number drops by exactly one and the window follows; data and totalPages unchanged |
| OppProdListView.OppProductsTable.NextPage | force-app/main/default/lwc/oppProdListView/oppProdListView.js:201-206 | no-op at or beyond totalPages; otherwise the page number rises by exactly one and the window follows; data and totalPages unchanged |
| OppProdListView.OppProductsTable.FirstPage | force-app/main/default/lwc/oppProdListView/oppProdListView.js:208-211 | page number becomes 1 and `IsFirstPage()` holds; already on page 1 it changes nothing (idempotent) |
| OppProdListView.OppProductsTable.LastPage | force-app/main/default/lwc/oppProdListView/oppProdListView.js:213-216 | page number becomes totalPages and `IsLastPage()` holds. With no pages it becomes 0 and nothing is shown. Already there, it changes nothing (idempotent) |
| OppProdListView.OppProductsTable.UpdatePageRecords | force-app/main/default/lwc/oppProdListView/oppProdListView.js:218-222 | the shown rows become the window of the current page |
| OppProdListView.OppProductsTable.IsFirstPage | force-app/main/default/lwc/oppProdListView/oppProdListView.js:224-226 | on page 1 the shown rows are the first 100 rows, or all of them if there are fewer |
| OppProdListView.OppProductsTable.IsLastPage | force-app/main/default/lwc/oppProdListView/oppProdListView.js:228-230 | on the last page of non-empty data the shown rows are the rest of the data from row `100 (totalPages-1)` on |
| OppProdListView.OppProductsTable.HasSelectedRows | force-app/main/default/lwc/oppProdListView/oppProdListView.js:238-240 | true exactly when the selection is EMPTY, the opposite of what its name says |
| OppProdListView.ShownPageSize | force-app/main/default/lwc/oppProdListView/oppProdListView.js:218-222 | for the component's state with rows and the cursor in `[1, totalPages]`, every page but the last shows 100 rows and the last shows the remainder |
| OppProdListView.OppProductsTable.CurrentPageInfo | force-app/main/default/lwc/oppProdListView/oppProdListView.js:232-236 | total is the row count. From page 1 on, start..end are exactly the shown rows, and end < start exactly when none are shown. On a page from 1 on that starts past the data (a stale cursor) they are `(p-1)*100 + 1` and `|data|`, so end < start. On page 0 the numbers are -99 and 0 |

## Left out

- The framework machinery: decorators, the base element, event dispatch and the column definitions. Toasts are appended to the `toasts` field instead of being dispatched.
- The backend calls. The query is modelled as its response and the record update as a per-payload verdict (`accepts`). Backend behaviour, such as applying successful updates while others fail, is not modelled.
- The parallel issue of the updates and `async`/`await`. Every payload is issued, and the batch fails when any update is rejected. Ordering between in-flight calls is not modelled.
- Logging to the console, including the field-error diagnostics in the save handler's catch block.
- The `noError` getter: it only negates `error`. `WiredOppProducts`'s contract states `error` itself.
- `handleRowAction`: it only calls a navigation helper that is not part of this model.
- The text of the caption. `CurrentPageInfo` returns its three numbers, not the formatted string.
- Records whose Opportunity or Product2 relation is missing. In the source, reading `Name` through such a relation throws. The model assumes the query always returns both relations.
- Numbers are modelled as integers (`Value.Number`). Decimal warranty values and date parsing are not modelled.
- Exceptions raised inside `processRecords` while saving are not modelled.
