# Cold-storage admin dashboard: verified model of its computations

The dashboard is a React front end for managing cold storages. Each storage has
store admins, farmers, incoming orders (bags stored) and outgoing orders (bags
taken out). Most of the code fetches data and renders it. This project models
the computations the screens perform on the data they already hold:

- the pagination arithmetic and the state of the two generic table components;
- the column filter predicates and bag totals of the incoming, outgoing and
  farmer tables;
- the inventory aggregation of the cold-storage overview: per-variety totals,
  the size distribution built in a `Map`, the running-maximum insights, and the
  in-place sort behind the "lowest inventory" line;
- the edit forms of the incoming and outgoing receipts: local updates of one
  bag, totals, the request payloads, the overflow warning and the date split;
- the farmer screen: the expanded-orders map, the toggles, the order-frequency
  insights and the edit payload;
- the incoming-orders tab (row transform with fallbacks, summary counters) and
  the cold-storage summary metrics.

Shared modules:

- `JsStrings` models the JavaScript string operations used: ASCII `toLowerCase`,
  `includes`, `String(number)`, `parseInt` and `split(".")`.
- `JsObjects` models a parsed JSON object with number values and the order in
  which `Object.entries` lists its properties.
- `Inventory` holds the order, detail and bag records and their nested totals.
- `Pagination` holds the page-number window and the "Showing X to Y" range.
- `StableSort` is `Array.prototype.sort` with a numeric comparator. The sort is
  stable, so the result is unique and insertion sort computes it.
- `RunningMax` is the `if (x > best) best = x` loop shared by three insights.

React state holders become classes whose methods change their fields:

- `TableShell.TableState` and `DataTableShell.DataTableState`;
- the two `ReceiptEditor`s;
- `FarmerScreen.FarmerScreenState`.

Loops become methods with invariants. `map`/`filter`/`reduce` code becomes
functions, and lemmas state what they mean.

## Model

| member | source | states |
|---|---|---|
| Pagination.PageWindowIsRun | src/components/common/Table.tsx:454-468 | The window has exactly min(pageCount, 5) buttons, numbered consecutively from its first one. The same code is at src/components/ui/data-table.tsx:281-295. |
| Pagination.PageWindowInRange | src/components/common/Table.tsx:457-468 | With 0 ≤ pageIndex < pageCount, every button is a page in [0, pageCount) and the current page is among them. |
| Pagination.PageWindowCentred | src/components/common/Table.tsx:460-467 | With more than five pages, the current page is the middle button whenever it is not among the first two or the last two pages. This is true in all three branches. |
| Pagination.ClampPageIndex | src/components/common/Table.tsx:492 | The library's `setPageIndex` gives a valid page index. It keeps an index that is already in range, and gives 0 when there are no pages. |
| Pagination.ShowingRangeBounds | src/components/common/Table.tsx:413-427 | The range end min((pageIndex+1)·pageSize, rowCount) never exceeds the row count. On a page starting inside the rows, start ≤ end. The same arithmetic over filtered rows is at src/components/ui/data-table.tsx:235-250. |
| Pagination.ShowingRangesAdjacent | src/components/common/Table.tsx:413-427 | On a full page, the next page's range starts one after this one ends. |
| TableShell.SortIndicator | src/components/common/Table.tsx:338 | No icon when unsorted, an up chevron for ascending, a down chevron for descending. Each holds in both directions. |
| TableShell.FuzzyFilter | src/components/common/Table.tsx:39-50 | A null or undefined cell passes whatever the query. Otherwise the verdict is the ranking's verdict on both strings lower-cased. |
| TableShell.FuzzyFilterIgnoresCase | src/components/common/Table.tsx:43-46 | Cells and queries that agree after lower-casing get the same verdict. |
| TableShell.TableState.constructor | src/components/common/Table.tsx:194-211 | The internal filter starts empty and pageIndex at 0. pageSize is the prop, or 100 without one. |
| TableShell.TableState.OnPageSizeProp | src/components/common/Table.tsx:214-219 | The pageSize prop replaces pageSize. The page index and the filter are kept. |
| TableShell.TableState.OnCurrentPageProp | src/components/common/Table.tsx:222-230 | A defined currentPage becomes the page index. An undefined one changes nothing. |
| TableShell.TableState.GlobalFilter | src/components/common/Table.tsx:233-236 | A defined external filter takes precedence over the internal one. |
| TableShell.TableState.SetGlobalFilter | src/components/common/Table.tsx:237 | The value goes to the parent's setter when one is given. Otherwise it becomes the internal filter. |
| TableShell.TableState.SyncExternalFilter | src/components/common/Table.tsx:240-244 | A defined external filter is copied into the internal one, after which both readings agree. |
| TableShell.TableState.PageChangeNotification | src/components/common/Table.tsx:247-252 | The parent is told the page index exactly when it passed a callback. |
| TableShell.TableState.ClickPageButton | src/components/common/Table.tsx:472 | Clicking a button moves to the page it shows. From an in-range page the result is in range. |
| TableShell.TableState.GoToEdge | src/components/common/Table.tsx:438-493 | A click needs the button to be enabled: "First" needs a previous page and "Last" a next page. "First" moves to page 0 and "Last" to pageCount − 1. "Last" always lands in range, and "First" does whenever a page exists. |
| DataTableShell.SortIndicatorAgrees | src/components/ui/data-table.tsx:164-167 | The `{asc, desc}[key] ?? null` lookup renders up for "asc", down for "desc" and nothing when unsorted. This is the same icon as the other table's ternary. |
| DataTableShell.DataTableState.constructor | src/components/ui/data-table.tsx:52-67 | pageIndex starts at 0 with every column visible. pageSize is the prop, or 10 without one. |
| DataTableShell.DataTableState.OnPageSizeProp | src/components/ui/data-table.tsx:70-75 | A pageSize change keeps the page index and the visibility map. |
| DataTableShell.DataTableState.FilterInputShown | src/components/ui/data-table.tsx:169-170 | A column's filter input appears exactly when the column can filter and is visible. |
| DataTableShell.DataTableState.SetColumnVisibility | src/components/ui/data-table.tsx:128-130 | Toggling changes one column's visibility and no other column's. A hidden column shows no filter input. |
| DataTableShell.DataTableState.ClickPageButton | src/components/ui/data-table.tsx:301 | Clicking a button moves to the page it shows. From an in-range page the result is in range. |
| DataTableShell.DataTableState.GoToEdge | src/components/ui/data-table.tsx:262-327 | A click needs the button to be enabled: "First" needs a previous page and "Last" a next page. "First" moves to page 0 and "Last" to pageCount − 1. "Last" always lands in range, and "First" does whenever a page exists. |
| IncomingOrderColumns.TotalBagsAdditive | src/screens/SingleColdStorageScreen/incoming-orders/columnDefinition.tsx:44-51 | calculateTotalBags is 0 for no details and adds up over concatenated detail lists. |
| IncomingOrderColumns.TotalBagsIgnoresCurrent | src/screens/SingleColdStorageScreen/incoming-orders/columnDefinition.tsx:45-50 | The total depends only on initialQuantity. Lists agreeing on it have equal totals. |
| IncomingOrderColumns.VoucherFilterExact | src/screens/SingleColdStorageScreen/incoming-orders/columnDefinition.tsx:63-67 | Typing the string form of k passes exactly the rows whose voucher number is k. |
| IncomingOrderColumns.VarietyLocationFilterCases | src/screens/SingleColdStorageScreen/incoming-orders/columnDefinition.tsx:87-94 | The predicates as written over (row, s) pass a variety or location the row holds, in any case. A row with no details fails both. The location predicate is at lines 132-139. |
| IncomingOrderColumns.StatusFilterEmpty | src/screens/SingleColdStorageScreen/incoming-orders/columnDefinition.tsx:152-155 | The empty string passes every row's status. |
| IncomingOrderColumns.StatusFilterPending | src/screens/SingleColdStorageScreen/incoming-orders/columnDefinition.tsx:152-155 | "pending", in any case, passes exactly the unfulfilled rows. |
| IncomingOrderColumns.StatusFilterFulfilled | src/screens/SingleColdStorageScreen/incoming-orders/columnDefinition.tsx:152-155 | "fulfilled", in any case, passes exactly the fulfilled rows. |
| IncomingOrderColumns.StatusFilterAsCalledIgnoresInput | src/screens/SingleColdStorageScreen/incoming-orders/columnDefinition.tsx:152-154 | Called with the column id "fulfilled" as second argument, the status filter passes exactly the fulfilled rows, whatever is typed. |
| IncomingOrderColumns.VarietyFilterAsCalledMissesMatch | src/screens/SingleColdStorageScreen/incoming-orders/columnDefinition.tsx:87-92 | As called, a row with variety "Jyoti" is hidden when "Jyoti" is typed. |
| IncomingOrderColumns.VarietyFilterAsCalledHidesShort | src/screens/SingleColdStorageScreen/incoming-orders/columnDefinition.tsx:87-92 | When the column id is the pattern, a row whose varieties are all shorter than the column id is hidden whatever is typed. |
| IncomingOrderColumns.CorrectedFiltersFindRow | src/screens/SingleColdStorageScreen/incoming-orders/columnDefinition.tsx:87-155 | With the typed value as pattern, a row is found by its own variety or location. "pending" then selects exactly the pending rows. |
| OutgoingOrderColumns.TotalExtractedAdditive | src/screens/SingleColdStorageScreen/outgoing-orders/columnDefinitions.tsx:56-63 | calculateTotalBagsExtracted is 0 for no details and adds up over concatenation. |
| OutgoingOrderColumns.TotalExtractedUpdate | src/screens/SingleColdStorageScreen/outgoing-orders/columnDefinitions.tsx:57-62 | Replacing one bag's quantityRemoved moves the total by exactly the change. |
| OutgoingOrderColumns.TotalExtractedNonNegative | src/screens/SingleColdStorageScreen/outgoing-orders/columnDefinitions.tsx:57-62 | Non-negative removed quantities give a non-negative total. |
| OutgoingOrderColumns.VoucherFilterExact | src/screens/SingleColdStorageScreen/outgoing-orders/columnDefinitions.tsx:75-79 | Typing the string form of k passes exactly the rows whose voucher number is k. |
| OutgoingOrderColumns.VarietyLocationFilterCases | src/screens/SingleColdStorageScreen/outgoing-orders/columnDefinitions.tsx:99-106 | As written over (row, s), a row passes for a variety it holds and for its source order's location, in any case. A row with no details fails both. The location predicate is at lines 144-151. |
| OutgoingOrderColumns.LocationFilterUnreachable | src/screens/SingleColdStorageScreen/outgoing-orders/columnDefinitions.tsx:87-151 | The location column (line 132) has an id but no accessor, so `getCanFilter()` is false and the data table (src/components/ui/data-table.tsx:169-180) never renders its filter input; the location filterFn is never called. The variety column (accessorKey at line 87) gets an input exactly while visible. |
| OutgoingOrderColumns.AsCalledIgnoresInput | src/screens/SingleColdStorageScreen/outgoing-orders/columnDefinitions.tsx:87-106 | Called with the column id "orderDetails" as second argument, the variety filter gives the same verdict for any two typed values. |
| OutgoingOrderColumns.AsCalledMissesMatch | src/screens/SingleColdStorageScreen/outgoing-orders/columnDefinitions.tsx:87-106 | As called, a delivery of variety "Jyoti" is hidden when "Jyoti" is typed. |
| OutgoingOrderColumns.AsCalledHidesShortVarieties | src/screens/SingleColdStorageScreen/outgoing-orders/columnDefinitions.tsx:87-106 | When the column id is the pattern, a row whose varieties are all shorter than the column id is hidden whatever is typed. |
| OutgoingOrderColumns.CorrectedFiltersFindRow | src/screens/SingleColdStorageScreen/outgoing-orders/columnDefinitions.tsx:99-151 | With the typed value as pattern, a row is found by its variety or source location. The empty value keeps every row with a detail. |
| FarmerColumns.TextFiltersMeaning | src/screens/SingleColdStorageScreen/farmers/columnDefinition.tsx:33-69 | In both directions: id and mobile pass iff the text occurs verbatim; name and address pass iff it occurs after lower-casing both sides. |
| FarmerColumns.IdCaseSensitiveNameNot | src/screens/SingleColdStorageScreen/farmers/columnDefinition.tsx:33-47 | For a farmer with id "FRM01" and name "Ram", "frm" fails the id filter while "ram" passes the name filter. |
| FarmerColumns.EmptyFilterKeepsAll | src/screens/SingleColdStorageScreen/farmers/columnDefinition.tsx:33-85 | The empty string passes every farmer under every filter. |
| FarmerColumns.StatusFilterCases | src/screens/SingleColdStorageScreen/farmers/columnDefinition.tsx:82-85 | As written, "un" keeps exactly the unverified farmers. "verified" keeps every farmer, because "unverified" contains it. |
| FarmerColumns.StatusFilterAsCalledHidesAll | src/screens/SingleColdStorageScreen/farmers/columnDefinition.tsx:82-84 | Called with the column id "isVerified" as second argument, the status filter hides every farmer whatever is typed. |
| FarmerColumns.StatusFilterMissesLong | src/screens/SingleColdStorageScreen/farmers/columnDefinition.tsx:82-84 | No pattern of ten or more characters that does not start with "u" in either case matches "verified" or "unverified". |
| FarmerColumns.StatusFilterCorrectedCases | src/screens/SingleColdStorageScreen/farmers/columnDefinition.tsx:82-85 | With the typed value as pattern, "unverified" keeps exactly the unverified farmers. "verified" and "" keep all. |
| Overview.ObjectOfLookup | src/screens/SingleColdStorageScreen/overview/index.tsx:94-97 | The object spread from entries has exactly their keys. Each key holds the value of its last entry. |
| Overview.ProcessStockDataRows | src/screens/SingleColdStorageScreen/overview/index.tsx:85-100 | There is one row per variety, in order, or none without data. Each row has the variety name and total = Σ currentQuantity. A repeated size keeps its last value. |
| Overview.SizeNamedTotalOverrides | src/screens/SingleColdStorageScreen/overview/index.tsx:91-97 | A size named "total" overwrites the row's total: 5 + 2 bags show total 2. |
| Overview.ProcessTopFarmersDataRows | src/screens/SingleColdStorageScreen/overview/index.tsx:103-111 | There is one bar per farmer, in order, or none without data. Each bar carries the farmer's name, totalBags and bag-summary fields. |
| Overview.SizeTallyMeaning | src/screens/SingleColdStorageScreen/overview/index.tsx:120-125 | The Map holds exactly the sizes that occur, each once. Each value is Σ currentQuantity of that size. |
| Overview.AddToSlices | src/screens/SingleColdStorageScreen/overview/index.tsx:122-123 | One `get`/`set` step raises the sum of the Map's values by the entry's quantity. |
| Overview.SizeTallyConserves | src/screens/SingleColdStorageScreen/overview/index.tsx:120-131 | The Map's values add up to Σ currentQuantity over all entries visited. |
| Overview.SumOfFlatten | src/screens/SingleColdStorageScreen/overview/index.tsx:89 | Σ over every size of every variety equals Σ of the per-variety totals. |
| Overview.SizeTallyAppend | src/screens/SingleColdStorageScreen/overview/index.tsx:120-125 | Filling the Map with x and then ys is filling it with x + ys. |
| Overview.AddSizes | src/screens/SingleColdStorageScreen/overview/index.tsx:121-124 | The inner forEach loop leaves the Map the specification tally gives. |
| Overview.Entries | src/screens/SingleColdStorageScreen/overview/index.tsx:128-131 | The entries loop lists the Map's sizes in insertion order with their values. |
| Overview.CreateSizeDistributionData | src/screens/SingleColdStorageScreen/overview/index.tsx:114-132 | The nested loops return exactly the size distribution, and [] without data. |
| Overview.SizeDistributionEntries | src/screens/SingleColdStorageScreen/overview/index.tsx:114-132 | There is one pie entry per distinct size and no size twice. Each value is that size's Σ currentQuantity across all varieties. |
| Overview.SizeDistributionConserves | src/screens/SingleColdStorageScreen/overview/index.tsx:114-132 | The pie values add up to Σ of the per-variety totals. |
| Overview.TopVarietyLoop | src/screens/SingleColdStorageScreen/overview/index.tsx:139-148 | The loop computes totalBags = Σ row totals and the running top variety. |
| Overview.DominantSizeLoop | src/screens/SingleColdStorageScreen/overview/index.tsx:151-164 | The loop computes the running dominant size. |
| Overview.TopBagTypeLoop | src/screens/SingleColdStorageScreen/overview/index.tsx:173-181 | The loop over a list of entries computes the running top bag type. |
| Overview.TopVarietyMeaning | src/screens/SingleColdStorageScreen/overview/index.tsx:140-148 | The top variety's total is ≥ every total and ≥ 0. It names the first variety reaching it, or ('', 0) when no total is positive. |
| Overview.DominantSizeMeaning | src/screens/SingleColdStorageScreen/overview/index.tsx:152-164 | The dominant size's value is ≥ every value. Ties go to the earliest inserted size, and it is ('', 0) when none is positive. |
| Overview.TopBagTypeMeaning | src/screens/SingleColdStorageScreen/overview/index.tsx:173-181 | The top bag type is the first listed entry with the strictly largest positive count, or ('', 0) if none is positive. |
| Overview.TopBagTypeOfSummary | src/screens/SingleColdStorageScreen/overview/index.tsx:173-181 | Over `Object.entries` of the parsed bagSummary, the top count is ≥ 0 and ≥ the value each bag type ends up with. A positive top count is the final value of the bag type it names. |
| Overview.TopBagTypeTieFavoursIndexKey | src/screens/SingleColdStorageScreen/overview/index.tsx:173-181 | For `{"Seed": 4, "50": 4}` the top bag type is "50": array-index keys are listed first, and ties keep the first listed. |
| Overview.TieGoesToFirst | src/screens/SingleColdStorageScreen/overview/index.tsx:177-180 | Of two listed entries with the same positive count, the first is the top bag type, because the comparison is strict. |
| Overview.TopBagTypeRepeatedKey | src/screens/SingleColdStorageScreen/overview/index.tsx:173-181 | For a bagSummary with "Seed": 9 and then "Seed": 1, the top bag count is 1: the last value wins, as in the chart rows. |
| Overview.CalculateInsights | src/screens/SingleColdStorageScreen/overview/index.tsx:135-197 | The result is null without stock data. Otherwise it gives the inventory total, the top variety and the dominant size. The farmer insight is present exactly when there is a first top farmer. |
| Overview.InventoryConservation | src/screens/SingleColdStorageScreen/overview/index.tsx:89-146 | Unless a size is called "total", totalInventory equals the sum of the size distribution. |
| Overview.TopTwoIsLargestPair | src/screens/SingleColdStorageScreen/overview/index.tsx:505-507 | With more than two sizes, the first two of the descending sorted copy are two distinct entries. Their sum is ≥ that of any two distinct entries. |
| Overview.InsertInPlace | src/screens/SingleColdStorageScreen/overview/index.tsx:517 | One insertion pass on the array turns a[..i+1] into the stable insertion of a[i] and leaves the rest. |
| Overview.SortByValueInPlace | src/screens/SingleColdStorageScreen/overview/index.tsx:517 | The in-place sort by value leaves the array equal to the stable ascending sort of its old contents. |
| Overview.LowestSizeLine | src/screens/SingleColdStorageScreen/overview/index.tsx:517-521 | The named entry and the value shown are both the earliest entry of least value of the original order. |
| RunningMax.BestMeaning | src/screens/SingleColdStorageScreen/overview/index.tsx:143-147 | The strict `>` running best ends at the first position of the largest value when that exceeds the start value. Otherwise the start value is kept. |
| StableSort.SortSorted | src/screens/SingleColdStorageScreen/overview/index.tsx:517 | The sort is ordered by key and is a permutation of its input. |
| StableSort.SortHead | src/screens/SingleFarmerScreen.tsx:401 | The head of the sorted copy is the earliest element of least key. |
| StableSort.SortFirstTwo | src/screens/SingleColdStorageScreen/overview/index.tsx:505-507 | The first two keys of the sorted copy add up to no more than any two distinct positions. |
| JsObjects.FromEntriesMeaning | src/screens/SingleColdStorageScreen/overview/index.tsx:30-32 | The object parsed from a bagSummary has distinct keys. Each property holds the value of the last member with its key, and the last member with each key is a property. |
| JsObjects.FromDistinctEntries | src/screens/SingleColdStorageScreen/overview/index.tsx:30-32 | Members with distinct keys build an object with exactly those properties, in creation order. |
| JsObjects.EntriesMeaning | src/screens/SingleColdStorageScreen/overview/index.tsx:173 | `Object.entries` lists every property once, array-index keys before all others, and array-index keys in ascending numeric order. |
| JsObjects.IndexKeyOvertakes | src/screens/SingleColdStorageScreen/overview/index.tsx:173 | A string key created before an array-index key is listed after it. |
| JsObjects.IntegerKeyListedFirst | src/screens/SingleColdStorageScreen/overview/index.tsx:173 | `Object.entries({"Seed": 4, "50": 4})` lists "50" first. |
| JsStrings.ContainsIgnoreCaseIff | src/screens/SingleColdStorageScreen/farmers/columnDefinition.tsx:44-46 | `a.toLowerCase().includes(b.toLowerCase())` holds iff the lower-cased b occurs in the lower-cased a at some position. |
| JsStrings.IntToStringInjective | src/screens/SingleColdStorageScreen/incoming-orders/columnDefinition.tsx:64-66 | `String(n)` is injective on integers, so comparing string forms compares numbers. |
| JsStrings.ParseIntOrZeroMeaning | src/screens/IncomingReceiptScreen.tsx:205 | `parseInt(v) \|\| 0` is the decimal value of a digit string, and 0 for input that starts with no number. |
| IncomingReceipt.BagQuantityEditLocal | src/screens/IncomingReceiptScreen.tsx:189-224 | A quantity edit sets one field of one bag to `parseInt(v) \|\| 0`. Every other detail, bag and field is unchanged. |
| IncomingReceipt.BagSizeEditLocal | src/screens/IncomingReceiptScreen.tsx:207-212 | An edit without a sub-field replaces the bag's size with the raw input and changes nothing else. |
| IncomingReceipt.BagQuantityEditTotals | src/screens/IncomingReceiptScreen.tsx:482-517 | The totals reduce, applied to an order with one bag quantity changed (as in the edited copy), differs in that column by exactly the change. The other quantity column's total is the same. The screen computes its own totals from `receipt`, which the handlers leave unchanged. |
| IncomingReceipt.BagSizeEditTotals | src/screens/IncomingReceiptScreen.tsx:482-517 | The totals reduce gives the same three totals for an order whose bag size was changed. |
| IncomingReceipt.AllVarietiesAndLocations | src/screens/IncomingReceiptScreen.tsx:647-683 | The variety or location box sets that field on every detail and keeps each detail's bags and the other field. |
| IncomingReceipt.DetailFieldEditLocal | src/screens/IncomingReceiptScreen.tsx:171-186 | `handleOrderDetailChange` replaces one field of one detail and leaves everything else. |
| IncomingReceipt.TotalRemovedIsDifference | src/screens/IncomingReceiptScreen.tsx:471-517 | The "Removed" total equals the initial total minus the current total. |
| IncomingReceipt.SubmitPayload | src/screens/IncomingReceiptScreen.tsx:97-114 | There is a payload iff there is a first detail. It carries remarks, fulfilled and date, and exactly one detail: the first, with its bags in order. |
| IncomingReceipt.PayloadDropsLaterDetails | src/screens/IncomingReceiptScreen.tsx:97-114 | The saved totals are the receipt's totals minus those of every detail after the first. |
| IncomingReceipt.PayloadAfterEdits | src/screens/IncomingReceiptScreen.tsx:97-169 | A quantity edit of the first detail, a variety or location edit, and a fulfilled change each reach the payload as typed. |
| IncomingReceipt.HeaderAfterEdits | src/screens/IncomingReceiptScreen.tsx:288-290 | The header expressions, applied to an order whose varieties or locations were all set (as in the edited copy), give the text set. They give "Unknown" or "Not specified" when that text is empty or there are no details. The screen's own header is computed from `receipt`, which the handlers leave unchanged. |
| IncomingReceipt.ReceiptEditor.constructor | src/screens/IncomingReceiptScreen.tsx:59-74 | The screen starts with the router's receipt, an equal edited copy and the modal closed. |
| IncomingReceipt.ReceiptEditor.OpenEditModal | src/screens/IncomingReceiptScreen.tsx:78-81 | Opening resets the edited copy to the receipt and opens the modal. |
| IncomingReceipt.ReceiptEditor.CloseEditModal | src/screens/IncomingReceiptScreen.tsx:83-85 | Closing keeps the edits and closes the modal. |
| IncomingReceipt.ReceiptEditor.ChangeBagQuantity | src/screens/IncomingReceiptScreen.tsx:189-224 | The edited copy becomes the quantity edit of itself, or stays absent. |
| IncomingReceipt.ReceiptEditor.ChangeBagSize | src/screens/IncomingReceiptScreen.tsx:207-224 | The edited copy becomes the size edit of itself, or stays absent. |
| IncomingReceipt.ReceiptEditor.ChangeText | src/screens/IncomingReceiptScreen.tsx:149-156 | The date or remarks field of the edited copy becomes the input. |
| IncomingReceipt.ReceiptEditor.ChangeFulfilled | src/screens/IncomingReceiptScreen.tsx:162-169 | Only the fulfilled flag of the edited copy changes. |
| IncomingReceipt.ReceiptEditor.ChangeDetailField | src/screens/IncomingReceiptScreen.tsx:171-186 | One field of one detail of the edited copy becomes the input. |
| IncomingReceipt.ReceiptEditor.ChangeVariety | src/screens/IncomingReceiptScreen.tsx:647-658 | Every detail's variety in the edited copy becomes the input. |
| IncomingReceipt.ReceiptEditor.ChangeLocation | src/screens/IncomingReceiptScreen.tsx:673-683 | Every detail's location in the edited copy becomes the input. |
| IncomingReceipt.ReceiptEditor.SubmitEdit | src/screens/IncomingReceiptScreen.tsx:87-114 | It sends the payload of the edited copy exactly when the form passes the browser's constraint validation (FormValid). Otherwise it sends nothing. |
| IncomingReceipt.ValidFormHasPayload | src/screens/IncomingReceiptScreen.tsx:643-686 | A form that passes validation has a first detail, so a payload with a non-empty variety and location is sent. |
| IncomingReceipt.FormValidAfterEdits | src/screens/IncomingReceiptScreen.tsx:643-686 | After typing into both `required` boxes, the form can be submitted iff neither text is empty. Bag, date, remarks and fulfilled edits do not change the verdict. |
| IncomingReceipt.NoDetailsBlocksSubmit | src/screens/IncomingReceiptScreen.tsx:643-686 | A receipt without details shows "" in the required variety box, so it can never be submitted. |
| ReceiptDates.FormatDateParts | src/screens/IncomingReceiptScreen.tsx:262-270 | "N/A" exactly for the empty string. Day, month and year parts exactly when splitting on "." gives three parts. |
| ReceiptDates.FormatDateThreeParts | src/screens/IncomingReceiptScreen.tsx:266-270 | Three dot-free parts joined by dots are read as parseInt of each, the month minus one and the year prefixed by "20". |
| ReceiptDates.FormatDateDDMMYY | src/screens/IncomingReceiptScreen.tsx:262-270 | "DD.MM.YY" gives day DD, month index MM − 1 and year 2000 + YY. The same function is at src/screens/OutgoingReceiptScreen.tsx:319-327. |
| ReceiptDates.CenturyYear | src/screens/IncomingReceiptScreen.tsx:270 | `parseInt("20" + yy)` of a two-digit part is 2000 + yy. |
| ReceiptDates.MonthIndex | src/screens/IncomingReceiptScreen.tsx:269 | `parseInt(mm) - 1` of a digit string is its value minus one. |
| OutgoingReceipt.QuantityRemovedEditLocal | src/screens/OutgoingReceiptScreen.tsx:213-238 | A removed-quantity edit sets one bag's quantityRemoved to `parseInt(v) \|\| 0`. Every other detail, bag and field is unchanged. |
| OutgoingReceipt.QuantityRemovedEditTotal | src/screens/OutgoingReceiptScreen.tsx:350-358 | The totalQuantityRemoved reduce, applied to an order with one removed quantity changed (as in the edited copy), differs by exactly the change. The screen's own total is computed from `receipt`, which the handlers leave unchanged. |
| OutgoingReceipt.FindBySize | src/screens/OutgoingReceiptScreen.tsx:527-529 | `find` returns the first incoming bag of the size, or none when no bag has it. |
| OutgoingReceipt.OverflowWarningMeaning | src/screens/OutgoingReceiptScreen.tsx:705-748 | The warning shows iff quantityRemoved exceeds the current quantity of the first incoming bag of that size. |
| OutgoingReceipt.OverflowWithoutIncomingBag | src/screens/OutgoingReceiptScreen.tsx:748 | Without an incoming bag of the size, any positive removal raises the warning. |
| OutgoingReceipt.AvailableCell | src/screens/OutgoingReceiptScreen.tsx:540 | The available cell shows the matched current quantity, or "N/A" when it is missing or 0. |
| OutgoingReceipt.TotalAvailableCell | src/screens/OutgoingReceiptScreen.tsx:553-556 | The total cell shows the first detail's incoming current total, or "N/A" when there is no detail or the total is 0. |
| OutgoingReceipt.MainVariety | src/screens/OutgoingReceiptScreen.tsx:345 | The first detail's variety, or "Unknown" when there is none or it is empty. |
| OutgoingReceipt.MainLocation | src/screens/OutgoingReceiptScreen.tsx:347 | The first detail's source location, or "Not specified" when there is none or it is empty. |
| OutgoingReceipt.SubmitPayload | src/screens/OutgoingReceiptScreen.tsx:156-169 | The payload keeps remarks, date and every detail in order. It keeps only variety, incoming order id, size and quantityRemoved, with bag order and count preserved. |
| OutgoingReceipt.PayloadKeepsTotal | src/screens/OutgoingReceiptScreen.tsx:156-169 | The saved quantities add up to totalQuantityRemoved, and an edited quantity reaches the payload. |
| OutgoingReceipt.ReceiptEditor.constructor | src/screens/OutgoingReceiptScreen.tsx:88-134 | The screen starts with the router's receipt, an equal edited copy and the modal closed. |
| OutgoingReceipt.ReceiptEditor.OpenEditModal | src/screens/OutgoingReceiptScreen.tsx:138-141 | Opening resets the edited copy to the receipt and opens the modal. |
| OutgoingReceipt.ReceiptEditor.CloseEditModal | src/screens/OutgoingReceiptScreen.tsx:143-145 | Closing keeps the edits and closes the modal. |
| OutgoingReceipt.ReceiptEditor.ChangeQuantityRemoved | src/screens/OutgoingReceiptScreen.tsx:213-238 | The edited copy becomes the removed-quantity edit of itself, or stays absent. |
| OutgoingReceipt.ReceiptEditor.ChangeText | src/screens/OutgoingReceiptScreen.tsx:204-211 | The date or remarks field of the edited copy becomes the input. |
| OutgoingReceipt.ReceiptEditor.SubmitEdit | src/screens/OutgoingReceiptScreen.tsx:147-169 | It sends the payload of the edited copy exactly when every rendered quantity box is within its min and max (FormValid). Otherwise it sends nothing. |
| OutgoingReceipt.FormValidMeaning | src/screens/OutgoingReceiptScreen.tsx:703-752 | The form can be submitted iff no rendered bag shows the overflow warning and no removed quantity is negative. |
| OutgoingReceipt.OverflowBlocksSubmit | src/screens/OutgoingReceiptScreen.tsx:738-751 | Typing more than is available into a rendered box blocks the submit. Date and remarks edits do not change the verdict. |
| OutgoingReceipt.SubmittedWithinAvailable | src/screens/OutgoingReceiptScreen.tsx:738-746 | A submitted payload removes between 0 and the available quantity for each bag of the first detail. |
| FarmerScreen.AllCollapsedMeaning | src/screens/SingleFarmerScreen.tsx:186-193 | The initial map has exactly the order ids as keys, and none is expanded. |
| FarmerScreen.ToggleLocal | src/screens/SingleFarmerScreen.tsx:362-367 | Toggling negates the id's expanded state (absent counts as collapsed) and keeps every other entry. |
| FarmerScreen.ToggleTwice | src/screens/SingleFarmerScreen.tsx:362-367 | Toggling twice restores a present entry. An absent one becomes false, so every expanded state is as before. |
| FarmerScreen.TogglePeriod | src/screens/SingleFarmerScreen.tsx:390-392 | The period always changes. |
| FarmerScreen.TogglePeriodInvolution | src/screens/SingleFarmerScreen.tsx:390-392 | Toggling the period twice restores it. |
| FarmerScreen.Highest | src/screens/SingleFarmerScreen.tsx:401-406 | `[...s].sort(desc)[0]` is defined exactly for a non-empty list. |
| FarmerScreen.HighestCountMeaning | src/screens/SingleFarmerScreen.tsx:401-402 | highestMonthly and highestQuarterly are members whose count is ≥ every count. They are the first such member. |
| FarmerScreen.HighestQuantityMeaning | src/screens/SingleFarmerScreen.tsx:405-406 | The highest-quantity periods are members whose totalQuantity is ≥ every one. They are the first such member. |
| FarmerScreen.RoundDivNearest | src/screens/SingleFarmerScreen.tsx:410 | `Math.round(t/n)` for n > 0 is the unique integer within half of t/n. |
| FarmerScreen.Growth | src/screens/SingleFarmerScreen.tsx:413-420 | growthRate is null iff there are fewer than two months or the previous count is 0. Otherwise it is (current − previous)/previous. |
| FarmerScreen.GrowthDirection | src/screens/SingleFarmerScreen.tsx:416-420 | The growth is positive exactly when the last month's count exceeds the one before. |
| FarmerScreen.CalculateFrequencyInsights | src/screens/SingleFarmerScreen.tsx:395-431 | Insights exist exactly when frequency data does. |
| FarmerScreen.InsightsTotals | src/screens/SingleFarmerScreen.tsx:409-410 | totalQuantity = Σ monthly totalQuantity and adds up over appended months. avgQuantityPerOrder is 0 without orders, else the rounded quotient. |
| FarmerScreen.PayloadAfterEdit | src/screens/SingleFarmerScreen.tsx:270-309 | A text edit reaches exactly its payload field and a checkbox edit reaches isVerified. Farmers agreeing on name, address, mobile, imageUrl and isVerified have equal payloads. |
| FarmerScreen.FarmerScreenState.constructor | src/screens/SingleFarmerScreen.tsx:111-120 | Nothing edited, every panel closed, no expanded orders, monthly period. |
| FarmerScreen.FarmerScreenState.InitExpandedState | src/screens/SingleFarmerScreen.tsx:186-193 | After orders load, the forEach loop maps every order id to false. Without orders the map is kept. |
| FarmerScreen.FarmerScreenState.ToggleOrderExpansion | src/screens/SingleFarmerScreen.tsx:362-367 | The map becomes the toggle of the old map and nothing else changes. |
| FarmerScreen.FarmerScreenState.ToggleFrequencyPeriod | src/screens/SingleFarmerScreen.tsx:390-392 | The period flips and nothing else changes. |
| FarmerScreen.FarmerScreenState.ViewOrders | src/screens/SingleFarmerScreen.tsx:370-377 | The orders panel flag flips and nothing else changes. |
| FarmerScreen.FarmerScreenState.ViewOrderFrequency | src/screens/SingleFarmerScreen.tsx:380-387 | The frequency panel flag flips and nothing else changes. |
| FarmerScreen.FarmerScreenState.OpenEditModal | src/screens/SingleFarmerScreen.tsx:212-215 | The edited farmer is a copy of the farmer, and the modal opens. |
| FarmerScreen.FarmerScreenState.ChangeText | src/screens/SingleFarmerScreen.tsx:270-280 | One text field of the edited farmer becomes the input. |
| FarmerScreen.FarmerScreenState.ChangeVerified | src/screens/SingleFarmerScreen.tsx:282-292 | isVerified of the edited farmer becomes the checkbox. |
| FarmerScreen.FarmerScreenState.SubmitEdit | src/screens/SingleFarmerScreen.tsx:294-309 | It sends exactly name, address, mobileNumber, imageUrl and isVerified of the edited farmer when its name, mobile number and address are all non-empty (FormValid). Otherwise it sends nothing. |
| FarmerScreen.FormValidAfterEdit | src/screens/SingleFarmerScreen.tsx:1054-1093 | A submitted payload has a non-empty name, mobile number and address. Emptying a `required` box blocks the submit, while the image URL and the check box do not affect it. |
| IncomingOrdersTab.OrElse | src/components/cold-storage/IncomingOrdersTab.tsx:83 | `o \|\| fallback` gives the fallback exactly for a missing or empty value (or the fallback itself), else the value. |
| IncomingOrdersTab.LastFive | src/components/cold-storage/IncomingOrdersTab.tsx:87 | `slice(-5)` is a suffix of min(5, length) characters. |
| IncomingOrdersTab.ToRow | src/components/cold-storage/IncomingOrdersTab.tsx:81-96 | The row keeps id, farmerId, date, fulfilled, remarks and the whole order as fullDetails. |
| IncomingOrdersTab.TransformOrders | src/components/cold-storage/IncomingOrdersTab.tsx:78-97 | One row per order, in order, with id = _id and fullDetails = the order, and [] without data. |
| IncomingOrdersTab.RowFallbacks | src/components/cold-storage/IncomingOrdersTab.tsx:83-93 | Voucher number, voucher type, first variety and first location show "N/A" exactly when missing or empty. A missing or empty farmer name shows "Farmer " + the last five characters of the id. |
| IncomingOrdersTab.NoDetailsShowsNA | src/components/cold-storage/IncomingOrdersTab.tsx:92-93 | An order without details shows "N/A" for variety and location. |
| IncomingOrdersTab.PendingPlusFulfilled | src/components/cold-storage/IncomingOrdersTab.tsx:188-201 | Pending plus fulfilled counts equal the total. Pending equals the total iff no order is fulfilled. |
| IncomingOrdersTab.FarmerIds | src/components/cold-storage/IncomingOrdersTab.tsx:216 | The set holds exactly the farmerIds that occur in the rows. |
| IncomingOrdersTab.UniqueFarmersBounds | src/components/cold-storage/IncomingOrdersTab.tsx:216 | The number of unique farmers is ≤ the number of orders, and ≥ 1 when there is an order. |
| IncomingOrdersTab.CountersOfResponse | src/components/cold-storage/IncomingOrdersTab.tsx:188-216 | For any response, pending and unique counts are ≤ the total, which is the order count. All are 0 without data. |
| IncomingOrdersTab.StatusCell | src/components/cold-storage/IncomingOrdersTab.tsx:148 | "Fulfilled" iff fulfilled, "Pending" iff not. |
| IncomingOrdersTab.RemarksCell | src/components/cold-storage/IncomingOrdersTab.tsx:133 | "No remarks" exactly when remarks are missing or empty (or are that text). |
| ColdStorageMetrics.CountActive | src/screens/ColdStorageScreen/index.tsx:56-58 | The active count is ≤ the number of admins. It equals it iff all are active and is 0 iff none is. |
| ColdStorageMetrics.SummaryMetrics | src/screens/ColdStorageScreen/index.tsx:45-58 | Active admins ≤ cold storages, and registered farmers ≥ 0. The same three metrics are at src/screens/ColdStorageScreen.tsx:54-67. |
| ColdStorageMetrics.MissingDataIsZero | src/screens/ColdStorageScreen.tsx:54-67 | Without a response or without the admin list, all three metrics are 0. |
| ColdStorageMetrics.MetricsAdditive | src/screens/ColdStorageScreen.tsx:57-62 | For concatenated admin lists, the storage count, the registered-farmer total and the active count add up. |
| ColdStorageMetrics.CountActiveAppend | src/screens/ColdStorageScreen.tsx:65-67 | The active count of a concatenation is the sum of the parts' counts. |

## Left out

- Network, authentication and routing: axios/fetch calls, react-query hooks, toasts, `navigate`, the delete flows and the farmer-name fetch. A request is modelled as the payload value that would be sent.
- The table library's row models (sorting, filtering, paginating, `getCanNextPage`, previous/next buttons) and `rankItem`. The fuzzy ranking is a parameter of `TableShell.FuzzyFilter`. The tables' sorting and column-filter state is held by the library and is not modelled.
- The debounced search input: it is timer-based.
- Floating point: percentages, `toFixed`, `toLocaleString` and the growthRate value. `FarmerScreen.Growth` returns the numerator and denominator of the rate instead.
- `new Date(...)` and `toLocaleDateString`: `ReceiptDates.FormatDateParts` stops at the day, month and year numbers handed to `Date`. The fallback for other date strings is kept as the raw text.
- Charts, layout, the sidebar, the navbar, the login and dashboard screens (hard-coded figures), and the fetch-and-render wrapper screens.
- The tab choice saved in localStorage.
- JsStrings.ToLower: lower-cases ASCII letters only. Unicode case mapping is not modelled.
- JsStrings.ParseInt: the numbers are unbounded integers. JavaScript number precision and the `Infinity`/exponent forms are not modelled.
- Overview.ObjectOf: returns a map, which has no order, so the order of a chart row's fields (the bar series order) is not modelled. The order that decides topBagType is modelled by `JsObjects.Entries`.
- The top farmer card's specialty breakdown (`overview/index.tsx:615-634`) sorts the chart row's keys inside the render code and is not modelled.
- IncomingReceipt.ReceiptEditor.ChangeDetailField: `handleOrderDetailChange` is defined but no form control calls it. It is modelled because it is part of the screen's code.
- Outgoing receipt warning: only the first detail's bags are rendered in the edit form. The warning is stated per detail, so it covers that case.

## Findings

| source | as written | input that shows it | evidently intended | confidence | as-written member | corrected member |
|---|---|---|---|---|---|---|
| src/screens/SingleColdStorageScreen/incoming-orders/columnDefinition.tsx:87 | The variety, location and status filterFns take `(row, filterValue)`. The table calls them as `(row, columnId, filterValue)`, so the column id is used as the pattern. | A pending order with variety "Jyoti", filtered by typing "Jyoti" or "pending": the row is hidden. | Match the typed value: declare `(row, columnId, filterValue)` as the voucher filter at line 63 does. | not executed | IncomingOrderColumns.VarietyFilterAsCalledMissesMatch | IncomingOrderColumns.CorrectedFiltersFindRow |
| src/screens/SingleColdStorageScreen/outgoing-orders/columnDefinitions.tsx:99 | The variety filterFn takes `(row, filterValue)`, so the column id "orderDetails" is searched for. (The location filterFn at line 144 has the same shape but is never called; see OutgoingOrderColumns.LocationFilterUnreachable.) | A delivery of variety "Jyoti", filtered by typing "Jyoti": the row is hidden. | Match the typed value, as the voucher filter at line 75 does. | not executed | OutgoingOrderColumns.AsCalledMissesMatch | OutgoingOrderColumns.CorrectedFiltersFindRow |
| src/screens/SingleColdStorageScreen/farmers/columnDefinition.tsx:82 | The status filterFn takes `(row, filterValue)`, so it looks for "isverified" inside "verified"/"unverified". | Any farmer and any typed value: every farmer is hidden. | Match the typed value, as the other four filters of the file do. | not executed | FarmerColumns.StatusFilterAsCalledHidesAll | FarmerColumns.StatusFilterCorrectedCases |
