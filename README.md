# Order fulfillment app: a verified model

This project models the core of a Shopify order-fulfillment app for a shop that ships
through the Cargo carrier. The app has three parts.

- The server (`web/middleware/print-order-api.js`):
  - It reads pages of orders from the shop's GraphQL API. For the order list it looks
    up to four pages ahead (or behind) of the requested one.
  - It counts the processing and completed orders.
  - It searches orders by shipping phone.
  - It builds the pick list for the Excel export: the line items of the orders in an
    order-number range, sorted by name, with equal names folded into one row.
  - It issues shipping labels. An order without a Cargo tag gets a new shipment from
    the carrier and a `Cargo Tracking:…, LineNumber:…, RRcode:…` tag. An order that
    already has a tag has the shipment decoded from that tag. Each label has an `RR…1B`
    return code, pages of six items each, and a "page n of m" footer.
- The orders page (`web/frontend/pages/index.jsx`):
  - It holds the tab filters, the search, the day filter, the customer-date filter and
    the order-number filter, and composes them into the query it sends.
  - It holds the cursors kept by the previous/next buttons and the refetch after
    printing.
  - It turns the reply into table rows and splits the selected row ids for printing.
  - It picks the ids to print from the page's URL.
- The report page (`web/frontend/pages/report.jsx`) and the order table
  (`web/frontend/components/OrderIndex.jsx`):
  - The report page flattens orders into line-item rows, folds equal titles and filters
    by order number.
  - The order table renders the cells and hands its selection to the orders page.

How the model represents the system:
- **The shop.** The shop's API is a total function from request variables to a page of
  orders (`Shop.Store`). A walk "while there is a next page" takes a ghost fuel bound.
  The walk's methods require that the store ends the walk within that many pages.
- **JavaScript semantics.** The JavaScript string and number built-ins the code relies
  on are written out in module `Js`: `indexOf` and `includes`, `slice` and `substr`
  with their clamping, `split` and `join`, `Number`, `parseInt`, the truncating `%`,
  and lexicographic `<` on strings.
- **Sorting.** `Array.prototype.sort` with the source's comparator is a stable
  insertion sort (`Grouping.SortByKey`).
- **Shared concepts.** Each is defined once and used by every file that repeats it:
  - the Cargo tag scan (module `Tags`);
  - the order-number range filter and the `name:… OR name:…` query (module
    `OrderNumbers`);
  - the sort-then-fold of equal names (module `Grouping`).

Where the code and the app's written description differ, the model follows the code:
- The forward look-ahead always fetches at least one more page, even when the first
  page says there is no next page. The loop tests `hasNextPage` only after a fetch.
- The RR code is computed from `name.slice(2)`. For the name `#212725` this gives a
  negative id, not the return code the description suggests (see
  `LabelIssuer.RRIdOfShortName`).
- For an order without line items, the card page is numbered 2 while the footer's
  total says 3 (`LabelIssuer.PageNumbering`).

## Model

| member | source | states |
|---|---|---|
| Tags.LastCargoTag | web/frontend/components/OrderIndex.jsx:28-33 | the tag read is the last one mentioning `Cargo`, and there is none exactly when no tag mentions it |
| Tags.ScanCargo | web/frontend/components/OrderIndex.jsx:103-110 | the scan reports "involves Cargo" exactly when some tag mentions `Cargo`, and its shipment number is the one every screen reads from the last such tag |
| OrderNumbers.OrderNumber | web/middleware/print-order-api.js:553 | an order name made only of digits has its decimal value as its number |
| OrderNumbers.OrderNumberOfName | web/middleware/print-order-api.js:553 | a name such as `#1001`, a prefix without digits followed by the digits of a number, has that number |
| OrderNumbers.KeepOrder | web/middleware/print-order-api.js:556-565 | an order is kept exactly when the start is empty or at most its number, and the end is empty or at least its number, compared as JavaScript numbers |
| OrderNumbers.KeepOrderDigits | web/frontend/pages/report.jsx:131-140 | for decimal bounds the range filter keeps exactly the numbers between them, and an empty bound is unbounded |
| OrderNumbers.BuildOrderQuery | web/frontend/pages/index.jsx:506-514 | the button's loop builds exactly the `name:` OR chain the query function describes |
| OrderNumbers.AppendOrChain | web/frontend/pages/report.jsx:300-302 | appending ` OR name:i` for each i in (low, high] gives the prefix followed by the OR chain |
| OrderNumbers.OrderQueryEmpty | web/frontend/pages/report.jsx:303 | the order query is empty exactly when both bounds are empty |
| OrderNumbers.OrChainNames | web/frontend/pages/index.jsx:510-512 | split on spaces, the chain is `OR` and `name:<i>` for each `i` in (low, high] in order, so it names an order exactly when its number is in (low, high] |
| OrderNumbers.OrderQueryNames | web/frontend/pages/report.jsx:296-303 | among the query's terms, `name:<m>` appears exactly when `m` is the start or lies in the chosen range (start+1..start+500, end-500..end, or start+1..end): every order of the range and no other, and nothing at all when both fields are empty |
| Grouping.SortByKeySorted | web/middleware/print-order-api.js:578 | the comparator sort leaves the list ordered by the key and is a permutation of it |
| Grouping.SortByConstantKey | web/frontend/pages/index.jsx:290 | a sort whose comparator sees every element as equal changes nothing |
| Grouping.GroupedSums | web/middleware/print-order-api.js:580-596 | folding runs keeps, for every name, the sum of its quantities and the total quantity |
| Grouping.GroupedAscending | web/middleware/print-order-api.js:580-596 | folding a name-sorted list gives names in strictly ascending order, so one row per name |
| Grouping.GroupedCovers | web/middleware/print-order-api.js:580-596 | every name of the input has a folded row |
| Grouping.GroupedRow | web/middleware/print-order-api.js:580-596 | each folded row is the last line of its run, carrying the sum of all quantities for its name |
| Grouping.ZeroFoldIdempotent | web/middleware/print-order-api.js:583-589 | zeroing all but the last line of each run and putting the run total there is idempotent |
| Grouping.GroupedIdempotent | web/frontend/pages/report.jsx:88-126 | folding an already folded report changes nothing |
| Grouping.PickReportAscending | web/middleware/print-order-api.js:578-596 | the pick list has strictly ascending names |
| Grouping.PickReportCovers | web/middleware/print-order-api.js:578-596 | every line's name appears in the pick list |
| Grouping.PickReportRow | web/middleware/print-order-api.js:578-596 | every pick-list row is an input line whose quantity is the sum for its name |
| Grouping.PickReportTotal | web/middleware/print-order-api.js:578-596 | the pick list's total quantity equals the input's |
| OrderPaging.ForwardFetches | web/middleware/print-order-api.js:322-345 | the forward look-ahead fetches at least one page whenever it may fetch at all, and at most the budget |
| OrderPaging.ForwardFetchesChain | web/middleware/print-order-api.js:322-345 | each look-ahead fetch asks for the page after the previous one's end cursor, and it stops early only at a page without a next page |
| OrderPaging.BackwardFetches | web/middleware/print-order-api.js:347-371 | the backward look-ahead always makes all four fetches |
| OrderPaging.BackwardFetchesChain | web/middleware/print-order-api.js:347-371 | each backward fetch asks for the page before the previous one's start cursor |
| OrderPaging.ForwardRunMerge | web/middleware/print-order-api.js:331-344 | the forward loop appends the fetched orders in order and takes the last page's end cursor and next flag |
| OrderPaging.BackwardRunMerge | web/middleware/print-order-api.js:355-362 | the backward loop puts each earlier page's orders before the list and keeps the original end cursor and next flag |
| OrderPaging.LookAheadForward | web/middleware/print-order-api.js:303-346 | the forward loop computes the forward merge of the first page |
| OrderPaging.LookAheadBackward | web/middleware/print-order-api.js:313-371 | the backward loop computes the backward merge of the first page |
| OrderPaging.OrdersList | web/middleware/print-order-api.js:296-397 | the reply carries the merge in the requested direction and the counts, with processing plus completed equal to all |
| OrderPaging.ForwardWindow | web/middleware/print-order-api.js:322-345 | the forward merge starts with the first page's orders and keeps its start cursor; it has a next page only after four fetches |
| OrderPaging.BackwardWindow | web/middleware/print-order-api.js:347-371 | the backward merge ends with the first page's orders, keeps its end cursor and next flag, and starts at the fourth earlier page |
| OrderPaging.MergeBound | web/middleware/print-order-api.js:303-373 | with pages of at most ten orders the reply holds at most fifty |
| OrderPaging.Walk | web/middleware/print-order-api.js:427-449 | a completed walk starts with the first request's page and ends at a page without a next page |
| OrderPaging.WalkChain | web/middleware/print-order-api.js:533-576 | every page of a walk but the last has a next page, and each later page is asked for after the previous end cursor |
| OrderPaging.WalkFuel | web/middleware/print-order-api.js:427 | more fuel does not change a completed walk |
| OrderPaging.PhoneHits | web/middleware/print-order-api.js:435-440 | the phone filter never adds orders |
| OrderPaging.PhoneHitsMembers | web/middleware/print-order-api.js:435-440 | an order is found exactly when it was read and its shipping phone contains the searched text |
| OrderPaging.PhoneHitsAppend | web/middleware/print-order-api.js:435-440 | filtering page by page gives the same hits, in order, as filtering everything read |
| OrderPaging.FilterPage | web/middleware/print-order-api.js:435-440 | one page's loop pushes exactly that page's hits |
| OrderPaging.PhoneSearch | web/middleware/print-order-api.js:418-449 | the search returns exactly the hits among all orders of the walk, in order |
| ExcelExport.OrderLines | web/middleware/print-order-api.js:548-565 | an order in range contributes one line per line item, in order, with its number and Cargo shipment; an order out of range contributes none |
| ExcelExport.ExportLineSource | web/middleware/print-order-api.js:542-566 | every exported line comes from a line item of an order inside the range |
| ExcelExport.ExportLineHas | web/middleware/print-order-api.js:542-566 | every line item of an order inside the range is exported |
| ExcelExport.CollectOrder | web/middleware/print-order-api.js:543-566 | one order's loops give exactly its lines |
| ExcelExport.CollectPage | web/middleware/print-order-api.js:542-567 | one page's loop gives the lines of its orders in order |
| ExcelExport.CollectLines | web/middleware/print-order-api.js:531-576 | the export walk collects the lines of every order read, in order |
| ExcelExport.FoldInPlace | web/middleware/print-order-api.js:580-596 | the in-place loop leaves each run's total on its last line and zeros elsewhere, and adds exactly the folded rows to the sheet |
| ExcelExport.DownloadExcel | web/middleware/print-order-api.js:531-596 | the sheet holds the folded, name-sorted lines of every order in range |
| ExcelExport.WorksheetRows | web/middleware/print-order-api.js:578-596 | the sheet has one row per item name, in ascending order, with that name's total quantity; every row comes from an order in range and no quantity is lost |
| ReportPage.OrderRows | web/frontend/pages/report.jsx:62-78 | an order gives one row per line item, in order, each with its shipment number |
| ReportPage.ReportRowSource | web/frontend/pages/report.jsx:59-80 | every report row comes from a line item of an order read |
| ReportPage.ReportRowHas | web/frontend/pages/report.jsx:59-80 | every line item read has its report row |
| ReportPage.OrderRowIds | web/frontend/pages/report.jsx:69 | two line items of the same order get different row ids |
| ReportPage.CollectOrder | web/frontend/pages/report.jsx:63-78 | one order's loops give exactly its rows |
| ReportPage.CollectPage | web/frontend/pages/report.jsx:62-79 | one page's loop gives the rows of its orders in order |
| ReportPage.Flatten | web/frontend/pages/report.jsx:59-80 | the rows are those of every order of every page read, in order |
| ReportPage.IntegrateReport | web/frontend/pages/report.jsx:88-126 | the report is the name-sorted rows folded, and no rows give an empty report |
| ReportPage.IntegratedRows | web/frontend/pages/report.jsx:88-126 | the report has one row per title, in ascending order, with that title's total quantity and the details of the title's last row |
| ReportPage.KeptRows | web/frontend/pages/report.jsx:128-141 | the order-number filter never adds rows |
| ReportPage.KeptRowsMembers | web/frontend/pages/report.jsx:130-141 | a row is kept exactly when it was there and its order number is in range |
| ReportPage.KeptRowsAppend | web/frontend/pages/report.jsx:130-141 | the filter keeps the rows' order |
| ReportPage.FilterReport | web/frontend/pages/report.jsx:128-144 | the filter keeps exactly the in-range rows, and the report shown is their fold |
| ReportPage.FilteredRows | web/frontend/pages/report.jsx:128-144 | every row shown after filtering belongs to an order in range |
| ReportPage.KeptAll | web/frontend/pages/report.jsx:131-133 | with both fields empty nothing is filtered out |
| LabelIssuer.JoinIds | web/middleware/print-order-api.js:657-665 | the ids are joined with commas, and splitting them again gives the selection back |
| LabelIssuer.ChunksFlatten | web/middleware/print-order-api.js:1536 | the item pages hold all items, in order |
| LabelIssuer.ChunksSizes | web/middleware/print-order-api.js:1536 | each item page holds one to six items |
| LabelIssuer.ChunksCount | web/middleware/print-order-api.js:1536 | there are ceil(items / 6) item pages |
| LabelIssuer.PageTotal | web/middleware/print-order-api.js:1345-1346 | the footer's total is at least 3 |
| LabelIssuer.NumberSlips | web/middleware/print-order-api.js:1535-1609 | the item pages are numbered from 2 in order, and the card page gets the next number |
| LabelIssuer.PageNumbering | web/middleware/print-order-api.js:1345-1346 | with items the card page's number equals the footer's total; without items it is 2 while the total says 3 |
| LabelIssuer.RRId | web/middleware/print-order-api.js:1423 | the return id is NaN exactly when the name's tail is not a number, and lies in 1..999999998 once that number reaches the base |
| LabelIssuer.BuildRRCode | web/middleware/print-order-api.js:1422-1427 | the zero-padding loop builds exactly the return code |
| LabelIssuer.RRCodeDigits | web/middleware/print-order-api.js:1422-1427 | the return code is `RR`, nine digits holding the id, then `1B` |
| LabelIssuer.RRCodeInjective | web/middleware/print-order-api.js:1422-1427 | different order numbers within one cycle of the modulus get different return codes |
| LabelIssuer.RRCodeBelowBase | web/middleware/print-order-api.js:1423 | a number below the base gives a negative id and a `-` in the code |
| LabelIssuer.RRIdOfShortName | web/middleware/print-order-api.js:1423 | for the name `#212725` the code reads `12725` and gives the id -199998 |
| LabelIssuer.TagLayout | web/middleware/print-order-api.js:1433 | where the shipment, the line and their commas sit in the new tag |
| LabelIssuer.ShipmentOfTag | web/middleware/print-order-api.js:1459-1463 | decoding a tag the app wrote gives back its shipment id |
| LabelIssuer.LineMarkOfTag | web/middleware/print-order-api.js:1461 | the `LineNumber` mark found is the one inside the app's tag |
| LabelIssuer.LineOfTag | web/middleware/print-order-api.js:1461-1464 | decoding a tag the app wrote gives back its line text |
| LabelIssuer.CargoTagParts | web/middleware/print-order-api.js:1433 | the comma-separated tag splits into its three parts |
| LabelIssuer.CargoTagShown | web/frontend/components/OrderIndex.jsx:103-110 | the table shows the shipment id of the tag the app wrote |
| LabelIssuer.ShipmentPart | web/frontend/components/OrderIndex.jsx:108 | the text after `:` in the tracking part is the shipment id |
| LabelIssuer.IssueLabel | web/middleware/print-order-api.js:1352-1473 | the label step asks the carrier and tags the order when there is no Cargo tag, and otherwise decodes the tag |
| LabelIssuer.ReprintSameLabel | web/middleware/print-order-api.js:1410-1473 | reprinting a labelled order gives the same shipment, line and return code without a new tag or carrier call |
| IndexPage.TabQueryBound | web/frontend/pages/index.jsx:62-75 | every tab's filter ends with the `created_at:>"<since>"` term |
| IndexPage.TabQueriesDiffer | web/frontend/pages/index.jsx:65-72 | the three tabs have different filters |
| IndexPage.RowOf | web/frontend/pages/index.jsx:118-137 | a row exists exactly when the order has a fulfillment order |
| IndexPage.Rows | web/frontend/pages/index.jsx:116-137 | the rows exist exactly when every order has a fulfillment order, and are then the orders' rows in order |
| IndexPage.MoreQuantity | web/frontend/pages/index.jsx:129-134 | the flag is set exactly when some line item has quantity above one |
| IndexPage.MapRows | web/frontend/pages/index.jsx:116-137 | the mapping loop gives the rows |
| IndexPage.RowIdRoundTrip | web/frontend/pages/index.jsx:284-288 | splitting a row id gives back the order's number and its fulfillment order id |
| IndexPage.SplitIds | web/frontend/pages/index.jsx:280-290 | each row id gives its order number and fulfillment id, in order, and the sort of the wrapped ids keeps that order |
| IndexPage.FirstMatch | web/frontend/pages/index.jsx:297-301 | the lookup finds the first loaded order whose id contains `Order/<id>`, or reports that none does |
| IndexPage.PrintOrdersFrom | web/frontend/pages/index.jsx:295-303 | at most one order is printed per selected id, and each printed order was loaded and is named by a selected id |
| IndexPage.PrintOrdersCover | web/frontend/pages/index.jsx:295-303 | every selected id that names a loaded order has an order printed |
| IndexPage.PickPrintOrders | web/frontend/pages/index.jsx:295-303 | the nested loops with `break` pick exactly those orders |
| IndexPage.LookupByPrefix | web/frontend/pages/index.jsx:298 | the substring test lets id `12` pick the order `…/Order/123` when that order comes first |
| IndexPage.SearchQueryAsWrittenGlued | web/frontend/pages/index.jsx:113 | as written, a day filter and an order-number query run together into one term |
| IndexPage.SearchQueryAsWrittenGluedDate | web/frontend/pages/index.jsx:223 | as written, a customer-date bound and an order-number query run together into one term |
| IndexPage.SearchQueryTerms | web/frontend/pages/index.jsx:109-114 | the corrected query's terms are the filters' terms followed by the order query's, and equal the written query without an order query |
| IndexPage.BoundsHaveNoSpace | web/frontend/pages/index.jsx:562-568 | the date bounds are single terms |
| IndexPage.DateClause | web/frontend/pages/index.jsx:561-570 | the customer-date clause is empty exactly when no date was given |
| IndexPage.DateClauseTerms | web/frontend/pages/index.jsx:567-569 | with both dates the clause reads `created_at:>start AND created_at:<next` |
| IndexPage.DateClauseOneBound | web/frontend/pages/index.jsx:561-566 | with one date the clause holds that date's bound alone |
| IndexPage.RefetchKeepsQuery | web/frontend/pages/index.jsx:317-341 | the refetch sends nothing when both cursors are kept; otherwise it keeps the query and sort and asks for ten orders in one direction |
| IndexPage.OrdersPage.constructor | web/frontend/pages/index.jsx:48-60 | the page opens on the processing tab with empty filters and no cursor, and a refetch reloads the first page |
| IndexPage.OrdersPage.ChangeTab | web/frontend/pages/index.jsx:62-75 | the tab changes, its filter is set for tabs 0 to 2, and nothing else changes |
| IndexPage.OrdersPage.ChangeDayFilter | web/frontend/pages/index.jsx:177-180 | the day query becomes the chosen value and nothing else changes |
| IndexPage.OrdersPage.ChangeSort | web/frontend/pages/index.jsx:182-184 | the order is reversed exactly for the option `"true"`, and nothing else changes |
| IndexPage.OrdersPage.ChangeSearch | web/frontend/pages/index.jsx:193-196 | the search text becomes the query's head, and nothing else changes |
| IndexPage.OrdersPage.FilterCustomerDate | web/frontend/pages/index.jsx:561-570 | the three sequential assignments leave the clause for the dates given, and nothing else changes |
| IndexPage.OrdersPage.FilterOrderNumber | web/frontend/pages/index.jsx:505-514 | the order query becomes the OR chain of the range, and nothing else changes |
| IndexPage.OrdersPage.OnPrevious | web/frontend/pages/index.jsx:212-225 | the current page info is kept as the next one and the ten orders before it are asked for, with the query as the page writes it (the order-number query glued on); a refetch then asks for the same page |
| IndexPage.OrdersPage.OnNext | web/frontend/pages/index.jsx:241-254 | the current page info is kept as the previous one and the ten orders after it are asked for, with the query as the page writes it (the order-number query glued on); a refetch then asks for the same page |
| IndexPage.OccurrencesFound | web/frontend/pages/index.jsx:406-408 | the matches are non-overlapping occurrences of `ids%5B%5D`, each found after the previous one |
| IndexPage.IdAt | web/frontend/pages/index.jsx:410-413 | the corrected cut agrees with the written one whenever an `&` follows |
| IndexPage.IdAtRoundTrip | web/frontend/pages/index.jsx:406-414 | the corrected cut gives back every `ids[]` value, the last one included |
| IndexPage.IdAtAsWrittenLosesLast | web/frontend/pages/index.jsx:410-413 | as written, a non-empty last value with no `&` after it is cut to the empty string |
| IndexPage.MatchPositions | web/frontend/pages/index.jsx:406-411 | the regular-expression loop records, for each match, where its value starts and the next `&` |
| IndexPage.CutIds | web/frontend/pages/index.jsx:412-414 | the cutting loop gives, for every match in order, the `substr` up to the next `&` as written, with no test for a missing `&` |
| IndexPage.IdsOfAt | web/frontend/pages/index.jsx:410-413 | each value the page cuts is the as-written cut at its match, and the whole value whenever an `&` follows it |
| IndexPage.PrintFromUrl | web/frontend/pages/index.jsx:398-416 | printing is asked for with the `id` parameter, then with it followed by the value cut after every `ids[]` match, in URL order; a last value with no `&` after it is cut to `""` |
| IndexPage.PageCountFits | web/frontend/pages/index.jsx:157-160 | the page count is the least number of fifty-order pages that hold the selected tab's count |
| OrderTable.Truncate | web/frontend/components/OrderIndex.jsx:228-230 | a text over the limit keeps its first n-1 characters and gets an ellipsis; otherwise, or without a limit, it is kept |
| OrderTable.TruncateFits | web/frontend/components/OrderIndex.jsx:228-230 | a truncated text fits its positive limit exactly, and truncating again changes nothing |
| OrderTable.RowCells | web/frontend/components/OrderIndex.jsx:102-137 | the row markup fills the cells the row shows |
| OrderTable.ShipmentCellOfTags | web/frontend/components/OrderIndex.jsx:112-116 | the shipment cell shows a number exactly when a tag mentions Cargo, read from the last such tag |
| OrderTable.AdminUrlNamesOrder | web/frontend/components/OrderIndex.jsx:130 | the admin link of an order row is the shop's admin page of that order number |
| OrderTable.IndexOfItem | web/frontend/components/OrderIndex.jsx:199 | `indexOf` gives the first position of the id, or -1 exactly when it is absent |
| OrderTable.DeselectOne | web/frontend/components/OrderIndex.jsx:197-203 | deselecting a row removes one occurrence of its id, and an absent id leaves the list as it was |
| OrderTable.SelectThenDeselect | web/frontend/components/OrderIndex.jsx:177-203 | selecting a new row and deselecting it gives back the earlier selection |
| OrderTable.SelectPage | web/frontend/components/OrderIndex.jsx:193-194 | selecting the page selects exactly the rows shown, in order |
| OrderTable.OnSelectionChange | web/frontend/components/OrderIndex.jsx:174-207 | the handler hands over the list the selection change describes |

## Left out

- The remote calls are not modelled: the GraphQL and REST clients, `Order.count`, the
  carrier's `CreateShipment` and the tag mutation. Their replies are parameters: the
  store function, the counts and the carrier reply.
- The order of asynchronous completions is not modelled: the label's `count` that
  decides when the reply is sent, and the un-awaited `map` in `printLabel`. Each order's
  label is modelled on its own.
- If the carrier call fails, the reply is never sent. This hang is not modelled.
- Rendering is not modelled: the HTML label templates, the Excel workbook and its
  styling, FileSaver, `window.open`, React state timing and the Polaris components.
  `ReportTable.jsx` is not part of this model.
- Dates are inputs, not computed: today's date, the date 55 days back, the next-day
  date, and the `dayjs` formatting of dates in the table.
- Hebrew text and `toUtf8` are left out.
- The `array_chunk` helper file is not part of this model. Its behaviour is stated as
  chunks of six (`LabelIssuer.Chunks`).
- The `reportsList` and `fulfillmentOrders` handlers, and the other server routes, are
  not modelled.
- Shopify splits the comma-separated tag string into tags. The model shows that the
  app's tag splits into three parts (`LabelIssuer.CargoTagParts`), not the API's own
  splitting.
- The alert when no id is selected is not modelled.
- The orders page keeps its cursors when a filter changes (`reloadData` does not reset
  them), and the model keeps that. The request that `reloadData` sends is
  `IndexPage.LoadRequest`.
- `SmallScreenCard` is not modelled separately. It shows the same cells as the table
  row with a name limit of 35 (`OrderTable.CellsOf`).
- Js.NumberOf: models `Number` only for digit strings (`""` gives 0); every other text
  is `NaN`, including signs, decimals and surrounding spaces.
- Js.ParseInt: models leading white space and line terminators, a sign and the digit
  prefix; hexadecimal prefixes are not modelled.
- Js.Less: compares characters by their Unicode value, while JavaScript compares UTF-16
  code units; the two orders differ only when a character past U+FFFF meets one in
  U+E000 to U+FFFF.
- IndexPage.MatchPositions: matches `ids%5B%5D` case-sensitively, while the regular
  expression has the `i` flag, so a key written in another case is found by the source and not by the model.
- OrderPaging.PhoneSearch: assumes the walk ends within the fuel bound, because the
  source loops until the shop reports no next page.
- ExcelExport.CollectLines: the same fuel bound as the phone search.
- ExcelExport.DownloadExcel: the same fuel bound as the phone search.
- LabelIssuer.ShipmentOfTag: proved only when no `C` comes before the app's tag in the
  tags string, because `indexOf('Cargo')` finds the first mention.
- LabelIssuer.LineOfTag: proved only when no `L` comes before the `LineNumber` mark.
- LabelIssuer.LineMarkOfTag: proved only when no `L` comes before the app's tag in the
  tags string and none is in the shipment id, because `indexOf('LineNumber')` finds the
  first mention in the whole string.
- LabelIssuer.ReprintSameLabel: proved only when no `C` and no `L` come before the
  app's tag and none is in the shipment id, for the same two `indexOf` reasons.
- IndexPage.LookupByPrefix: the prefix match is shown but not listed as a finding,
  because it bites only when ids of different lengths are loaded together.

## Findings

| source | as written | input that shows it | evidently intended | confidence | as-written member | corrected member |
|---|---|---|---|---|---|---|
| web/frontend/pages/index.jsx:410-413 | the value of an `ids[]` parameter is cut up to the next `&`; the last parameter has none, so `indexOf` gives -1 and `substr` gets a negative length | URL `ids%5B%5D=42`: the value cut is `""`, not `42` | the last value runs to the end of the URL | low, not executed | IndexPage.IdAtAsWrittenLosesLast | IndexPage.IdAtRoundTrip |
| web/frontend/pages/index.jsx:113 | the order-number query is appended to the day and customer-date filters with no space | day filter `processed_at:"past_week"` with order numbers 10 to 11 gives the term `processed_at:"past_week"name:10` | a space separates the order query from the filters | medium, not executed | IndexPage.SearchQueryAsWrittenGlued | IndexPage.SearchQueryTerms |
