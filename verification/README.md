# cash-recon in Dafny

A model of the cash reconciliation core of `cash_recon`, written so that its
promises can be proved.

- **The engine.** `build_cash_recon` takes one store, one period, the Hotcake
  booking report, the Hotcake bill record (service bills and top-up bills) and,
  optionally, the POS order history. It returns four things:
  - the checked-in bookings that were never billed;
  - the service bills of the bookings in scope, in bill-id order;
  - the top-up bills settled in the period;
  - the cash totals, and the difference from the POS cash when POS data is given.
- **The spreadsheet loaders.** These turn the exported workbooks into rows:
  - header normalisation and lookup (`_to_str`, `_norm_header`, `_build_index`, `_find_first`);
  - the search for a second "訂單編號" column;
  - the missing-column errors;
  - the row-skip filters of the orders, bills, POS and card-machine loaders.
- **The classifier.** `detect_xlsx_kind` decides which kind of export a
  workbook is by a fixed list of header rules.

## Modelling choices

- **Time and money.**
  - Datetimes are integers, because only `<=` is used on them.
  - Money is `real`, so there is no float rounding.
- **Workbooks.** A worksheet is a sequence of rows of cells (`Sheets`). Cell
  `(r, c)` is 1-based and is empty outside the stored range, as in openpyxl.
- **Parsed cell values.** A cell carries what the source's parsers make of
  its text:
  - `asTime`: the result of `_parse_datetime`;
  - `asDate`: the result of `_parse_date`;
  - `asAmount`: the result of `_to_float`.

  `None` in `asAmount` stands for the `ValueError` raised by `float()`. The
  parsers' handling of empty cells is modelled rather than carried: the
  loaders read cells through `AmountAt`, `TimeAt` and `DateAt`. There a cell
  without text has no time or date, and a cell without text (or only
  separators and the currency sign) is the amount 0.
- **Bills as the engine sees them.** The engine reads the bills as
  `dict[str, BillRow]`. This is modelled as `BillTable`: the bill ids in
  insertion order plus a map from id to row.
  - `Keyed()`: the ids are distinct and are exactly the map's keys. This is
    all that `.values()` needs, and all the engine asks of the top-up sheet.
  - `Valid()`: keyed, and each row is filed under its own bill id.
- **Loader errors.** Each `raise ValueError` of a loader is a `LoadError`
  variant, returned as `Failure`. A loader either fails or returns all its rows.
- **Sorting.** Python's `sorted` on strings is lexicographic order on code
  points (`LexOrder.Less`).

## Model

| member | source | states |
|---|---|---|
| Headers.ToStr | cash_recon/parse.py:23-26 | A blank cell gives ""; otherwise the text with surrounding whitespace stripped, so the result neither starts nor ends with whitespace |
| Text.Strip | cash_recon/parse.py:26 | The result is a slice of the input with only whitespace cut from either end, and it neither starts nor ends with whitespace |
| Headers.NormHeader | cash_recon/parse.py:29-42 | The normalised header is the stripped text passed through a per-character map: spaces, U+3000, '-' and '_' are dropped; full-width '：' and '／' become ':' and '/'; ASCII letters are lower-cased. Every character of the result is one the map can produce |
| Headers.CanonicalIsPerChar | cash_recon/parse.py:34-42 | The source's chain of whole-string replacements followed by lower() is the same as mapping each character on its own |
| Headers.CanonicalAppend | cash_recon/parse.py:34-42 | The replacement chain distributes over concatenation |
| Headers.IndexKeysFirstOccurrence | cash_recon/parse.py:45-52 | Every key in the index is non-empty and mapped to the 1-based column of its first occurrence; every non-empty key of the row is in the index |
| Headers.BuildIndex | cash_recon/parse.py:45-52 | Blank headers are skipped and later duplicates ignored: the index maps exactly the non-empty normalised headers, each to its first column |
| Headers.FindFirstKey | cash_recon/parse.py:55-60 | None iff no key is in the index; otherwise the column of the first key, in the given order, that is indexed |
| Headers.FindFirst | cash_recon/parse.py:55-60 | Candidates are normalised and tried in order: None iff none is a key; otherwise the column of the first one that is |
| Headers.HasKeyWitness | cash_recon/parse.py:45-60 | "Some column's key is a wanted non-empty key" holds iff a pair of positions witnesses it |
| Headers.FindFirstKeyInKeys | cash_recon/parse.py:45-60 | Indexing then looking up finds a column iff some key equals a wanted key; the column found lies in the row and carries a wanted key |
| Headers.FindFirstInHeader | cash_recon/parse.py:45-60 | `_find_first(_build_index(header), candidates)` is not None iff some header cell normalises to some candidate; the column it returns carries one |
| Headers.HasColumnNamesOne | cash_recon/parse.py:45-60 | A header "has" a candidate column iff some cell normalises to the non-blank normalised name of some candidate |
| Headers.Column | cash_recon/parse.py:187-200 | The column lookup used by every loader: found iff the header has a matching cell, and the found column matches |
| Headers.CountKeyPrefix | cash_recon/parse.py:219-226 | A prefix of the header never holds more copies of a key than the whole header |
| Headers.ScanSecond | cash_recon/parse.py:219-226 | The scan with a counter finds a column iff the key occurs at least twice; the column it finds holds the key and has exactly one earlier copy |
| Headers.OrderCodeColumn | cash_recon/parse.py:218-226 | Called with 訂單編號: the order-code column is None iff fewer than two header cells normalise to that name; otherwise it is the second such cell |
| Headers.MissingColumns | cash_recon/parse.py:214 | Lists exactly the names whose lookup failed; it is empty iff every lookup succeeded |
| Headers.MissingColumnsAppend | cash_recon/parse.py:202-214 | Missing names keep their declared order (the list distributes over concatenation) |
| Loaders.AmountAt | cash_recon/parse.py:96-105 | `None` and `""` read as 0; an amount is missing only when the cell has text and its own parse raises |
| Loaders.TimeAt | cash_recon/parse.py:63-77 | A cell with no text after stripping has no timestamp; a timestamp, when there is one, is the cell's parse |
| Loaders.DateAt | cash_recon/parse.py:80-93 | A cell with no text after stripping has no date; a date, when there is one, is the cell's parse |
| Loaders.LoadRows | cash_recon/parse.py:125-162 | The per-row loop succeeds iff no row in the range raises; a failure is the first raising row's error; on success, a row is in the output iff some row in the range emits it |
| Loaders.LoadRowsSplit | cash_recon/parse.py:125-162 | Loading a range is loading its two halves one after the other, stopping at the first failure |
| Loaders.Resolve | cash_recon/parse.py:191-213 | One entry per required column group, with the group's display name; an entry has a column iff the header has a matching cell, and that column matches |
| Loaders.MissingNamesOfResolve | cash_recon/parse.py:202-214 | A display name is reported missing iff its group has no matching header cell |
| Loaders.RequireColumns | cash_recon/parse.py:202-216 | Succeeds iff every group has a matching column, giving one matching column per group; otherwise fails with exactly the missing groups' display names, in the order the groups are declared |
| Loaders.ParseOrderRow | cash_recon/parse.py:126-161 | A row is skipped iff its order id is empty or its service start does not parse; a kept row raises iff its bill amount is not a number; an emitted row carries, in every one of its twelve fields, the text, time or amount of that field's column, and an empty order code when there is no code column |
| Loaders.OrdersLoadFailure | cash_recon/parse.py:126-141 | The orders loop raises iff some kept row has an unparsable bill amount |
| Loaders.OrdersRowsFromKeptRows | cash_recon/parse.py:126-162 | Every loaded order comes from a kept data row and has its id and start time; every kept row yields an order with its id |
| Loaders.LoadOrdersWithColumns | cash_recon/parse.py:124-162 | The same two facts for `_load_hotcake_orders_with_columns`, plus empty order codes when there is no code column |
| Loaders.LoadOrdersWithMapping | cash_recon/parse.py:165-174 | With a user mapping, the only error is an unparsable amount, and no loaded order has an empty id |
| Loaders.OrderColumnsOf | cash_recon/parse.py:184-226 | Fails with the order-id error iff the header has no 訂單編號 column; fails with a missing-columns error iff the id is present but some other group is absent, listing exactly the absent groups in their declared order; the code column is None iff 訂單編號 occurs fewer than twice |
| Loaders.ResolveOrderColumns | cash_recon/parse.py:184-226 | The same resolution for any order-id name and any ten column groups: the id error iff the id column is absent; the missing-columns error, naming exactly the absent groups in their declared order, iff the id is present and a group is absent |
| Loaders.LoadOrders | cash_recon/parse.py:177-241 | `load_hotcake_orders_xlsx`: the same two column errors on the chosen sheet's first row; no loaded order has an empty id; order codes are empty when 訂單編號 occurs fewer than twice |
| Loaders.ParseBillRow | cash_recon/parse.py:288-316 | A row is skipped iff its bill id is empty or its settlement time or attributed date does not parse; a kept row raises iff one of its amounts is not a number; an emitted row carries, in every field, the text, time, date or amount of that field's column, with 0 for an absent card or LinePay column and the column's amount for a present one |
| Loaders.BillsLoadFailure | cash_recon/parse.py:288-302 | The bills loop raises iff some kept row has an unparsable amount |
| Loaders.BillsFromKeptRows | cash_recon/parse.py:288-317 | Every loaded bill has a non-empty id and comes from a kept row; every kept row yields a bill with its id |
| Loaders.LoadBillRows | cash_recon/parse.py:287-317 | The same facts for the whole per-row loop of `_load_hotcake_bill_sheet` |
| Loaders.BillColumnsOf | cash_recon/parse.py:259-285 | Succeeds iff all eight required groups have columns, otherwise names exactly the absent ones in declared order; card and LinePay columns are present iff the header has them |
| Loaders.LoadBillSheet | cash_recon/parse.py:258-317 | The missing-columns error is raised iff a required group is absent; loaded bills have ids; card and LinePay amounts are 0 when those columns are absent |
| Loaders.LoadBillSheetWithMapping | cash_recon/parse.py:339-370 | With a mapping, the only error is an unparsable amount; bills have ids; amounts of unmapped optional columns are 0 |
| Loaders.LoadBillsWithMapping | cash_recon/parse.py:326-374 | A missing service sheet is reported first, then a missing top-up sheet; otherwise both sheets are loaded with the same mapping |
| Loaders.LoadBills | cash_recon/parse.py:377-387 | The same sheet checks for 服務 and 儲值金, then both sheets are loaded by `_load_hotcake_bill_sheet` |
| Loaders.ParsePosRow | cash_recon/parse.py:473-497 | A row is skipped iff its product name is empty or its creation time does not parse; a kept row raises iff its order amount or cash is not a number; an emitted row carries, in all eight fields, the text, time or amount of that field's column |
| Loaders.PosLoadFailure | cash_recon/parse.py:473-482 | The POS loop raises iff some kept row has an unparsable amount |
| Loaders.PosFromKeptRows | cash_recon/parse.py:473-497 | Every loaded sale comes from a kept row below the header and has its name and time; every kept row yields a sale |
| Loaders.LoadPosRows | cash_recon/parse.py:472-498 | The same facts for the whole POS loop starting after the header row |
| Loaders.LoadPosWithMapping | cash_recon/parse.py:402-437 | With a mapping, the only error is an unparsable amount, and every sale comes from a row below the header with a non-empty product name |
| Loaders.PosColumnsOf | cash_recon/parse.py:446-470 | Succeeds iff all eight groups have columns on row 3, otherwise names exactly the absent ones in declared order |
| Loaders.LoadPos | cash_recon/parse.py:440-498 | The missing-columns error is raised iff a group is absent from row 3 of the first sheet; sales have product names; a sheet with no rows below row 3 loads nothing |
| Loaders.ParseCardRow | cash_recon/parse.py:543-565 | A row with an order id raises iff one of its amounts is not a number, even when its time does not parse, because the amounts are read first; a row is emitted iff it has an id, numeric amounts and a parsable time, and it carries all seven fields: that id, the parsed time, paid amount and amount, and the store, device and payment-method cells' text |
| Loaders.CardLoadFailure | cash_recon/parse.py:543-553 | The card loop raises iff some row with an order id has an unparsable amount |
| Loaders.CardsFromKeptRows | cash_recon/parse.py:543-565 | Every loaded transaction comes from a kept row; every kept row yields one |
| Loaders.LoadCardRows | cash_recon/parse.py:542-566 | The same facts for the whole card-machine loop |
| Loaders.CardColumnsOf | cash_recon/parse.py:518-540 | Succeeds iff all seven groups have columns on row 2, otherwise names exactly the absent ones in declared order |
| Loaders.LoadCards | cash_recon/parse.py:512-566 | The missing-columns error is raised iff a group is absent from row 2; transactions have order ids; a sheet with no rows below row 2 loads nothing |
| Logic.ScopeOrders | cash_recon/logic.py:33 | An order is in scope iff it is an input order of exactly the given store whose service start lies in the period, both bounds inclusive |
| Logic.ScopeOrdersKeepsOrder | cash_recon/logic.py:33 | Scoping keeps the input order: it distributes over concatenation, keeping or dropping each order in place |
| Logic.MissingBills | cash_recon/logic.py:37-52 | Each missing-bill row is the projection of a scoped order that is checked in, has no bill id and a zero bill amount; every such order is reported |
| Logic.MissingBillsIsFilterThenProject | cash_recon/logic.py:37-52 | The loop equals filtering by the three conditions and then copying the ten fields, so rows keep the scoped order and each qualifying order is reported exactly once |
| Logic.MissingBillsAppend | cash_recon/logic.py:37-52 | The missing-bill list distributes over concatenation of the scoped orders |
| Logic.NonEmptyBillIds | cash_recon/logic.py:53-54 | The collected ids are exactly the non-empty bill ids of the scoped orders |
| LexOrder.SortDistinct | cash_recon/logic.py:57 | `sorted(set)`: the result is strictly ascending and holds exactly the input's elements |
| Logic.BillIdsInScope | cash_recon/logic.py:53-57 | `sorted(bill_ids_in_scope)` is strictly ascending and holds exactly the non-empty bill ids of the scoped orders |
| Logic.BilledBookingsAreNotMissing | cash_recon/logic.py:38-54 | An order with a bill id contributes it to the id set and is never a missing bill; every missing-bill row comes from an order without a bill id |
| Logic.ServiceRows | cash_recon/logic.py:56-72 | A row is listed iff some id in the list has a service bill, and it is that bill's projection; ids without a bill are skipped |
| Logic.ServiceRowIds | cash_recon/logic.py:57-60 | The listed rows' ids are exactly the ids present in the service table, in the order tried |
| Logic.TopUpRows | cash_recon/logic.py:75-92 | There are never more top-up rows than top-up bills |
| Logic.TopUpRowsMembers | cash_recon/logic.py:75-92 | A row is listed iff it is the projection of a top-up bill of exactly the given store whose settlement time lies in the period |
| Logic.PosCashTotalIsInPeriodSum | cash_recon/logic.py:101-102 | The POS total is the sum of cash paid over the sales created in the period, with no store filter |
| Logic.SumWhereIsInPeriodSum | cash_recon/logic.py:101-102 | Summing only the in-period sales is the same as summing the in-period filter of the sales |
| Logic.BuildCashRecon | cash_recon/logic.py:25-118 | The result echoes the period and store; the Hotcake total is service cash plus top-up cash, each the plain sum over its rows; POS total and difference are present iff POS data is given, and then difference = POS total - Hotcake total; never more missing bills than orders |
| Logic.MissingBillsOfRun | cash_recon/logic.py:33-52 | Inserting one order into the input adds exactly its missing-bill row at that position, and only when it is in scope and qualifies |
| Logic.ScopedMissingBillsKeepOrder | cash_recon/logic.py:33-52 | The same fact on the scoping-then-selection pipeline |
| Logic.OneBookingMissing | cash_recon/logic.py:33-52 | A run over one booking lists it as missing, once and with its fields, iff it is of the store, its start lies within the period with both bounds inclusive, its status is 已報到, its bill id is empty and its bill amount is exactly 0 |
| Logic.ServiceRowsOfRun | cash_recon/logic.py:56-72 | Service rows are in strictly ascending bill-id order; a row is listed iff its id is the bill id of some in-scope order and the service table has a bill under that id; the bill's own store and settlement time are not checked |
| Logic.TopUpRowsOfRun | cash_recon/logic.py:74-92 | Top-up rows do not depend on the orders: a row is listed iff it is a top-up bill of exactly the given store settled in the period |
| Logic.HotcakeTotalOfRun | cash_recon/logic.py:94-96 | The Hotcake cash total is the cash sum over the service and top-up rows together |
| Logic.PosTotalsOfRun | cash_recon/logic.py:98-103 | With POS data, the POS total is the in-period cash sum and the difference is that sum minus the Hotcake total |
| Logic.LoadedBillsNeverReconcile | cash_recon/logic.py:56-76 | The engine applied to bills as the loaders return them (lists) fails on every input |
| Logic.IndexBillsValid | cash_recon/logic.py:58 | Filing the loaded bill rows by id gives a well-formed table that holds every row's id |
| Logic.IndexBillsKeepsLastRow | cash_recon/logic.py:58 | The bill filed under an id is one of the loaded rows, and no later row carries that id: a repeated id keeps its last row |
| Logic.BuildCashReconOnIndexedBills | cash_recon/logic.py:25-118 | The engine run on the bills filed by id echoes the period and store, and its Hotcake total is the cash sum over all listed rows |
| Logic.IndexedServiceBillsAreListed | cash_recon/logic.py:57-72 | On bills filed by id, every in-scope order with a bill id that has a loaded service bill gets a service row with that id |
| Detect.HeaderUpTo | cash_recon/detect.py:38 | A rule's header has min(max column, limit) cells, and cell c of it is cell (r, c) of the sheet |
| Detect.ContainsAt | cash_recon/detect.py:54 | The substring test holds iff the title occurs at some position of the cell's text |
| Detect.BillsRuleMeaning | cash_recon/detect.py:36-41 | The bills rule holds iff both 服務 and 儲值金 exist and, among the first 80 cells of row 1 of 服務, one normalises to 帳單編號 and one to 結帳操作時間 or 結帳時間 |
| Detect.OrdersReportRuleMeaning | cash_recon/detect.py:44-49 | The orders-report rule holds iff 訂單報表 exists and, among the first 120 cells of its row 1, one normalises to 訂單編號 and one to one of the four start-time names |
| Detect.PosTitleRuleMeaning | cash_recon/detect.py:52-59 | The POS-title rule holds iff cell A1 of the first sheet is a string in which 歷史訂單 occurs at some position and the row-3 POS columns are present |
| Detect.OrdersFirstSheetRuleMeaning | cash_recon/detect.py:62-66 | The fallback orders rule holds iff, among the first 120 cells of row 1 of the first sheet, one normalises to 訂單編號 and one to 日期時間 or 服務開始時間 |
| Detect.PosHeaderMeaning | cash_recon/detect.py:68-71 | The row-3 POS rule holds iff, among the first 120 cells of row 3 of the first sheet, one normalises to each of 商品名稱, 建立時間 and 現金支付 |
| Detect.FirstMatch | cash_recon/detect.py:36-73 | No detection iff no rule holds; otherwise the detection of a rule that holds with no earlier rule holding |
| Detect.Decide | cash_recon/detect.py:36-73 | Bills iff the bills rule holds; unknown iff no rule holds, and exactly then there is no sheet; the sheet is 服務 when the bills rule holds, else 訂單報表 when the orders-report rule holds, else the first sheet; each rule that holds with no earlier rule holding decides the kind and the sheet |
| Detect.DecideIsFirstMatch | cash_recon/detect.py:36-73 | The if-chain is the first match in the fixed rule order: bills, orders report, POS title, orders on the first sheet, POS on row 3 |
| Detect.DetectKind | cash_recon/detect.py:24-73 | An unreadable workbook is unknown with no sheet; any sheet returned exists; bills iff the bills rule holds, and then the sheet is 服務; unknown iff none of the bills, orders-report, first-sheet orders and row-3 POS rules holds; the orders-report rule without the bills rule gives orders on 訂單報表; the POS row-3 rule alone gives POS on the first sheet |
| Detect.DetectKindFirstSheetCases | cash_recon/detect.py:52-66 | With neither the bills nor the orders-report rule holding, the POS-title rule gives POS on the first sheet, and otherwise the fallback orders rule gives orders on the first sheet, each with its own reason text |
| Scenarios.AmyReconciles | cash_recon/logic.py:25-118 | A billed booking with a matching POS sale gives no missing bills, service cash 1000, top-up cash 0, POS total 1000 and difference 0 |
| Scenarios.UnbilledIsReportedOnce | cash_recon/logic.py:37-57 | A checked-in booking with no bill id and a zero amount is reported once, and no service rows are listed |
| Scenarios.PeriodBoundsAreInclusive | cash_recon/logic.py:11-12 | Bookings exactly at either end of the period are in scope; one time unit outside is not |

## Left out

- Opening workbooks with openpyxl (`_load_workbook`) is not modelled. A workbook is a value; an unreadable file is a `Failure` carrying the exception text.
- Parsing the text of a non-empty cell into a datetime (`_parse_datetime`, `_parse_date`) or a number (`_to_float`) is not modelled: these are strptime and float parsing. Each cell carries the outcome of these parsers; only their empty-cell cases are modelled.
- Floating point is not modelled. Money is exact `real`, so the sums are exact.
- Lower-casing is ASCII only. Python's `str.lower()` also folds other scripts; the header names in use are CJK or ASCII.
- Exception message texts are modelled as `LoadError` variants that carry the data of the message (missing names, sheet name, cell).
- A user mapping that lacks a required key raises `KeyError` in the source. Mappings here are records with every field, so that error is not modelled.
- Column numbers below 1 in a user mapping make openpyxl raise; cells outside the sheet read as empty here.
- Loaders.LoadPosWithMapping: a `header_row` of -1 or less makes the source's loop start at row 0 or below, where `ws.cell` raises. Here such rows read as empty cells and are skipped, so the model returns the sales of the remaining rows instead of raising.
- The engine is deterministic and keeps no state between calls. Dafny functions have this property inherently, so no lemma states it.
- cash_recon/report.py (spreadsheet rendering), app.py (the web UI) and cash_recon/cli.py (argument parsing and file I/O) are not part of this model.
- `CardMachineRow` rows are loaded, but the engine never uses them. There is no POS or card matching, time tolerance, top-up mode or store-name normalisation in `build_cash_recon`, so none is modelled.
- Logic.ServiceRowsOfRun: its contract also needs the service table to be filed by each bill's own id, as `IndexBills` builds it. Without that, "a row with bill id x" cannot be stated for the source's dict.
- Logic.TopUpRows: the function itself promises only a length bound. Its membership property is stated by `Logic.TopUpRowsMembers`.
- Logic.LoadedBillsNeverReconcile: the engine rejects list-shaped bills by its first operation. The lemma's proof is immediate from the definition, which models that rejection.
- Detect.DetectKind: the POS-title and fallback-orders cases are not on the function's own contract. They are stated by `Detect.DetectKindFirstSheetCases`, which keeps the function's proof small.

## Findings

| source | as written | input that shows it | evidently intended | confidence | as-written member | corrected member |
|---|---|---|---|---|---|---|
| cash_recon/logic.py:58 | `build_cash_recon` calls `bills.service.get(bill_id)` and `bills.topup.values()`. But `HotcakeBills` (cash_recon/parse.py:320-323) declares `service` and `topup` as lists, and `load_hotcake_bills_xlsx` (cash_recon/parse.py:377-387) fills them with lists. | Any bills returned by the loader, for example `HotcakeBills(service=[], topup=[])`: the list has no `.get`, so the call raises `AttributeError`. Both callers hand the loader's lists straight to the engine: cash_recon/cli.py:35-38 and app.py:91-101 | The bill rows filed in a dict keyed by bill id, so that each in-scope bill id finds its service bill | high, not executed | Logic.LoadedBillsNeverReconcile | Logic.IndexedServiceBillsAreListed |
