# Nayak Fish Store — a verified model of its business logic

The shop's software is a Flask server over SQLite (`app.py`) plus browser scripts for the bill workbench, the finance page, the sales page and the shared dashboard/inventory script. This project models the parts that hold business rules. What it proves:

- **Stock ledger** (`ledger.dfy`, module `Ledger`). The `stock` table is a map from fish type to quantity inside a `Store` class whose methods mirror the handlers.
  - An inventory entry adds its quantity for `IN` and subtracts it for every other type, after creating the row at 0 if needed.
  - A sale is refused unless the stock covers it, so a single sale never drives a non-negative stock below zero. An inventory `OUT` has no such guard and can.
  - A reset zeroes every row.
  - The pure validators sit beside the ledger: the required-field check, `allowed_file`, the transaction checks, the bill-search filter and delete-by-id.
- **Bill workbench** (`billing.dfy`, module `Billing`). An `Editor` class holds the row table, the form inputs and the totals text.
  - The totals chain: line total, subtotal, tax at a percentage, total, balance due.
  - One validity predicate gates both the preview and the saved items.
  - The payload sends the tax *percentage* and never a `fish_item_id`.
  - A successful save leaves exactly one fresh blank row.
- **Finance page** (`finance.dfy`, module `Finance`).
  - The in/out summaries over all transactions and over one day: partition and subset lemmas.
  - The search-parameter rule.
  - A `TransactionForm` class holding the single attached receipt, the camera stream and the save gate's three ordered checks.
- **Sales page** (`sales.dfy`, module `Sales`).
  - The low-stock predicate (inclusive, threshold 10 for what the server sends) and the unit default.
  - The sale request body.
  - The two-step reset flow as a small state machine, which counts the reset requests sent.
- **Shared script** (`shell.dfy`, module `Shell`).
  - The `goTo` route table.
  - The inventory form's live total and its submit handling.
  - Lemmas linking the body the form sends to what the server decides.

`values.dfy` (module `Values`) holds the shared vocabulary:

- a form field is `Text` (blank, a numeral, or junk);
- a JavaScript number is `Num` (NaN or a real);
- `JsonValue` is a decoded request value;
- plus trimming, ASCII lower-casing, substring search, the text after the last dot, and Python's `float()` on a plain decimal.

Money is `real`. Dates are (year, month, day) triples.

At the default threshold a quantity of exactly 10 is low stock, because the page compares with `<=` (`Sales.LowStockBoundary`).

## Model

The specification functions without a contract of their own are covered by the rows of the lemmas about them, which cite the same lines:
- Ledger: AllowedFile (AllowedFileIff), Summarize (SummaryAfterSale, SummaryAfterPurchase), SearchResults and Like (SearchResultsExact), Current (CheckSale), StatusOf (the Check rows).
- Billing: LineTotal (LineTotalIsProduct), Subtotal (SubtotalAppend, SubtotalRemove), ValidRow (ValidRowsMembers), Items and ItemOf (ItemsAreValidRows).
- Finance: TallyOf (TallyIsPartition), OnDate (OnDateExact), CaptureName (CaptureIsAllowedUpload).
- Sales: LowStock (LowStockBoundary), ServerItem (ServerItemsUseDefaults).
- Shell: LiveTotal (LiveTotalCases).

| member | source | states |
|---|---|---|
| Ledger.FirstMissing | app.py:162-165 | none missing iff every required field is present; a reported field is required and absent |
| Ledger.FirstMissingIsFirst | app.py:163-165 | the reported field is the first absent one in list order |
| Ledger.CheckInventory | app.py:157-190 | no body → 400; first missing field → 400 naming it; any other refusal → 500. With all seven fields present and both numbers converting: accepted iff date, fish type and type are non-null and the type is `IN` or the quantity is a JSON number (negating a string quantity raises → 500). An accepted record copies date, supplier, contact, fish type, type, quantity and unit price from the body, and the change is +q for `IN`, −q otherwise |
| Ledger.InventoryTotalIsProduct | app.py:168 | an accepted entry's stored total is quantity × unit price |
| Ledger.Adjust | app.py:184-190 | the entry's own fish type gets old-or-0 plus the change; every other row and no new key besides it is untouched |
| Ledger.InventoryOutCanGoNegative | app.py:184-190 | an `OUT` inventory entry of 5 against stock 2 is accepted and leaves −3: no guard |
| Ledger.CheckSale | app.py:205-240 | with all six fields present and both numbers parsing: refused with the current (or 0) quantity iff there is no row or it holds less than the quantity, and accepted when the row covers it and `type`, date and purchaser are non-null; validation refusals are 400; any other refusal of a body with all six fields (an unparsable number, a missing `type`, a null in a NOT NULL column) is 500. An accepted record copies date, purchaser, contact, fish type, `type`, quantity and unit price from the body |
| Ledger.SaleTotalIsProduct | app.py:216-217 | an accepted sale's stored `total_price` is float(quantity) × float(unitPrice), and the deducted quantity is float(quantity) |
| Ledger.SaleKeepsStockNonNegative | app.py:242-247 | deducting an accepted sale keeps a non-negative stock table non-negative and keeps its keys |
| Ledger.Zeroed | app.py:440 | same fish types, every quantity 0 |
| Ledger.AllowedFileIff | app.py:698-705 | `allowed_file` iff a named file splits at its last dot into an allowed extension (any case) and the MIME type starts with `image/` |
| Ledger.CheckTransaction | app.py:694-753 | checks in order: a request body over 2 MiB → 500 (reading the form raises inside the `try`); otherwise a disallowed attached file → 400; otherwise a missing, unparsable or non-positive amount → 400; otherwise a type not in/out → 400; a payment method outside cash/online fails the insert → 500; a request within the limit passing all four is accepted, and what is accepted satisfies them all. The accepted record carries the form's type, payment method, amount, client name, client phone and notes as sent, and the attached file when one was sent |
| Ledger.SearchResultsExact | app.py:648-660 | the search returns exactly the listings matching every non-empty term |
| Ledger.SearchWithoutTermsReturnsAll | app.py:648-656 | with both terms empty every bill is returned |
| Ledger.SearchBills | app.py:636-666 | one `%term%` parameter per non-empty stripped term, name first; results are exactly the matches |
| Ledger.SummaryAfterSale | app.py:303-334 | one more `OUT` sale raises total sales and profit by its value and the count by one |
| Ledger.SummaryAfterPurchase | app.py:303-334 | one more `IN` purchase raises total purchases, lowers profit by its value and raises the count by one |
| Ledger.Store.SaveInventory | app.py:153-199 | a refused entry changes nothing; an accepted one appends exactly CheckInventory's record (the body's fields, its type and q × p) and moves only its own stock row |
| Ledger.Store.SaveSale | app.py:203-261 | a refused sale changes nothing; an accepted one appends exactly CheckSale's record (the body's fields, its `type` and q × p), lowers that row by exactly the quantity and reports old − quantity |
| Ledger.Store.UpdateStock | app.py:389-413 | an existing row moves by the change, a missing one is inserted holding it; a NULL fish type changes nothing |
| Ledger.Store.ResetStock | app.py:435-447 | no fish type added or removed, every quantity 0 |
| Ledger.Store.CreateTransaction | app.py:709-770 | a refused request stores nothing and leaves the id counter; an accepted one is stored under the next id and the counter moves up by one |
| Ledger.Store.DeleteOrder | app.py:1013-1035 | unknown id → 404 and nothing removed; otherwise exactly that order removed |
| Billing.LineTotalIsProduct | static/bill.js:59-61 | qty × price when both are numbers, 0 when either is blank or not a number |
| Billing.SubtotalAppend | static/bill.js:55-64 | the subtotal of two tables joined is the sum of their subtotals |
| Billing.SubtotalRemove | static/bill.js:44-47 | removing a row takes exactly its line total off the subtotal |
| Billing.Compute | static/bill.js:66-71 | tax amount = subtotal × pct/100; total = subtotal + tax amount = subtotal × (1 + pct/100); balance due = total + previous balance − amount paid, blanks as 0 |
| Billing.WorkedExample | static/bill.js:53-79 | 2 × 150 and 1.5 × 100 at 5% with 50 brought forward and 200 paid give 450, 22.5, 472.5, 322.5 |
| Billing.ValidRowsMembers | static/bill.js:103-120 | the previewed lines are exactly the rows with a name, qty > 0 and price > 0 |
| Billing.ValidRowsEmpty | static/bill.js:122-125 | no previewed lines iff no row is valid |
| Billing.FindFishItem | static/bill.js:241 | nothing is found iff no item has that name; otherwise the result is the first item with that name |
| Billing.ItemsAreValidRows | static/bill.js:234-251 | the payload items are the valid rows in table order, each priced qty × price |
| Billing.NoFishItemIds | static/bill.js:241-244 | with the catalogue never filled every `fish_item_id` is null |
| Billing.BillPayload | static/bill.js:219-271 | a bill is sent iff the trimmed name is non-blank, subtotal and total are numbers and some row is valid; the payload carries the trimmed name and phone, the date, the valid rows as items, the shown subtotal, tax, total and balance, and the paid and previous amounts with a non-number read as 0 |
| Billing.TaxSentIsPercentage | static/bill.js:213 | the `tax` sent is the percentage; it equals the tax amount only if the percentage is 0 or the subtotal is 100 |
| Billing.BlankNamePreviewsButIsNotSaved | static/bill.js:210-223 | a white-space name passes the preview's check but the save sends nothing |
| Billing.CollectItems | static/bill.js:231-251 | the loop yields one item per valid row, in order |
| Ledger.Store.constructor | app.py:13-149 | fresh tables: no inventory, sales or transactions; the given stock rows and advance orders; the transaction id counter starts at 1 |
| Billing.Editor.constructor | static/bill.js:1-3 | the page starts with one blank row and counter 1 |
| Billing.Editor.AddRow | static/bill.js:21-32 | the counter goes up by one and one blank row is appended |
| Billing.Editor.Calculate | static/bill.js:53-79 | the totals text equals the figures of the current rows and inputs |
| Billing.Editor.RemoveRow | static/bill.js:44-47 | only that row goes; the totals are recomputed |
| Billing.Editor.EditRow | static/bill.js:7 | only that row's inputs change; the totals are recomputed |
| Billing.Editor.EditCustomer | static/bill.js:7 | the customer and date inputs change and the totals are recomputed |
| Billing.Editor.EditCharges | static/bill.js:7 | the amount inputs change and the totals are recomputed |
| Billing.Editor.GenerateFinalBill | static/bill.js:82-189 | with a name and a valid row: previews the valid rows and enables save and print; otherwise changes nothing |
| Billing.Editor.PreparePayload | static/bill.js:205-271 | builds exactly the payload function's result from the page's current inputs, rows and totals text, or nothing when a check refuses |
| Billing.Editor.Save | static/bill.js:205-316 | sends exactly the payload function's result; when accepted: customer and amounts cleared, one fresh blank row under the next counter value, print enabled with the id; otherwise nothing changes |
| Billing.Editor.ClearAfterSave | static/bill.js:301-310 | customer and amounts cleared, one new blank row, totals recomputed |
| Finance.TallyIsPartition | static/finance.js:384-395 | the overall tally counts and sums the `in` and the non-`in` transactions; in + out count = length |
| Finance.OnDateExact | static/finance.js:397-403 | the date summary covers exactly the transactions whose day, month and year are the selected date |
| Finance.DateCountsBounded | static/finance.js:398-411 | each date-scoped count is at most the matching total count |
| Finance.DateSumsBounded | static/finance.js:398-411 | with no negative amounts, each date-scoped sum is at most the matching total sum |
| Finance.Summaries | static/finance.js:366-415 | the loop returns the tally of all transactions and of those on the selected (or today's) date |
| Finance.SearchParams | static/finance.js:299-309 | no date → refused; otherwise exactly the given dates become parameters, the start date first and the end date last |
| Finance.SaveRefusal | static/finance.js:194-211 | the save may proceed iff the amount is a non-zero number, the trimmed name is non-empty and a receipt is attached; otherwise the notice is the first failing check in the order amount, name, receipt |
| Finance.CaptureIsAllowedUpload | static/finance.js:129-132 | a camera capture `receipt_<n>.jpg` of type `image/jpeg` passes the server's file check |
| Finance.WebpPassesPageButNotServer | static/finance.js:156 | a `image/webp` file is accepted by the page's test and refused by the server's |
| Finance.TransactionForm.constructor | static/finance.js:1-7 | empty inputs, no receipt, no stream, the camera not live, no save in flight and no notice |
| Finance.TransactionForm.SelectFile | static/finance.js:153-163 | an image file becomes the receipt; a non-image file leaves it unchanged |
| Finance.TransactionForm.RemoveReceipt | static/finance.js:179-183 | the receipt is cleared |
| Finance.TransactionForm.CloseCamera | static/finance.js:144-150 | the stream (if any) is stopped and dropped; the view is gone |
| Finance.TransactionForm.OpenCamera | static/finance.js:61-106 | the old stream is stopped; on refusal it stays referenced and only a notice is shown |
| Finance.TransactionForm.Capture | static/finance.js:108-142 | with a live camera the frame becomes an allowed receipt and the camera closes; without one only a notice |
| Finance.TransactionForm.ResetForm | static/finance.js:251-258 | inputs and receipt cleared |
| Finance.TransactionForm.BeginSave | static/finance.js:193-236 | the first failing check's notice and no request; otherwise the button is disabled and the trimmed form is sent |
| Finance.TransactionForm.FinishSave | static/finance.js:237-248 | the button is re-enabled on every outcome; success resets the form, failure only notifies |
| Sales.Threshold | static/sales.js:248 | a missing or zero minimum means 10; otherwise the minimum |
| Sales.UnitOf | static/sales.js:253 | a missing or empty unit shows as `kg` |
| Sales.Lines | static/sales.js:247-259 | one line per item in order, with its unit and low-stock flag |
| Sales.ServerItemsUseDefaults | app.py:420 | for a row as the server sends it, low stock iff quantity ≤ 10, unit `kg` |
| Sales.LowStockBoundary | static/sales.js:248 | exactly 10 is low, 10.01 is not; a zero minimum falls back to 10 |
| Sales.ResetFlagsEveryRow | app.py:440 | after the reset every row is flagged low |
| Sales.SaleBody | static/sales.js:195-203 | every required field present, type always `OUT`, numbers through `parseFloat` with NaN as null |
| Sales.SaleBodyIsComplete | static/sales.js:195-203 | the server's required-field check always passes on it |
| Sales.BlankQuantityIsServerError | app.py:216-217 | a sale body with a null quantity (what `parseFloat` of a blank input gives) is answered 500, not 400 |
| Sales.AcceptedSaleRaisesTotalSales | app.py:236-239 | recording an accepted page sale raises the summary's total sales and profit (app.py:308-317) by the form's quantity × price and leaves purchases unchanged |
| Sales.AcceptedSaleDeductsFormQuantity | app.py:242-247 | an accepted sale deducts the form's own quantity from the chosen fish type |
| Sales.SalesPage.constructor | static/sales.js:225-226 | the content area shows the page's own welcome content and no reset request has been sent |
| Sales.SalesPage.LoadCurrentStock | static/sales.js:225-273 | the stock table of what was fetched, or the error panel |
| Sales.SalesPage.ConfirmResetStock | static/sales.js:276-286 | shows the confirm view; no request |
| Sales.SalesPage.CancelReset | static/sales.js:289 | reloads the stock view; no reset request |
| Sales.SalesPage.ConfirmReset | static/sales.js:309-321 | exactly one reset request; success reloads the stock view, failure leaves the page |
| Sales.SalesPage.LoadAddSalesForm | static/sales.js:138-191 | shows the sale form |
| Sales.SalesPage.RecordNewSale | static/sales.js:193-222 | posts the sale body; success reloads the stock view |
| Shell.GoTo | static/script.js:19-34 | navigation only to the path listed for the key |
| Shell.GoToExactlySixKeys | static/script.js:20-33 | exactly the six keys (including `inventoryy`) navigate; `inventory` does not |
| Shell.InventoryBody | static/script.js:52-61 | every required field present; numbers through `parseFloat` with NaN as null |
| Shell.AcceptedPurchaseRaisesPurchases | app.py:175-181 | recording an accepted `IN` entry from the page raises the summary's total purchases (app.py:312-317) by quantity × price and lowers profit by the same |
| Shell.NumericEntryIsAccepted | app.py:168-190 | with both numbers filled the server accepts, stores the form's own total and moves stock by ±quantity |
| Shell.BlankQuantityIsRefused | app.py:168 | a blank quantity gets a 500 whose reply has no truthy `success` |
| Shell.LiveTotalCases | static/script.js:42-46 | the live total is quantity × price, a blank input counting as 0 and junk giving NaN |
| Shell.InventoryForm.constructor | static/script.js:36-40 | the form's inputs are the page's initial values, which are also what `form.reset()` restores; nothing navigated |
| Shell.InventoryForm.EditAmounts | static/script.js:42-46 | stores both inputs and sets the total field to the live total; the other inputs are unchanged |
| Shell.InventoryForm.EditDetails | static/script.js:52-57 | only the text inputs change |
| Shell.InventoryForm.Submit | static/script.js:49-81 | always posts; resets the form and goes to `/inventory` only on a truthy `success` |

## Left out

- Flask routing, SQL text and connections; tables are fields of `Ledger.Store`. Result ordering (`ORDER BY bill_date DESC`, `ORDER BY fish_type`) is not modelled: search results and stock lists keep the order given.
- `LIKE` treats `%` and `_` in a search term as wildcards. `Ledger.Like` treats the term literally.
- `lower()` is modelled on ASCII letters only: other characters are left as they are.
- `strip()` and `trim()` remove the six ASCII white-space characters (space, tab, newline, carriage return, vertical tab, form feed). Python's `strip()` and `float()` also remove the separators `\x1c`–`\x1f` and Unicode spaces, and JavaScript's `trim()` removes Unicode spaces; neither is modelled.
- Python's `float()` is modelled on plain decimals, optionally signed. A string with an exponent, `inf`, `nan` or underscores does not convert in the model. So Ledger.CheckTransaction answers such an amount with 400, and Ledger.CheckInventory and Ledger.CheckSale answer such a quantity or price with 500. In the source `"1e3"` converts to 1000.0 and is stored, and `"nan"` passes the `amount <= 0` test (app.py:725), after which SQLite stores NaN as NULL in the NOT NULL `amount` column and the insert fails with 500.
- SQLite's type affinity is taken to convert a numeric string the way `float()` does.
- A fish type sent as the number 5 and as the string "5" are different stock keys here. SQLite's TEXT affinity would store both as one row.
- JSON booleans, arrays and objects as field values are not modelled.
- `secure_filename` and the stored image bytes are not modelled: the upload is kept as sent. The size limit is modelled on the request body's length, which is a parameter; the page sends whatever file was chosen (static/finance.js:153-163).
- Ledger.Store.SaveSale: a failure before the database connection opens makes the server's own error handler fail. Both paths are modelled as the same 500.
- Ledger.Store.SaveInventory, Ledger.Store.SaveSale, Ledger.Store.UpdateStock and the other `Store` methods: each server handler is one atomic step, and interleaved requests are not modelled. The development server started at app.py:1107 is threaded, `save_sales` reads the stock (app.py:223-227) before any transaction opens, and its deduction is relative (app.py:242-246). So two concurrent sales can both pass the check and drive the stock below zero. `update_stock`'s read-then-update-or-insert (app.py:396-406) has the same gap.
- Billing.Editor.Save, Sales.SalesPage.RecordNewSale, Shell.InventoryForm.Submit, Finance.TransactionForm.BeginSave and Finance.TransactionForm.FinishSave: each request and its reply are taken as one step. Edits made on the page while a request is in flight are not modelled.
- `fetch`, the DOM, `innerHTML`, alerts and the notification fade are left out. Notifications become a `Notice` value, and server replies become method parameters.
- Camera hardware, canvas encoding and object URLs are left out. A stream is an id, the encoding outcome is a parameter, and the capture timestamp is a parameter.
- Time zones, `toISOString` and `toLocaleString` are left out. Dates are triples, and "today" is a parameter.
- Finance.SearchParams: each given date is sent unchanged. On the page, `new Date(d + 'T00:00:00').toISOString().slice(0, 10)` (static/finance.js:307-308) reads the date as local midnight and prints it in UTC. In a time zone ahead of UTC that sends the previous day. The model has no time zones, so this shift is not captured.
- `toFixed` rounding and the ₹ prefix are not modelled.
  - Billing.Editor.Calculate: the totals text is read back exactly, not rounded to two decimals.
  - Billing.CollectItems: `total_price` is the exact product, not the two-decimal string the page sends.
- Billing.Editor.EditRow: the fish-name `change` listener (static/bill.js:36-42) reads `options` of a text input and throws on use, so it has no effect and is not modelled.
- Billing.Editor.constructor: the page's markup is not part of this model. The initial amount inputs and totals text are parameters, and the save and print buttons are taken to start disabled.
- `printBill`, the bill-search rendering and the bill detail view are left out: rendering only.
- Chart.js charts, `monthly_trend`, `sales_by_fish`, schema creation, seed data and page routes are left out.
- static/list.js and static/advance_order.js are not part of this model: fetch-and-render code only.
- The hard-coded login check (static/script.js:7-16) is a credential comparison and is not modelled.
- Shell.GoTo: keys inherited from `Object.prototype` (such as `constructor`) are truthy there but are not modelled.
- JavaScript infinities are not modelled: a number is NaN or a real. On the page `parseFloat("1e309")` is Infinity and Infinity × 0 is NaN, so a recalculated subtotal can be NaN and trip the bill's NaN guard (static/bill.js:225). In the model a NaN subtotal or total can only come from the totals text the editor starts with.
- Sales.SalesPage.RecordNewSale: the form's `required` and `min="0.01"` attributes (static/sales.js:144-176) make the browser block a submit with an empty input or a quantity below 0.01. These checks are not modelled: any `SaleForm` is posted.
- Text fields do not tell `parseFloat("12abc")` = 12 apart from `Number("12abc")` = NaN. Both are `Junk`, which is NaN for either conversion.
