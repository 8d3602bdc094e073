# storebilling in Dafny

A verified model of the core of storebilling, a small store-billing web application. The
model covers two parts.

The backend keeps a catalog of items and a set of bills. Each bill has lines that say which
item was sold, how many units and at what unit price. It models:

- the bill routes: pricing a request against the catalog, then creating, replacing and
  deleting a bill inside one database transaction, which either commits or rolls back;
  reading a bill with its lines; and listing bills under a date filter;
- the item routes: listing, creating, merging updates into, and deleting catalog items.

The web client holds lists of bills and items. It models:

- the list updates its hooks apply after each server call;
- the draft-bill editor;
- the revenue dashboard.

Modelling choices:

- Money is an integer number of cents. Dates are integer day numbers. Timestamps are `Time`
  values passed in by the caller.
- New ids are values passed in by the caller. The methods require that the id is not yet used.
- The tables live in one `Database` object (module `Store`). The route handlers change it step
  by step, like the SQL statements do: stock updates in loops, line deletes, then the bill
  insert or update.
- Each handler is proved equal in effect to a pure function of the tables before the request
  (`CreateTx`, `ReplaceTx`, `DeleteTx`, `CreateItemTx`, `UpdateItemTx`). A rollback leaves the
  tables exactly as they were at `BEGIN`.
- The lemmas about those functions state what the routes promise. Among them:
  - stock goes down by exactly the quantities requested;
  - a replace first gives back what the old lines held;
  - deleting a bill right after creating it restores everything;
  - replacing a bill by its own lines leaves stock where it was.
- The client side is pure functions over sequences. Three filtering tests are passed in as
  functions:
  - the item-name search of the editor;
  - the by-id removals;
  - the per-day bucketing of the dashboard.

Behaviour of the code that the model records:

- **Repeated lines share the stock check.** Every line of a request is checked against the
  stock as it was before any decrement of that request. All the reads happen inside
  `buildPricedItems`, before the decrement loop.
  - So two lines of 3 units for an item with stock 5 both pass, and the stock ends at -1
    (`Bills.RepeatedLinesCheckedAgainstSameStock`).
  - One might expect the second line to fail; the code accepts it, and so does the model.
- **Long presets are refused.** The dashboard presets of 90, 182 and 365 days always choose a
  range that the 60-day limit refuses (`Dashboard.PresetsAgainstLimit`).
- **POST and PUT treat an empty name differently.** PUT merges with `??`, so it can store an
  empty item name, which POST refuses (`Items.UpdateItemStoresEmptyName`).

## Model

| member | source | states |
|---|---|---|
| `Bills.PriceEntry` | backend/src/routes/bills.js:42-56 | a line prices exactly when it has an item id and a non-zero quantity, the item exists and its stock is at least the quantity (equal stock accepted); the unit price is `pricePerUnit` if given, else the catalog price, and the line total is unit × quantity; a line without an item id or with a zero quantity fails with `Each bill item requires itemId and quantity`, an unknown item with `Item not found`, and too little stock with `Insufficient stock` |
| `Bills.PriceAll` | backend/src/routes/bills.js:40-57 | pricing succeeds exactly when every line prices; the result has the request's length and order, each entry the priced line; on failure the error is that of the first failing line, all earlier lines pricing |
| `Bills.BuildPricedItems` | backend/src/routes/bills.js:39-59 | the pricing loop returns exactly the pricing of the whole request |
| `Bills.NewLines` | backend/src/routes/bills.js:138-143 | one stored line per priced item, in order, each carrying the bill id, item, quantity, unit and total |
| `Bills.TotalOfLines` | backend/src/routes/bills.js:129 | the bill total is the sum of the totals stored on its lines |
| `Bills.RestoredStock` | backend/src/routes/bills.js:178-181 | the restore loop raises each item's stock by the quantity of the previous lines naming it, skips lines with no item, and changes nothing else of the item but `updated_at` |
| `Bills.ConsumedStock` | backend/src/routes/bills.js:144-147 | the decrement loop lowers each item's stock by the quantity of the priced lines naming it and changes nothing else of the item but `updated_at` |
| `Bills.RequestedIsConsumed` | backend/src/routes/bills.js:127-147 | a priced request takes of each item exactly the quantity the request asks for |
| `Bills.CreateOutcome` | backend/src/routes/bills.js:119-127 | create fails with the missing-fields error on a missing date or an empty item list, and otherwise succeeds exactly when every line prices; on failure the error is that of the first line that does not price |
| `Bills.CreateEffect` | backend/src/routes/bills.js:123-150 | a successful create adds one bill (date, creation time, total = sum of its line totals, final = `finalPrice ?? total`), appends one priced line per requested line, each created at `now`, lowers each item's stock by exactly its requested quantity, and leaves other bills alone and every item column other than stock and `updated_at` |
| `Bills.Create` | backend/src/routes/bills.js:116-159 | given a fresh bill id (no bill and no line carries it, as for a `uuid()`), the POST handler ends in the state `CreateTx` gives and returns the stored bill with its lines, or returns the error with every table unchanged |
| `Bills.ReplaceOutcome` | backend/src/routes/bills.js:165-198 | PUT fails with the missing-fields error on a missing date or an empty item list; on an existing bill it succeeds exactly when every new line prices against the stock as restored from the bill's old lines, and on failure the error is that of the first new line that does not price |
| `Bills.ReplaceUnknown` | backend/src/routes/bills.js:170-174 | replacing a bill that does not exist fails with not-found |
| `Bills.ReplaceLines` | backend/src/routes/bills.js:182-198 | after a replace the bill's lines are exactly the new ones, one per requested line in order, each priced against the stock as restored from the old lines; other bills' lines are untouched |
| `Bills.ReplaceBill` | backend/src/routes/bills.js:184-191 | a replace keeps the bill's id and creation time, sets its date, total (sum of the new line totals) and final price (`finalPrice ?? total`), and leaves other bills alone |
| `Bills.ReplaceStock` | backend/src/routes/bills.js:176-203 | a replace changes each item's stock by what the old lines held minus what the new request asks for |
| `Bills.ReplaceSameLinesKeepsStock` | backend/src/routes/bills.js:176-203 | replacing a bill by the lines it already holds leaves every item's stock where it started |
| `Bills.Replace` | backend/src/routes/bills.js:161-214 | the PUT handler ends in the state `ReplaceTx` gives, or, on the missing-fields, not-found or pricing error, with every table as it was before (the rollback undoes the stock restore and the line delete) |
| `Bills.DeleteEffect` | backend/src/routes/bills.js:221-233 | deleting an unknown bill fails with not-found; otherwise the bill and all its lines are removed, other bills and their lines are kept, and stock is given back for every line that names an item |
| `Bills.Delete` | backend/src/routes/bills.js:216-242 | the DELETE handler ends in the state `DeleteTx` gives, or returns not-found with every table unchanged |
| `Bills.RestoreStock` | backend/src/routes/bills.js:226-231 | the restore loop of the handlers leaves the items as `Restored` of the previous lines and the bills and lines as they were |
| `Bills.WriteLines` | backend/src/routes/bills.js:193-203 | the insert-and-decrement loop appends the new lines and leaves the items as `Consumed` by the priced lines |
| `Bills.TransactionsKeepLinesHaveBills` | backend/src/routes/bills.js:132-148 | create, replace and delete keep every stored line attached to an existing bill |
| `Bills.CreateThenDeleteRestores` | backend/src/routes/bills.js:226-233 | deleting a bill right after creating it gives back the bills, the lines and every item's stock as they were |
| `Bills.CreateKeepsStockNonNegative` | backend/src/routes/bills.js:51-53 | when every stock is non-negative and each item appears on at most one line of the request, a create leaves every stock non-negative |
| `Bills.RepeatedLinesCheckedAgainstSameStock` | backend/src/routes/bills.js:127-147 | two lines of 3 for an item with stock 5 are both accepted; the stock ends at -1 and the total is 2 × 3 × 1850 |
| `Bills.FetchBill` | backend/src/routes/bills.js:18-37 | reading a bill gives a result exactly when the bill exists, with its stored date, totals and creation time and its lines in order; a line carries the item's id, quantity, unit price and total as stored, and, when the item still exists, its current catalog name and image (the image may itself be absent); otherwise no name and no image |
| `Bills.SelectFilter` | backend/src/routes/bills.js:63-78 | a bill date passes the filter exactly when it equals `date` if one is given, else lies within the given `start` and `end` bounds, each bound absent meaning unbounded |
| `Bills.ListBills` | backend/src/routes/bills.js:61-97 | the list holds every bill passing the filter, each once and as `FetchBill` reads it, newest created first |
| `Ordering.NewestFirst` | backend/src/routes/bills.js:94 | the keys come out each exactly once, ordered by creation time descending |
| `Items.ListItems` | backend/src/routes/items.js:10 | every item once, paired with its row, newest created first |
| `Items.CreateItemOutcome` | backend/src/routes/items.js:19-30 | POST fails with the missing-fields error exactly when the name is missing or empty or the price or stock is missing; on success it adds exactly the new row with the given name, price and stock, an image exactly when one was sent, that image being the compressed upload, both timestamps `now`, and no other change; with an image sent, it fails with the compression error exactly when compression fails |
| `Items.CreateItemAcceptsZero` | backend/src/routes/items.js:20 | a price of 0 and a stock of 0 are accepted |
| `Items.CreateItem` | backend/src/routes/items.js:17-36 | given a fresh item id (no item and no bill line carries it, as for a `uuid()`), the POST handler ends in the state `CreateItemTx` gives and returns the new row, or returns the error with the catalog unchanged |
| `Items.UpdateItemOutcome` | backend/src/routes/items.js:42-50 | PUT on an unknown id fails with not-found; otherwise name, price and stock are the supplied values or the stored ones when null, the image is kept unless a new one is sent, in which case it is the compressed upload, the creation time is kept, and no other item changes; with an image sent, it fails with the compression error exactly when compression fails |
| `Items.UpdateItemIdempotent` | backend/src/routes/items.js:46-50 | sending the same PUT twice leaves the item as one PUT does, apart from the update time |
| `Items.UpdateItemEmpty` | backend/src/routes/items.js:47-50 | a PUT with no fields changes only the update time |
| `Items.UpdateItemStoresEmptyName` | backend/src/routes/items.js:49 | a PUT can store the empty name that POST refuses |
| `Items.UpdateItem` | backend/src/routes/items.js:38-56 | the PUT handler ends in the state `UpdateItemTx` gives and returns the row, or returns the error with the catalog unchanged |
| `Items.DeleteItem` | backend/src/routes/items.js:58-66 | DELETE removes the row when it exists and is a no-op otherwise, never an error |
| `Client.RevenueBounds` | frontend/src/hooks/useBills.ts:27 | with no negative final price, the revenue is non-negative and at least the final price of each bill |
| `Client.RevenueAppend` | frontend/src/pages/DashboardPage.tsx:74 | the revenue of two lists put together is the sum of their revenues |
| `Client.RevenueSplit` | frontend/src/pages/DashboardPage.tsx:89-90 | the revenue of the bills passing one of two exclusive tests is the sum of the two revenues |
| `Hooks.Prepend` | frontend/src/hooks/useBills.ts:32 | `[created, ...prev]`; what it means for the lists is stated by `Hooks.AddBillRevenue` (revenue grows by the created bill's final price) and `Hooks.AddItemPrepends` (the created item is the only entry with its id, and removing it gives back the old list) |
| `Hooks.AddBillRevenue` | frontend/src/hooks/useBills.ts:27-32 | after `addBill` the total revenue grows by exactly the created bill's final price |
| `Hooks.AddItemPrepends` | frontend/src/hooks/useItems.ts:30 | after `addItem` the item list is the created item followed by the old list, the created item appearing once |
| `Hooks.ReplaceById` | frontend/src/hooks/useItems.ts:39 | the list keeps its length and order; each entry with the id becomes the updated record and every other entry is unchanged |
| `Hooks.ReplaceAbsent` | frontend/src/hooks/useItems.ts:39 | replacing an id that is not in the list leaves the list unchanged |
| `Hooks.ReplaceIdempotent` | frontend/src/hooks/useBills.ts:40 | repeating the same replacement changes nothing more |
| `Hooks.ReplaceKeepsOthers` | frontend/src/hooks/useBills.ts:40 | the entries of every other id are the same, in the same order, before and after a replacement |
| `Hooks.EditBillRevenue` | frontend/src/hooks/useBills.ts:27-40 | after `editBill` every bill with the id counts in the total revenue with the updated final price, every other bill as before |
| `Hooks.RemoveMembers` | frontend/src/hooks/useItems.ts:47 | after removal the list holds exactly the entries whose id differs from the removed one |
| `Hooks.RemoveAppend` | frontend/src/hooks/useBills.ts:46 | removal works entry by entry over a concatenation, so the remaining entries keep their order |
| `Hooks.RemoveAbsent` | frontend/src/hooks/useItems.ts:47 | removing an id that is not in the list leaves the list unchanged |
| `Hooks.RemoveBillRevenue` | frontend/src/hooks/useBills.ts:27-46 | after `removeBill` the total revenue loses exactly the final prices of the removed bills |
| `DraftBill.Bump` | frontend/src/components/CreateBillModal.tsx:55 | the entries for the id get one more unit, in place, and every other entry is unchanged |
| `DraftBill.SetQuantity` | frontend/src/components/CreateBillModal.tsx:64 | the entries for the id get the new quantity, in place, and every other entry is unchanged |
| `DraftBill.AddExisting` | frontend/src/components/CreateBillModal.tsx:53-56 | adding an item already present raises that entry's quantity by 1, keeps its stored item record, and leaves the length and every other entry unchanged |
| `DraftBill.AddNew` | frontend/src/components/CreateBillModal.tsx:57 | adding an item not yet present keeps every earlier entry in place, makes the item present, and gives it exactly one entry, the last, with quantity 1 |
| `DraftBill.AddKeepsWellFormed` | frontend/src/components/CreateBillModal.tsx:51-59 | adding keeps one entry per item id and every quantity at least 1, and the item is then present |
| `DraftBill.SubtotalAfterAdd` | frontend/src/components/CreateBillModal.tsx:48-57 | adding grows the subtotal by one unit price: the new item's price for a new entry, else the price stored on the existing entry |
| `DraftBill.UpdateQuantityEffect` | frontend/src/components/CreateBillModal.tsx:61-67 | in a well-formed draft, the entry for the id gets quantity max(1, q), nothing is dropped, every other entry is unchanged, and the draft stays well formed |
| `DraftBill.UpdateQuantityKeepsEdited` | frontend/src/components/CreateBillModal.tsx:64-65 | in any draft, the edited entries survive the filter with quantity max(1, q) |
| `DraftBill.RemoveItemEffect` | frontend/src/components/CreateBillModal.tsx:69-71 | removal keeps exactly the entries for other items, in their order, leaves no entry for the id, and keeps the draft well formed |
| `DraftBill.SavePayloadShape` | frontend/src/components/CreateBillModal.tsx:118-130 | an empty draft sends nothing; otherwise the request has the bill's date, one entry per draft entry in order as (item id, quantity, the entry's price), and a final price that is the typed amount when the field is not empty, else the subtotal |
| `DraftBill.SavedDraftPricesToSubtotal` | frontend/src/components/CreateBillModal.tsx:122-130 | when every item of a well-formed draft exists with enough stock, the server prices the saved request and its total equals the draft's subtotal |
| `DraftBill.FilteredEffect` | frontend/src/components/CreateBillModal.tsx:42-45 | the matches are exactly the items whose lower-cased name contains the lower-cased term, in catalog order |
| `DraftBill.FilteredEmptySearch` | frontend/src/components/CreateBillModal.tsx:43-44 | an empty search matches every item |
| `DraftBill.LowerIdem` | frontend/src/components/CreateBillModal.tsx:43-44 | lower-casing a lower-cased string changes nothing |
| `DraftBill.SearchIgnoresCase` | frontend/src/components/CreateBillModal.tsx:43-44 | for every search term, two terms that lower-case alike find the same items, and a term finds what its lower-cased form finds |
| `DraftBill.VisibleEffect` | frontend/src/components/CreateBillModal.tsx:46 | at most six items are shown, every one of them a catalog item whose lower-cased name contains the lower-cased term; fewer than six are shown only when they are all the matches; and the shown ones lead the matches in catalog order |
| `Dashboard.DateRangeErrorCases` | frontend/src/pages/DashboardPage.tsx:27-40 | a range is accepted exactly when both dates parse, start is not after end, and it spans at most 60 days; start after end and a span beyond 60 days are each reported exactly when they hold |
| `Dashboard.Summarize` | frontend/src/pages/DashboardPage.tsx:73-78 | the summary's revenue is the sum of final prices, its count the number of bills, and its average the revenue divided by the count, or 0 without bills |
| `Dashboard.ChartShape` | frontend/src/pages/DashboardPage.tsx:80-97 | the chart has one entry per day from start to end, in ascending order; each entry's order count is the number of positions in the bill list dated that day, and its revenue is the final-price sum over a list holding exactly the bills dated that day |
| `Dashboard.ChartTotals` | frontend/src/pages/DashboardPage.tsx:86-95 | over the whole chart, the orders add up to the number of bills dated inside the range and the revenue to their final prices |
| `Dashboard.NextRangeEffect` | frontend/src/pages/DashboardPage.tsx:99-108 | an unparsable range stays; a valid range moves to start the day after it ended and keeps its length; a reversed range moves by one day |
| `Dashboard.PresetEffect` | frontend/src/pages/DashboardPage.tsx:110-122 | right after a preset of d days is applied it is the only active preset and the range spans exactly d days ending today |
| `Dashboard.PresetsAgainstLimit` | frontend/src/pages/DashboardPage.tsx:9-17 | the presets of 1, 3, 7 and 30 days are accepted, and those of 90, 182 and 365 days are refused as longer than 60 days |
| `Bills.CreateTx` | backend/src/routes/bills.js:116-159 | the POST transaction: the tables after COMMIT, or the error that rolls back; its behaviour is stated by `Bills.CreateOutcome` and `Bills.CreateEffect` |
| `Bills.ReplaceTx` | backend/src/routes/bills.js:161-214 | the PUT transaction; stated by `Bills.ReplaceOutcome`, `Bills.ReplaceUnknown`, `Bills.ReplaceLines`, `Bills.ReplaceBill` and `Bills.ReplaceStock` |
| `Bills.DeleteTx` | backend/src/routes/bills.js:216-242 | the DELETE transaction; stated by `Bills.DeleteEffect` |
| `Items.CreateItemTx` | backend/src/routes/items.js:17-36 | the POST item insert; stated by `Items.CreateItemOutcome` |
| `Items.UpdateItemTx` | backend/src/routes/items.js:38-56 | the PUT item merge; stated by `Items.UpdateItemOutcome`, `Items.UpdateItemIdempotent` and `Items.UpdateItemEmpty` |
| `Client.Revenue` | frontend/src/hooks/useBills.ts:27 | the sum of final prices; stated by `Client.RevenueBounds`, `Client.RevenueAppend` and `Client.RevenueSplit` |
| `Hooks.RemoveById` | frontend/src/hooks/useItems.ts:47 | the filter by id of `removeItem` and `removeBill`; stated by `Hooks.RemoveMembers`, `Hooks.RemoveAppend` and `Hooks.RemoveAbsent` |
| `DraftBill.AddItem` | frontend/src/components/CreateBillModal.tsx:51-59 | `addItem`; stated by `DraftBill.AddExisting`, `DraftBill.AddNew`, `DraftBill.AddKeepsWellFormed` and `DraftBill.SubtotalAfterAdd` |
| `DraftBill.UpdateQuantity` | frontend/src/components/CreateBillModal.tsx:61-67 | `updateQuantity`; stated by `DraftBill.UpdateQuantityEffect` and `DraftBill.UpdateQuantityKeepsEdited` |
| `DraftBill.RemoveItem` | frontend/src/components/CreateBillModal.tsx:69-71 | `removeItem`; stated by `DraftBill.RemoveItemEffect` |
| `DraftBill.Subtotal` | frontend/src/components/CreateBillModal.tsx:48 | the sum of quantity times the entry's price; stated by `DraftBill.SubtotalAfterAdd` and `DraftBill.SavedDraftPricesToSubtotal` |
| `DraftBill.FinalTotal` | frontend/src/components/CreateBillModal.tsx:49 | the typed amount when the field is not empty, else the subtotal; stated by `DraftBill.SavePayloadShape` |
| `DraftBill.SavePayload` | frontend/src/components/CreateBillModal.tsx:118-130 | the request `handleSave` sends; stated by `DraftBill.SavePayloadShape` and `DraftBill.SavedDraftPricesToSubtotal` |
| `DraftBill.Filtered` | frontend/src/components/CreateBillModal.tsx:42-45 | `filteredItems`; stated by `DraftBill.FilteredEffect`, `DraftBill.FilteredEmptySearch` and `DraftBill.SearchIgnoresCase` |
| `DraftBill.Visible` | frontend/src/components/CreateBillModal.tsx:46 | `visibleItems`; stated by `DraftBill.VisibleEffect` (at most six matches, all matches when fewer, the leading ones first) |
| `Dashboard.DateRangeError` | frontend/src/pages/DashboardPage.tsx:27-40 | `dateRangeError`; stated by `Dashboard.DateRangeErrorCases` |
| `Dashboard.ChartData` | frontend/src/pages/DashboardPage.tsx:80-97 | `chartData`; stated by `Dashboard.ChartTotals` (orders and revenue add up to the bills dated inside the range) and `Dashboard.ChartShape` (each day's entry against an independent count of that day's bills) |
| `Dashboard.NextRange` | frontend/src/pages/DashboardPage.tsx:99-108 | `nextRange`; stated by `Dashboard.NextRangeEffect` |
| `Dashboard.ApplyPreset` | frontend/src/pages/DashboardPage.tsx:110-116 | `applyPreset`; stated by `Dashboard.PresetEffect` and `Dashboard.PresetsAgainstLimit` |
| `Dashboard.IsPresetActive` | frontend/src/pages/DashboardPage.tsx:118-122 | `isPresetActive`; stated by `Dashboard.PresetEffect` |

## Left out

- HTTP and database plumbing: Express routing, status codes (modelled as `Error` variants),
  connection handling and the API client of the web app.
- Concurrency: each request is modelled as one atomic step on a single state, with no
  isolation between transactions.
- `uuid()` and `new Date()`: they become id and time parameters. A new id is required to be unused by every table, bill lines included, since a line keeps the id of a deleted item.
- `Number()` and floating point: money is integer cents, with no conversion from strings. Quantities are integers as well, although the editor's quantity field passes `Number(value)` and so could send a fraction such as 1.5.
- JavaScript truthiness on non-numbers (for example a quantity sent as a string): the request
  fields have fixed types, and "falsy" means absent, empty or zero.
- Image compression is a function parameter that either gives the stored image or fails
  (`backend/src/utils/image.js` is not part of this model).
- The SQL of item deletion when bill lines still point at the item depends on a schema that is
  not part of this model. Lines keep their item id, and a stock restore for a missing item
  changes nothing, as an `UPDATE ... WHERE id` does.
- Bill lines have no id of their own, since nothing in the core reads one.
- `Bills.FetchBill`: lines come in the order they were written. SQL orders them by
  `created_at`, and all lines of one write share one timestamp, so the order among equal
  timestamps is left to the database.
- `Bills.ListBills`: the order among bills with equal `created_at` is not stated, because
  `ORDER BY created_at DESC` leaves it to the database.
- `Items.ListItems`: the same holds for items with equal `created_at`.
- The dashboard's loading effect (fetching when the range is valid, clearing the list
  otherwise) is I/O.
- The editor's edit-mode prefill, its reset, and the saving flag are form state.
- Lower-casing covers the ASCII letters only; JavaScript's `toLowerCase` also maps other
  alphabets.
- `Number(finalTotalInput)` is a parameter `parse`; a typed amount that is not a number
  (NaN) is not modelled.
- Dates that do not parse are `None`. The calendar arithmetic of date-fns becomes addition on
  day numbers.
- For start after end, `eachDayOfInterval` is taken to list no days. What it does there
  depends on the date-fns release, which is not part of this model: some releases throw,
  others list the days in reverse. This affects only `chartData` and the shift of `nextRange`
  for reversed ranges.
- The chart's day label (`MMM dd`) is the day number itself.
- `formatCurrency` and all rendering are display only.
- A non-negative stock invariant is not assumed anywhere. It appears only as the conditional
  lemma `Bills.CreateKeepsStockNonNegative`.
