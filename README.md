# Back-office record keeping, modelled in Dafny

This project models the record-keeping logic of a distribution-business back office written as React screens. The screens cover orders, payments, shops, inventory, salesmen, sectors, a balance sheet, reports and shop assignment. Every screen keeps its data in memory (seeded sample rows) and changes it through event handlers. The model covers:

- the draft order and its line items on the "Add New Order" screen, with the live stock hint (`AddOrder`);
- payment recording against a shop's outstanding amount, with the payment log (`Payments`);
- the keyed record tables and their edit, add and delete dialogs for shops (`ViewBalances`), orders (`OrderManagement`), inventory items (`ViewItems`), salesmen (`Saleman`) and sectors (`ViewSector`);
- the case-insensitive search box the list screens share (`Text`, `Search`);
- the list operations the screens are built from: `filter`, a `map` that rewrites the selected rows, and `reduce` (`Records`);
- the balance-sheet totals as JavaScript computes them, `NaN` included (`BalanceSheet`);
- the inclusive date-range totals of the sales, salary and recovery reports (`DateRange`, `SalesReports`, `SalaryReport`, `TotalRecoveryReport`);
- the search-filtered report tables and what their two export buttons receive (`Exports`, `CustomerWiseReport`, `ProductWiseReport`, `SalesmanReport`);
- the salesman assignment form (`AssignShops`).

Screens whose handlers update state in place are classes. Their fields mirror the screen's state variables and their handlers are methods. Each class's `Valid()` states the invariant its handlers keep, for example unique ids in the table. Filters, totals and record updates are functions, and lemmas relate them. A class starts in the state the screen's mount effect leaves it, with the sample rows loaded.

## Model

| member | source | states |
|---|---|---|
| Text.LowerChar | src/pages/Payments.js:124 | the lower-cased character is never an upper-case letter, and a character that is not upper-case is left alone |
| Text.Lower | src/pages/Payments.js:124 | `toLowerCase` keeps the length and lower-cases each character in place |
| Text.LowerIdempotent | src/pages/Payments.js:124 | lower-casing twice is the same as lower-casing once |
| Text.IncludesIffOccurs | src/pages/Payments.js:124 | `includes` holds exactly when the needle occurs at some position of the text |
| Text.Includes | src/pages/Payments.js:124 | `includes` holds whenever the needle is a prefix of the text, and never when the needle is longer than the text |
| Text.Matches | src/pages/Payments.js:123-125 | `text.toLowerCase().includes(term.toLowerCase())` can hold only when the term is no longer than the text |
| Text.EmptyTermMatches | src/pages/Payments.js:123-125 | the empty search term matches every text |
| Text.MatchesIgnoresCase | src/pages/Payments.js:123-125 | the search match is unchanged when either side is lower-cased first |
| Text.DigitChar | src/pages/Sector/AssignShops.js:54 | a digit character has the value of the digit it spells |
| Text.NatToString | src/pages/Sector/AssignShops.js:54 | `${n}` of a count is a non-empty run of decimal digits with no leading zero |
| Text.NatToStringRoundTrip | src/pages/Sector/AssignShops.js:54 | reading the digits of `${n}` back gives `n` |
| Search.ByField | src/pages/Payments.js:123-125 | the kept rows are exactly the rows whose field contains the term ignoring case, each as often as in the input; order is kept; the empty term keeps every row |
| Search.ByEitherField | src/pages/Order/OrderMangement.js:79-83 | a row is kept exactly when either field contains the term ignoring case, as often as it occurs in the input; order is kept; the empty term keeps every row |
| Records.Filter | src/pages/Order/OrderMangement.js:107-110 | `filter` keeps exactly the elements the predicate accepts, each as many times as it occurs in the input, as an order-preserving subsequence no longer than the input |
| Records.FilterKeepsAll | src/pages/Order/OrderMangement.js:79-83 | a filter that accepts every element returns the list itself |
| Records.FilterKeepsNone | src/pages/Reporting/SalesReports.js:19-23 | a filter that rejects every element returns the empty list |
| Records.MapWhere | src/pages/Payments.js:99-105 | the `map` keeps the length, rewrites each selected element and leaves every other element as it was |
| Records.MapWhereNoneSelected | src/pages/Payments.js:99-105 | a `map` that selects nothing returns the list itself |
| Records.SumOf | src/pages/Reporting/SalesReports.js:24 | the `reduce` total of non-negative amounts is non-negative, and of zero amounts is 0 |
| Records.SumOfConcat | src/pages/Reporting/SalesReports.js:24 | the `reduce` total of a concatenation is the sum of the two totals |
| Records.SumOfFilter | src/pages/Reporting/SalesReports.js:19-24 | filtering and then reducing adds up exactly the accepted elements |
| Records.FilterKeepsUniqueIds | src/pages/Order/OrderMangement.js:107-110 | removing records keeps unique ids unique |
| Records.MapWhereKeepsUniqueIds | src/pages/Shop/ViewBalances.js:80-82 | a `map` whose rewrites keep each record's id keeps unique ids unique |
| Records.ReplaceById | src/pages/Order/OrderMangement.js:95-100 | every record with the new record's id is replaced by it; every other record and the length are unchanged |
| Records.ReplaceByIdKeepsUniqueIds | src/pages/Order/OrderMangement.js:95-100 | replacing by id keeps unique ids unique |
| Records.RemoveById | src/pages/Order/OrderMangement.js:107-110 | the records with the id are removed and every other record kept as often as it occurs, in order; when no record has the id, nothing changes |
| Records.RemoveByIdKeepsUniqueIds | src/pages/Order/OrderMangement.js:107-110 | removing by id keeps unique ids unique |
| AddOrder.WithItemField | src/pages/Order/AddOrder.js:43 | `{ ...item, [field]: value }` sets that field and keeps the four others |
| AddOrder.WithHeaderField | src/pages/Order/AddOrder.js:36-39 | `{ ...prev, [name]: value }` sets one header field and keeps the other header fields and the items |
| AddOrder.FreshOrder | src/pages/Order/AddOrder.js:18-26 | a new order has status "Pending", every other header field empty, and exactly one item whose five fields are empty |
| AddOrder.ItemsWithField | src/pages/Order/AddOrder.js:41-46 | only the given field of the item at the index changes; the length and every other item are unchanged; an out-of-range index changes nothing |
| AddOrder.ItemsWithout | src/pages/Order/AddOrder.js:55-60 | an in-range index shortens the list by one and keeps the other items in order; an out-of-range index changes nothing |
| AddOrder.RemoveUndoesAdd | src/pages/Order/AddOrder.js:48-60 | removing the item `addItem` just appended gives back the list as it was |
| AddOrder.FilteredStock | src/pages/Order/AddOrder.js:84-86 | a stock row is hinted exactly when some item has a non-empty name contained in the stock name ignoring case; order is kept; with every item name empty the hint is empty |
| AddOrder.ItemHintsAllSeededStock | src/pages/Order/AddOrder.js:27-32 | typing "item" hints all four sample stock rows, as the search ignores case |
| AddOrder.AddOrder.constructor | src/pages/Order/AddOrder.js:18-32 | the screen starts with a fresh order and the four sample stock rows; the stock list is a constant and no handler changes it |
| AddOrder.AddOrder.HandleInputChange | src/pages/Order/AddOrder.js:36-39 | one header field takes the value; the other header fields and the items are unchanged |
| AddOrder.AddOrder.HandleItemChange | src/pages/Order/AddOrder.js:41-46 | the order's items become `ItemsWithField` of the old items; the header is unchanged |
| AddOrder.AddOrder.AddItem | src/pages/Order/AddOrder.js:48-53 | exactly one empty item is appended after the existing items; the header is unchanged |
| AddOrder.AddOrder.RemoveItem | src/pages/Order/AddOrder.js:55-60 | the order's items become `ItemsWithout` of the old items; the header is unchanged |
| AddOrder.AddOrder.StockHint | src/pages/Order/AddOrder.js:84-86 | the hint is an order-preserving subsequence of the stock list |
| Payments.FindShop | src/pages/Payments.js:111 | `find` gives nothing exactly when no shop has the id, and otherwise the first shop with the id |
| Payments.Complete | src/pages/Payments.js:93-96 | the guard passes only with a shop id, a parsed non-zero amount and a method; an amount that parses to `NaN` always fails it |
| Payments.ApplyPayment | src/pages/Payments.js:99-105 | every shop with the id gets `outstanding := max(outstanding - amount, 0)`, which is never negative; every other shop and every other field is unchanged |
| Payments.PaymentKeepsOutstandingNonNegative | src/pages/Payments.js:102 | a payment of any amount keeps every outstanding amount non-negative |
| Payments.PaymentKeepsIdentity | src/pages/Payments.js:99-105 | a payment changes no shop's id, name or balance |
| Payments.NewLog | src/pages/Payments.js:109-116 | the new log entry has id equal to the previous count plus 1, the name of the shop it is for, the parsed amount, the method, the note and the given timestamp |
| Payments.NewLogKeepsSequentialIds | src/pages/Payments.js:107-117 | appending the entry keeps the log ids 1, 2, 3, ... in order |
| Payments.FilteredShops | src/pages/Payments.js:123-125 | the kept shops are exactly those whose name contains the term ignoring case; order is kept; the empty term keeps all |
| Payments.PaymentManagement.constructor | src/pages/Payments.js:35-73 | the screen starts with the sample shops and logs, an empty form and the dialog closed; outstanding amounts are non-negative and log ids sequential |
| Payments.PaymentManagement.OpenPaymentModal | src/pages/Payments.js:84-87 | the form holds the chosen shop id with amount, method and note cleared, and the dialog opens; shops and logs are unchanged |
| Payments.PaymentManagement.RecordPayment | src/pages/Payments.js:89-121 | a missing or zero shop id, a zero or unparsable amount, or an empty method changes nothing; an id no shop has changes nothing; otherwise only the matching shops' outstanding amounts change, exactly one log entry is appended for the matching shop, and the dialog closes |
| Payments.PaymentManagement.VisibleShops | src/pages/Payments.js:123-125 | the shown rows are an order-preserving subsequence of the shops |
| ViewBalances.WithFormField | src/pages/Shop/ViewBalances.js:67-70 | `handleFormChange` sets exactly the named form field and keeps the other three |
| ViewBalances.ShopFrom | src/pages/Shop/ViewBalances.js:81 | `{ ...formState, id }` is the only shop with that id and the form's contents |
| ViewBalances.FormComplete | src/pages/Shop/ViewBalances.js:73-76 | the guard passes exactly when none of the four form fields is empty |
| ViewBalances.MaxId | src/pages/Shop/ViewBalances.js:86 | the maximum of a non-empty id list is one of the ids and no id exceeds it |
| ViewBalances.NewShopId | src/pages/Shop/ViewBalances.js:84-88 | the id of an added shop is greater than every existing id |
| ViewBalances.UpdateShop | src/pages/Shop/ViewBalances.js:78-82 | every shop with the selected id takes the form's contents and keeps its own id; the length and every other shop are unchanged |
| ViewBalances.AddShop | src/pages/Shop/ViewBalances.js:84-90 | one shop with the form's contents is appended after the existing shops; its id is the largest existing id plus 1, so greater than all of theirs, and 1 on an empty list (the corrected id, see Findings) |
| ViewBalances.RemoveShop | src/pages/Shop/ViewBalances.js:62-65 | every shop with the id is removed and the rest are kept, each as often as before, in order |
| ViewBalances.UpdatesKeepIdsUnique | src/pages/Shop/ViewBalances.js:62-93 | editing, adding with the corrected id, and deleting each keep the shop ids unique |
| ViewBalances.FiniteIds | src/pages/Shop/ViewBalances.js:86 | `shops.map(s => s.id)` lists each shop's id in order |
| ViewBalances.JsMaxOf | src/pages/Shop/ViewBalances.js:86 | `Math.max(...ids)` is `-Infinity` exactly when no id is finite; otherwise it is one of the ids and no finite id exceeds it |
| ViewBalances.MaxPlusOne | src/pages/Shop/ViewBalances.js:86 | `Math.max(...ids) + 1` as written: `-Infinity` exactly when no id is finite, and otherwise one more than some id and greater than every finite id |
| ViewBalances.MaxPlusOneAgreesWhenNonEmpty | src/pages/Shop/ViewBalances.js:86 | on a non-empty list, `Math.max(...ids) + 1` is the id `NewShopId` gives |
| ViewBalances.JsMaxOfFinite | src/pages/Shop/ViewBalances.js:86 | on a non-empty list, `Math.max(...ids)` is the largest id |
| ViewBalances.EmptyListGivesDuplicateIds | src/pages/Shop/ViewBalances.js:86 | on an empty list the screen computes the id `-Infinity`, and a second add computes `-Infinity` again |
| ViewBalances.ShopManagement.constructor | src/pages/Shop/ViewBalances.js:26-35 | the screen starts with the three sample shops, whose ids are unique, no selection, an empty form and both dialogs closed |
| ViewBalances.ShopManagement.HandleEditShop | src/pages/Shop/ViewBalances.js:45-49 | the shop is selected, copied into the form, and the dialog opens; the shops are unchanged |
| ViewBalances.ShopManagement.HandleAddShop | src/pages/Shop/ViewBalances.js:51-55 | the selection is cleared, the form emptied, and the dialog opens; the shops are unchanged |
| ViewBalances.ShopManagement.HandleDeleteShop | src/pages/Shop/ViewBalances.js:57-60 | the shop is selected and the confirmation opens; the shops and the form are unchanged |
| ViewBalances.ShopManagement.ConfirmDeleteShop | src/pages/Shop/ViewBalances.js:62-65 | the shops become `RemoveShop` of the selected id, unique ids are kept, and the confirmation closes |
| ViewBalances.ShopManagement.HandleFormChange | src/pages/Shop/ViewBalances.js:67-70 | one form field changes; the shops and the selection are unchanged |
| ViewBalances.ShopManagement.SaveShop | src/pages/Shop/ViewBalances.js:72-93 | an incomplete form changes nothing; otherwise the selected shop is updated, or with no selection a new shop is added with the corrected id, unique ids are kept, and the dialog closes |
| BalanceSheet.FieldSumConcat | src/pages/BalanceSheet.js:25 | the field sum of a concatenation is the sum of the two field sums |
| BalanceSheet.CalculateTotal | src/pages/BalanceSheet.js:25 | the `reduce` total is a number exactly when every row has the field, and then it is the field's sum; otherwise it is `NaN` |
| BalanceSheet.CalculateTotalConcat | src/pages/BalanceSheet.js:25 | the total of a concatenation is the JavaScript sum of the two totals |
| BalanceSheet.TotalIncome | src/pages/BalanceSheet.js:50 | the income total is a number exactly when every income row has an amount, and then it is their sum |
| BalanceSheet.TotalExpenses | src/pages/BalanceSheet.js:51 | the expense total is a number exactly when every expense row has an amount, and then it is their sum |
| BalanceSheet.TotalCredits | src/pages/BalanceSheet.js:52 | the credit total as written is a number exactly when every credit row has an `amount` |
| BalanceSheet.TotalCreditBalances | src/pages/BalanceSheet.js:39-40 | the credit total over `balance` is a number exactly when every credit row has a balance, and then it is their sum |
| BalanceSheet.CreditRowsMakeTotalNaN | src/pages/BalanceSheet.js:38-41 | any non-empty list of credit rows without `amount` makes the credit total `NaN` |
| BalanceSheet.NetBalance | src/pages/BalanceSheet.js:50-54 | the net balance is a number exactly when every income and every expense row has an amount, and it is then income minus expenses |
| BalanceSheet.SignLabel | src/pages/BalanceSheet.js:96 | the label is "Positive" exactly when the net balance is a number at least 0, and "Negative" otherwise |
| BalanceSheet.SeededTotals | src/pages/BalanceSheet.js:27-54 | the sample sheet gives income 8000, expenses 4000 and net balance 4000 (Positive); the credit total is `NaN`, where the balances add up to 2000 |
| OrderManagement.FilteredOrders | src/pages/Order/OrderMangement.js:79-83 | an order is kept exactly when its shop or salesman contains the term ignoring case; order is kept; the empty term keeps all |
| OrderManagement.WithEditField | src/pages/Order/OrderMangement.js:90-93 | the edit sets the shop or the salesman and keeps the id, the other fields and the items |
| OrderManagement.OrderManagement.constructor | src/pages/Order/OrderMangement.js:19-71 | the screen starts with the three sample orders, whose ids are unique, no selection and all dialogs closed |
| OrderManagement.OrderManagement.HandleView | src/pages/Order/OrderMangement.js:112-115 | the order is selected and the view dialog opens; the orders are unchanged |
| OrderManagement.OrderManagement.HandleEdit | src/pages/Order/OrderMangement.js:85-88 | the order is selected and the edit dialog opens; the orders are unchanged |
| OrderManagement.OrderManagement.HandleDelete | src/pages/Order/OrderMangement.js:102-105 | the order is selected and the delete dialog opens; the orders are unchanged |
| OrderManagement.OrderManagement.HandleEditChange | src/pages/Order/OrderMangement.js:90-93 | one field of the selected copy changes; the orders are unchanged |
| OrderManagement.OrderManagement.HandleSaveEdit | src/pages/Order/OrderMangement.js:95-100 | the orders with the selected id are replaced by the edited copy; the others and the length are unchanged; unique ids are kept |
| OrderManagement.OrderManagement.ConfirmDelete | src/pages/Order/OrderMangement.js:107-110 | the orders with the selected id are removed and the rest kept in order; with no such order nothing changes |
| OrderManagement.OrderManagement.VisibleOrders | src/pages/Order/OrderMangement.js:79-83 | the shown rows are an order-preserving subsequence of the orders |
| ViewItems.WithField | src/pages/Inventory/ViewItems.js:54-57 | the edit sets exactly one of the seven fields and keeps the id and the six others |
| ViewItems.Overlay | src/pages/Inventory/ViewItems.js:62 | `{ ...item, ...selected }` takes every field from the selected item and keeps the matching id |
| ViewItems.FilteredInventory | src/pages/Inventory/ViewItems.js:80-82 | an item is kept exactly when its name contains the term ignoring case; order is kept; the empty term keeps all |
| ViewItems.SaveSelected | src/pages/Inventory/ViewItems.js:59-66 | every item with the selected id becomes the overlay of the selected item; the others and the length are unchanged |
| ViewItems.InventoryManagement.constructor | src/pages/Inventory/ViewItems.js:19-43 | the screen starts with the two sample items, whose ids are unique, no selection and both dialogs closed |
| ViewItems.InventoryManagement.HandleEdit | src/pages/Inventory/ViewItems.js:49-52 | the item is selected and the edit dialog opens; the inventory is unchanged |
| ViewItems.InventoryManagement.HandleEditChange | src/pages/Inventory/ViewItems.js:54-57 | one field of the selected copy changes; the inventory is unchanged |
| ViewItems.InventoryManagement.HandleSave | src/pages/Inventory/ViewItems.js:59-66 | the inventory becomes `SaveSelected` of the selected item, unique ids are kept, and the dialog closes |
| ViewItems.InventoryManagement.HandleDelete | src/pages/Inventory/ViewItems.js:68-71 | the item is selected and the delete dialog opens; the inventory is unchanged |
| ViewItems.InventoryManagement.ConfirmDelete | src/pages/Inventory/ViewItems.js:73-78 | the items with the selected id are removed and the rest kept in order |
| ViewItems.InventoryManagement.VisibleItems | src/pages/Inventory/ViewItems.js:80-82 | the shown rows are an order-preserving subsequence of the inventory |
| Saleman.WithContactField | src/pages/Saleman/Saleman.js:189-209 | an edit input sets its one field and keeps the id and the other fields |
| Saleman.FilteredSalesmen | src/pages/Saleman/Saleman.js:61-64 | a salesman is kept exactly when the name or the email contains the term ignoring case; order is kept; the empty term keeps all |
| Saleman.SalesmanManagement.constructor | src/pages/Saleman/Saleman.js:17-45 | the screen, once loaded, holds the three sample salesmen, whose ids are unique, with no selection and all dialogs closed |
| Saleman.SalesmanManagement.OpenView | src/pages/Saleman/Saleman.js:117-124 | the salesman is selected and the view dialog opens; the list is unchanged |
| Saleman.SalesmanManagement.OpenEdit | src/pages/Saleman/Saleman.js:126-133 | the salesman is selected and the edit dialog opens; the list is unchanged |
| Saleman.SalesmanManagement.OpenDelete | src/pages/Saleman/Saleman.js:135-142 | the salesman is selected and the delete dialog opens; the list is unchanged |
| Saleman.SalesmanManagement.ChangeField | src/pages/Saleman/Saleman.js:189-209 | one field of the selected copy changes; the list is unchanged |
| Saleman.SalesmanManagement.HandleEditSalesman | src/pages/Saleman/Saleman.js:49-54 | the salesman with the selected id is replaced by the edited copy; the others are unchanged; unique ids are kept |
| Saleman.SalesmanManagement.HandleDeleteSalesman | src/pages/Saleman/Saleman.js:56-59 | the salesman with the selected id is removed and the others keep their order |
| Saleman.SalesmanManagement.VisibleSalesmen | src/pages/Saleman/Saleman.js:61-64 | the shown rows are an order-preserving subsequence of the salesmen |
| ViewSector.JoinShopsConcat | src/pages/Sector/ViewSector.js:130 | joining two non-empty shop lists puts exactly one ", " between their joins |
| ViewSector.JoinShopsLength | src/pages/Sector/ViewSector.js:172 | the joined text is as long as all shop names together plus two characters per separator |
| ViewSector.JoinShops | src/pages/Sector/ViewSector.js:130 | `shops.join(', ')`: the shop names in order with ", " between neighbours; its properties are stated by the lemmas below |
| ViewSector.JoinShopsEnds | src/pages/Sector/ViewSector.js:130 | the joined text is empty for no shops, and otherwise starts with the first shop name and ends with the last |
| ViewSector.WithName | src/pages/Sector/ViewSector.js:193-196 | the edit changes only the name; the id and the shop list are untouched |
| ViewSector.FilteredSectors | src/pages/Sector/ViewSector.js:74-76 | a sector is kept exactly when its name contains the term ignoring case; order is kept; the empty term keeps all |
| ViewSector.SectorView.constructor | src/pages/Sector/ViewSector.js:22-43 | the screen starts with the three sample sectors, whose ids are unique, no selection and all dialogs closed |
| ViewSector.SectorView.HandleViewSector | src/pages/Sector/ViewSector.js:55-58 | the sector is selected and the view dialog opens; the sectors are unchanged |
| ViewSector.SectorView.HandleEditSector | src/pages/Sector/ViewSector.js:45-48 | the sector is selected and the edit dialog opens; the sectors are unchanged |
| ViewSector.SectorView.HandleDeleteSector | src/pages/Sector/ViewSector.js:50-53 | the sector is selected and the delete dialog opens; the sectors are unchanged |
| ViewSector.SectorView.ChangeName | src/pages/Sector/ViewSector.js:193-196 | the selected copy gets the new name; the sectors are unchanged |
| ViewSector.SectorView.SaveEditedSector | src/pages/Sector/ViewSector.js:60-67 | the sector with the selected id is replaced by a copy of the edited sector; the others are unchanged; unique ids are kept |
| ViewSector.SectorView.ConfirmDeleteSector | src/pages/Sector/ViewSector.js:69-72 | the sector with the selected id is removed and the others keep their order |
| ViewSector.SectorView.VisibleSectors | src/pages/Sector/ViewSector.js:74-76 | the shown rows are an order-preserving subsequence of the sectors |
| DateRange.OnOrBeforeTransitive | src/pages/Reporting/SalesReports.js:21-22 | calendar order is transitive |
| DateRange.InRange | src/pages/Reporting/SalesReports.js:21-22 | a date is in range only when both bounds are set and the start is on or before the end |
| DateRange.SumWhereIsRangeSum | src/pages/Reporting/SalesReports.js:19-24 | adding up the rows the range test accepts is the range sum |
| DateRange.EmptyRangeSumsToZero | src/pages/Reporting/SalesReports.js:19-23 | with a blank bound, or a start after the end, no row is in range and the sum is 0 |
| DateRange.RangeSumConcat | src/pages/Reporting/SalesReports.js:19-24 | the range sum of a concatenation is the sum of the two range sums |
| DateRange.TotalInRange | src/pages/Reporting/SalesReports.js:18-25 | filter-then-reduce is the sum over rows dated from start to end inclusive; it is 0 when a bound is blank and 0 when the start is after the end |
| SalesReports.TotalSales | src/pages/Reporting/SalesReports.js:18-25 | `totalSales` is the sum of `total` over the sales dated from start to end inclusive; 0 for a blank bound or a reversed range |
| SalesReports.SampleTotals | src/pages/Reporting/SalesReports.js:13-25 | the range 2024-12-20 to 2024-12-21 gives 25000; the single day 2024-12-20 gives 10000 |
| SalesReports.SalesTotalReport.constructor | src/pages/Reporting/SalesReports.js:9-16 | both dates start blank and the total starts at 0 |
| SalesReports.SalesTotalReport.SetStart | src/pages/Reporting/SalesReports.js:92-93 | the start date changes and the shown total does not |
| SalesReports.SalesTotalReport.SetEnd | src/pages/Reporting/SalesReports.js:99-100 | the end date changes and the shown total does not |
| SalesReports.SalesTotalReport.CalculateTotalSales | src/pages/Reporting/SalesReports.js:18-25 | the shown total becomes `TotalSales` of the sample rows for the current dates |
| SalaryReport.TotalSalary | src/pages/Reporting/SalaryReport.js:18-25 | `totalSalary` is the sum of `salary` over the rows dated from start to end inclusive; 0 for a blank bound or a reversed range |
| SalaryReport.SampleTotals | src/pages/Reporting/SalaryReport.js:13-25 | the range 2024-12-20 to 2024-12-21 gives 33000; the single day 2024-12-20 gives 15000 |
| SalaryReport.SalaryReport.constructor | src/pages/Reporting/SalaryReport.js:9-16 | both dates start blank, the total starts at 0, and the table's rows are the sample rows whatever the range |
| SalaryReport.SalaryReport.SetStart | src/pages/Reporting/SalaryReport.js:92-93 | the start date changes and the shown total does not |
| SalaryReport.SalaryReport.SetEnd | src/pages/Reporting/SalaryReport.js:99-100 | the end date changes and the shown total does not |
| SalaryReport.SalaryReport.CalculateTotalSalary | src/pages/Reporting/SalaryReport.js:18-25 | the shown total becomes `TotalSalary` of the sample rows for the current dates |
| TotalRecoveryReport.TotalRecovery | src/pages/Reporting/TotalRecoveryReport.js:18-25 | `totalRecovery` is the sum of `recoveryAmount` over the rows dated from start to end inclusive; 0 for a blank bound or a reversed range |
| TotalRecoveryReport.SampleTotals | src/pages/Reporting/TotalRecoveryReport.js:13-25 | the range 2024-12-20 to 2024-12-21 gives 8000; the single day 2024-12-20 gives 5000 |
| TotalRecoveryReport.TotalRecoveryReport.constructor | src/pages/Reporting/TotalRecoveryReport.js:9-16 | both dates start blank and the total starts at 0 |
| TotalRecoveryReport.TotalRecoveryReport.SetStart | src/pages/Reporting/TotalRecoveryReport.js:92-93 | the start date changes and the shown total does not |
| TotalRecoveryReport.TotalRecoveryReport.SetEnd | src/pages/Reporting/TotalRecoveryReport.js:99-100 | the end date changes and the shown total does not |
| TotalRecoveryReport.TotalRecoveryReport.CalculateTotalRecovery | src/pages/Reporting/TotalRecoveryReport.js:18-25 | the shown total becomes `TotalRecovery` of the sample rows for the current dates |
| Exports.Pdf | src/pages/Reporting/CustomerWiseReport.js:28-40 | the PDF table has one body row per data row, each holding that row's values |
| Exports.Excel | src/pages/Reporting/CustomerWiseReport.js:21-26 | the workbook holds exactly the rows handed to it, on a sheet named after the file, saved as `<name>.xlsx` |
| CustomerWiseReport.FilteredCustomerReports | src/pages/Reporting/CustomerWiseReport.js:17-19 | a row is kept exactly when its customer contains the term ignoring case; order is kept; the empty term keeps all |
| CustomerWiseReport.Values | src/pages/Reporting/CustomerWiseReport.js:33 | `Object.values(row)` gives one cell per header, from which the row reads back |
| CustomerWiseReport.ExcelExport | src/pages/Reporting/CustomerWiseReport.js:61 | the spreadsheet export holds exactly the rows the search shows, as `{title}.xlsx`; with an empty search, all sample rows |
| CustomerWiseReport.PdfExport | src/pages/Reporting/CustomerWiseReport.js:67-71 | the PDF export has the headers and one body row per shown row, each reading back as that row |
| CustomerWiseReport.ExportsFollowSearch | src/pages/Reporting/CustomerWiseReport.js:61-71 | both exports receive exactly the filtered rows, the PDF one body row per shown row |
| CustomerWiseReport.SearchNarrowsSample | src/pages/Reporting/CustomerWiseReport.js:12-19 | searching for "B" keeps only the second sample row |
| ProductWiseReport.FilteredProductReports | src/pages/Reporting/ProductWiseReport.js:17-19 | a row is kept exactly when its product contains the term ignoring case; order is kept; the empty term keeps all |
| ProductWiseReport.Values | src/pages/Reporting/ProductWiseReport.js:33 | `Object.values(row)` gives one cell per header, from which the row reads back |
| ProductWiseReport.ExcelExport | src/pages/Reporting/ProductWiseReport.js:63 | the spreadsheet export holds exactly the rows the search shows, as `{title}.xlsx`; with an empty search, all sample rows |
| ProductWiseReport.PdfExport | src/pages/Reporting/ProductWiseReport.js:69-73 | the PDF export has the headers and one body row per shown row, each reading back as that row |
| ProductWiseReport.ExportsFollowSearch | src/pages/Reporting/ProductWiseReport.js:63-73 | both exports receive exactly the filtered rows, the PDF one body row per shown row |
| ProductWiseReport.SearchNarrowsSample | src/pages/Reporting/ProductWiseReport.js:12-19 | searching for "B" keeps only the second sample row |
| SalesmanReport.FilteredSalesmanReports | src/pages/Reporting/SalesmanReport.js:17-19 | a row is kept exactly when its salesman contains the term ignoring case; order is kept; the empty term keeps all |
| SalesmanReport.Values | src/pages/Reporting/SalesmanReport.js:33 | `Object.values(row)` gives one cell per header, from which the row reads back |
| SalesmanReport.ExcelExport | src/pages/Reporting/SalesmanReport.js:61 | the spreadsheet export holds exactly the rows the search shows, as `{title}.xlsx`; with an empty search, all sample rows |
| SalesmanReport.PdfExport | src/pages/Reporting/SalesmanReport.js:67-71 | the PDF export has the headers and one body row per shown row, each reading back as that row |
| SalesmanReport.ExportsFollowSearch | src/pages/Reporting/SalesmanReport.js:61-71 | both exports receive exactly the filtered rows, the PDF one body row per shown row |
| SalesmanReport.SearchNarrowsSample | src/pages/Reporting/SalesmanReport.js:12-19 | searching for "B" keeps only the second sample row |
| AssignShops.AssignedMessage | src/pages/Sector/AssignShops.js:53-55 | the alert writes the shop count and the sector count in decimal at fixed places between the fixed words, and ends with the salesman's name |
| AssignShops.CountsReadBack | src/pages/Sector/AssignShops.js:54 | the digits at each count's place in the alert spell that count |
| AssignShops.AssignBySalesman.constructor | src/pages/Sector/AssignShops.js:21-27 | no salesman is selected and both assignment lists are empty |
| AssignShops.AssignBySalesman.HandleSalesmanChange | src/pages/Sector/AssignShops.js:32-36 | a new selection clears both the assigned shops and the assigned sectors |
| AssignShops.AssignBySalesman.HandleAssignChange | src/pages/Sector/AssignShops.js:38-42 | "shops" replaces only the shops, "sectors" only the sectors, and any other type changes nothing |
| AssignShops.AssignBySalesman.HandleSubmit | src/pages/Sector/AssignShops.js:44-56 | with no salesman selected the submit is rejected; otherwise the alert reports both counts and the name; no state changes either way |

## Left out

- Rendering, the sidebar, headers, icons, and how the dialogs look. Only the dialogs' open flags are modelled.
- The order save on the add-order screen posts the draft to a server and resets it on success. Network calls are not part of this model.
- The spreadsheet and PDF libraries. For the three search reports the model states what the export buttons hand over. The balance-sheet, shop and date-range report exports are not modelled, because they only copy rows into a library call.
- `alert` and `console.log`. The payment and assignment outcomes are returned as values instead.
- Payments.PaymentManagement.RecordPayment: the log timestamp `new Date().toLocaleString()` is a parameter, because it reads the clock.
- Payments.PaymentDetails: the form holds `parseFloat` of the typed amount as an integer, with `None` standing for `NaN`. Fractional amounts are not modelled, and neither is the text-to-number parse itself. The search-box and form-field setters of the payment screen are not modelled, because they only store what was typed.
- Payments.PaymentManagement.RecordPayment: when no shop has the id, the source throws a `TypeError` inside `find`. By then the queued shop update maps every shop to itself. The model returns `ShopNotFound` and leaves the state as it was.
- Text.Lower: `toLowerCase` is modelled on ASCII letters only, with no Unicode case mapping.
- DateRange.InRange: a date input's value is modelled as blank or a calendar day. Both sides of every comparison parse as midnight UTC, so their order is calendar order. Partial or malformed date text is not modelled, because a date input does not produce it.
- ViewBalances.ShopManagement.ConfirmDeleteShop, OrderManagement.OrderManagement.HandleSaveEdit, OrderManagement.OrderManagement.ConfirmDelete, ViewItems.InventoryManagement.HandleSave, ViewItems.InventoryManagement.ConfirmDelete, Saleman.SalesmanManagement.HandleEditSalesman, Saleman.SalesmanManagement.HandleDeleteSalesman, ViewSector.SectorView.SaveEditedSector and ViewSector.SectorView.ConfirmDeleteSector require a selection. With none, the source throws reading `selected.id`. The dialogs that call them only open after a row button has set the selection.
- OrderManagement.OrderManagement.HandleEditChange, ViewItems.InventoryManagement.HandleEditChange, Saleman.SalesmanManagement.ChangeField and ViewSector.SectorView.ChangeName require a selection. With none, the source would build a partial record from `{ ...null }`. Their inputs are only rendered while a record is selected.
- ViewBalances.ShopManagement.SaveShop, ViewBalances.AddShop, ViewBalances.UpdatesKeepIdsUnique: the add path uses the corrected id `NewShopId`, which is 1 on an empty table. The screen computes `-Infinity` there and repeats it on the next add, so these members promise unique ids the screen does not keep once the table has been emptied. The as-written id is `ViewBalances.MaxPlusOne`, and the second Findings row shows where the two differ.
- ViewBalances.ShopForm: after an edit is opened, the source's form also carries the shop's `id`. Saving overrides it with the shop's own id, and the add path always starts from an emptied form. The model's form therefore leaves the id out.
- ViewBalances.Shop, ViewItems.Item: numeric fields are kept as the text of their inputs, the form's guard compares the balance with the empty string, and no arithmetic is done on them.
- Saleman.SalesmanManagement.constructor: the source loads the sample list after a 500 ms timer. The model starts from the loaded list, because timers are not modelled. The other screens' mount effects are treated the same way.
- The balance-sheet screen's data-loading effect is the constant `BalanceSheet.SeedData`.
- Discount, line totals and invoice rendering. The code has no such computation.

## Findings

| source | as written | input that shows it | evidently intended | confidence | as-written member | corrected member |
|---|---|---|---|---|---|---|
| src/pages/BalanceSheet.js:52 | `totalCredits = calculateTotal(credits)` adds up `item.amount`, but credit rows carry `balance` and no `amount`; `0 + undefined` is `NaN` | the sample credits `Credit Line A` (balance 1500) and `Credit Line B` (balance 500): the screen shows "Total Credits: $NaN" | the sum of the credit balances, 2000 | not executed | BalanceSheet.CreditRowsMakeTotalNaN | BalanceSheet.TotalCreditBalances |
| src/pages/Shop/ViewBalances.js:86 | the new id is `Math.max(...shops.map(s => s.id)) + 1`, and `Math.max()` of no ids is `-Infinity` | delete all three shops, then add two: both get id `-Infinity`, so an edit or delete of one hits both | 1 for an empty list, the largest id plus 1 otherwise | not executed | ViewBalances.EmptyListGivesDuplicateIds | ViewBalances.NewShopId |
