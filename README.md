# Pizza-shop billing backend, modelled in Dafny

The backend is a REST layer over six SQL tables: pizza_types, toppings,
beverages, the pizza_toppings join table, invoices and invoice_items. This
project holds those tables in memory as one `Store` class (module `Shop`):
string-keyed maps for pizza types, toppings and beverages, a sequence of join
rows, and int-keyed maps for invoices and invoice items, with the two
AUTO_INCREMENT counters. Each controller handler is a method on the store. It
takes the path parameters, the decoded body (`Body<T>`: the record or the
decoder's error text), the current instant `now` and a `Fault`, which says
which of the handler's SQL statements the database rejects, if any. It
answers `Ok`, `Created` (201), `BadRequest(msg)` or `InternalError`. Its
`modifies` clause names only the tables its statements write.

The pure rules sit in their own modules:

- `Merge` holds the "non-empty wins" update merge. It states the rule per field. It folds the row merge over a series of update bodies and proves that each field then ends as the last non-empty or non-zero value sent.
- `Links` holds the join-table queries: the two cascade deletes and the topping-name listing. It proves what the cascades do to every listing.
- `Totals` holds the invoice total rule. The subtotal is the SQL `SUM` over a set of rows and does not depend on row order. The tax is 10% of the subtotal, and the total is subtotal plus tax.

`Store.Valid()` is the store invariant that every handler preserves:

- each row sits under its own id;
- every join row refers to a stored pizza type and a stored topping;
- every key handed out is below its counter;
- every stored invoice has `tax = 0.10 × subtotal` and `total = subtotal + tax`.

Behaviour of the code that a reader may not expect, which the model keeps:

- UpdateInvoice on an invoice with no items does not give zero totals. The `SUM` is NULL, the float scan fails, and the answer is a storage error. By then the customer name has already been written.
- The printable-invoice header does not omit customer_name and the date. They are present with zero values.
- UpdateInvoice overwrites customer_name unconditionally. It does not use the merge rule.
- The cascading deletes always run the join-row statement first. So the only partial state is "join rows gone, row kept".
- updated_at is set to `now`. Whether it advances depends on the instants passed in.

## Model

| member | source | states |
|---|---|---|
| `Shop.Store.CreatePizzaType` | backend/controllers/pizza_controller.go:50-73 | a malformed body gives BadRequest with the decoder's error and no write; otherwise the stored row and the answer are the body with created_at and updated_at set to now; a rejected insert (or an id already present) gives InternalError and no write |
| `Shop.Store.UpdatePizzaType` | backend/controllers/pizza_controller.go:77-147 | a missing row (or failed read) gives InternalError before the body is looked at, with no write; a malformed body then gives BadRequest with no write; otherwise the row under the path's key becomes the merge of the stored row and the body, the body's id is ignored, and the answer carries a zero created_at; a rejected UPDATE leaves the table unchanged |
| `Merge.MergePizzaType` | backend/controllers/pizza_controller.go:107-131 | the written row keeps the stored key and created_at, takes updated_at = now, and for name, size, base_price and description keeps the stored value exactly when the body's is empty or 0, else takes the body's |
| `Merge.MergeSeriesLastNonZeroWins` | backend/controllers/topping_controller.go:105-111 | a field merged over a series of sent values ends as the last non-empty/non-zero value sent, or the stored value if none was sent; a non-zero value can never be set back to 0 |
| `Merge.MergeSeriesStringStep` | backend/controllers/pizza_controller.go:108-110 | one more update of a string field applies the non-empty rule to the value the series had reached |
| `Merge.MergeSeriesRealStep` | backend/controllers/topping_controller.go:109-111 | one more update of a price applies the non-zero rule to the value the series had reached |
| `Merge.PizzaTypeAfterUpdates` | backend/controllers/pizza_controller.go:107-131 | the row after successive UpdatePizzaType writes keeps the stored key and created_at, and updated_at is the last write's instant |
| `Merge.PizzaTypeUpdatesMergeEachField` | backend/controllers/pizza_controller.go:107-120 | after successive pizza-type updates, name, size, base_price and description are each the series merge of the stored value over the values sent; a non-zero base price is never reset to 0 |
| `Shop.Store.DeletePizzaType` | backend/controllers/pizza_controller.go:150-174 | the join rows of the pizza type are removed first, then the row; if the first statement fails nothing changes; if the second fails the join rows are gone and the row stays; toppings are untouched; an absent id still succeeds |
| `Links.WithoutPizzaType` | backend/controllers/pizza_controller.go:156-161 | the join table keeps exactly the rows of other pizza types and none of the deleted pizza type |
| `Links.WithoutPizzaTypeKeepsCopies` | backend/controllers/pizza_controller.go:156-161 | every other pizza type's join row remains as many times as it occurred, duplicates included, and no row of the deleted pizza type remains |
| `Links.NoToppingsAfterPizzaTypeCascade` | backend/controllers/pizza_controller.go:156-168 | after the cascade the deleted pizza type has no join row and its topping listing is empty |
| `Links.PizzaTypeCascadeKeepsOthers` | backend/controllers/pizza_controller.go:157-158 | the cascade leaves every other pizza type's join-row count and topping listing as they were |
| `Shop.Store.CreateTopping` | backend/controllers/topping_controller.go:50-73 | a malformed body gives BadRequest with no write; otherwise the stored row and the answer are the body's id, name and price with both timestamps set to now |
| `Shop.Store.UpdateTopping` | backend/controllers/topping_controller.go:77-138 | a missing row gives InternalError before body decoding with no write; a malformed body gives BadRequest; otherwise the row under the path's key becomes the merge of stored row and body, and updated_at is now |
| `Merge.MergeTopping` | backend/controllers/topping_controller.go:105-122 | key and created_at from the stored row, updated_at = now, name and price merged by the non-empty/non-zero rule |
| `Merge.ToppingAfterUpdates` | backend/controllers/topping_controller.go:105-122 | the row after successive UpdateTopping writes keeps the stored key and created_at, and updated_at is the last write's instant |
| `Merge.ToppingUpdatesMergeEachField` | backend/controllers/topping_controller.go:105-113 | after successive topping updates, name and price are each the series merge of the stored value over the values sent; a non-zero price is never reset to 0 |
| `Shop.Store.DeleteTopping` | backend/controllers/topping_controller.go:141-166 | all join rows of the topping are removed, then the topping row; a failure of the join-row statement aborts before the row is deleted; pizza types are untouched |
| `Links.WithoutTopping` | backend/controllers/topping_controller.go:147-152 | the join table keeps exactly the rows of other toppings and none of the deleted topping |
| `Links.WithoutToppingKeepsCopies` | backend/controllers/topping_controller.go:147-152 | every other topping's join row remains as many times as it occurred, duplicates included, and no row of the deleted topping remains |
| `Links.ToppingCascadeCount` | backend/controllers/topping_controller.go:148-149 | each pizza type loses exactly its join rows to the deleted topping and keeps all others |
| `Links.ToppingCascadeLeavesNoOrphans` | backend/controllers/topping_controller.go:147-160 | once the join rows are gone, deleting the topping row changes no listing |
| `Shop.Store.CreateBeverage` | backend/controllers/beverage_controller.go:50-73 | a malformed body gives BadRequest with no write; otherwise the stored row and the answer are the body with both timestamps set to now |
| `Shop.Store.UpdateBeverage` | backend/controllers/beverage_controller.go:77-137 | a missing row gives InternalError before body decoding with no write; a malformed body gives BadRequest; otherwise the row under the path's key becomes the merge of stored row and body |
| `Merge.MergeBeverage` | backend/controllers/beverage_controller.go:105-121 | key and created_at from the stored row, updated_at = now, name and price merged by the non-empty/non-zero rule |
| `Merge.BeverageAfterUpdates` | backend/controllers/beverage_controller.go:105-121 | the row after successive UpdateBeverage writes keeps the stored key and created_at, and updated_at is the last write's instant |
| `Merge.BeverageUpdatesMergeEachField` | backend/controllers/beverage_controller.go:105-112 | after successive beverage updates, name and price are each the series merge of the stored value over the values sent; a non-zero price is never reset to 0 |
| `Shop.Store.DeleteBeverage` | backend/controllers/beverage_controller.go:140-158 | only the beverages table changes, with no join cleanup; an absent id still gets the success message |
| `Shop.Store.LinkPizzaTopping` | backend/controllers/pizza_topping_controller.go:12-60 | a malformed body gives BadRequest before any check; a missing pizza type gives "Pizza type not found", checked before the topping; a missing topping gives "Topping not found"; the join table grows if and only if the answer is 201, and then by exactly the pair (path pizza type, body topping), which is also the answer |
| `Shop.Store.GetToppingsByPizzaType` | backend/controllers/pizza_topping_controller.go:65-115 | a missing pizza type gives "Pizza type not found"; otherwise the answer is the inner-join listing, with one name per join row of the pizza type and every linked topping's name in it; nothing is written |
| `Links.ToppingNames` | backend/controllers/pizza_topping_controller.go:80-104 | the listing is no longer than the pizza type's join rows, and every name in it is the name of a stored topping linked to that pizza type |
| `Links.ToppingNamesOnePerLink` | backend/controllers/pizza_topping_controller.go:80-104 | when all join rows resolve, the listing has exactly one name per join row and contains the name of every linked topping |
| `Shop.Store.CreateInvoice` | backend/controllers/invoice_controller.go:44-75 | the new row gets a fresh key, subtotal = tax = total = 0 whatever the body says, invoice_date and updated_at = now and the body's customer name; the answer echoes the body with those fields set, keeping the body's invoice_id |
| `Shop.Store.SumInvoiceItems` | backend/controllers/invoice_controller.go:98-108 | reports whether the invoice has any item and returns the sum of quantity × unit_price over exactly its items |
| `Totals.SumLinesTakeAny` | backend/controllers/invoice_controller.go:98-101 | the sum over a set of rows equals any one row's line total plus the sum over the rest, so it does not depend on row order |
| `Totals.SumLinesFrame` | backend/controllers/invoice_controller.go:98-101 | the sum over given rows depends only on those rows, not on the rest of the table |
| `Totals.Total` | backend/controllers/invoice_controller.go:110-111 | total = subtotal + tax = 1.1 × subtotal |
| `Totals.WorkedExample` | backend/controllers/invoice_controller.go:98-111 | items 2 × 5.00 and 1 × 3.00 give subtotal 13.00, tax 1.30 and total 14.30 |
| `Shop.Store.UpdateInvoice` | backend/controllers/invoice_controller.go:79-131 | customer_name is overwritten, even with "", and updated_at set; with no items the answer is InternalError after that write; otherwise subtotal, tax and total are stored from the items, and for an existing invoice the stored totals are current and returned; a missing invoice gives InternalError with nothing written |
| `Totals.AddItemShiftsSubtotal` | backend/controllers/invoice_controller.go:182-198 | adding an item raises the invoice's item sum by its line total, so stored totals that were current go stale (the two-step refresh protocol) |
| `Shop.Store.CreateInvoiceItem` | backend/controllers/invoice_controller.go:182-209 | the row is stored under a fresh key with the path's invoice_id, not the body's; invoices are untouched while the item sum grows by the new line; the answer echoes the body |
| `Shop.Store.UpdateInvoiceItem` | backend/controllers/invoice_controller.go:213-233 | after the body decodes, the answer is always InternalError, because the statement is malformed; nothing is written |
| `Shop.Store.DeleteInvoice` | backend/controllers/invoice_controller.go:135-149 | removes only the invoice row; its items and all other tables stay |
| `Shop.Store.DeleteInvoiceItem` | backend/controllers/invoice_controller.go:237-251 | removes only that one item; no invoice total changes |
| `Shop.Store.GeneratePrintableInvoice` | backend/controllers/invoice_controller.go:255-311 | read-only; the header has the stored id, subtotal, tax and total with every other field zero, or is all zero for a missing invoice, and it obeys the tax/total rule; the lines are exactly the invoice's items, one each, carrying only item_id, quantity and unit_price |

## Left out

- HTTP and JSON plumbing is not modelled: routing (backend/routes, backend/server.go), status writing and content types. A decode failure is the `Malformed` body.
- Connection set-up (backend/database/db.go) is not part of this model. It is configuration and I/O.
- The list handlers (GetPizzaTypes, GetToppings, GetBeverages, GetInvoices, GetInvoiceItems) are left out. They return a table in database order and have no logic beyond that.
- The React front end is not part of this model.
- Storage error texts are not kept. `InternalError` carries none. Every query or statement failure that the code maps to 500 is a `Fault` input, and the existence checks map a failure to 400 as the code does.
- The model does not reproduce float64 rounding. Money is exact `real`, so 0.10 × subtotal has no drift.
- Timestamps are the parameter `now`. The code calls the clock twice for created_at and updated_at, and the model gives both the same instant.
- Concurrent interleaving of the non-transactional handlers is not modelled. The model is sequential, and the partial states of a single handler are modelled through `Fault`.
- Schema constraints are not visible in the code. Pizza types, toppings and beverages are keyed maps, so an insert of an id already present is treated as rejected. Join rows have no key, so duplicate links are kept. invoice_items.invoice_id has no foreign-key check.
- AUTO_INCREMENT keys are the counters. A rejected insert does not consume one.
- The Go Invoice struct has a string invoice_id and a formatted invoice_date. The model uses int ids and the creation instant, and the zero header id "" becomes 0.
- Go encodes an empty result slice as JSON null. The model returns the empty sequence.
- Links.WithoutPizzaType: its contract states which rows remain; Links.WithoutPizzaTypeKeepsCopies states how many copies of each. Neither states their order. Order is covered for other pizza types by Links.PizzaTypeCascadeKeepsOthers.
- Links.WithoutTopping: its contract states which rows remain; Links.WithoutToppingKeepsCopies states how many copies of each. Neither states their order.
- Shop.Store.GetToppingsByPizzaType: the query has no ORDER BY, so the database may return the names in any order, probably key order. The model fixes join-row order, that is insertion order. Links.PizzaTypeCascadeKeepsOthers therefore also proves that order is kept, which the program does not promise.
- Merge.PizzaTypeAfterUpdates, Merge.ToppingAfterUpdates and Merge.BeverageAfterUpdates give every write of the series the same instant `now`. Only updated_at depends on it, and it ends as the last write's instant either way.
