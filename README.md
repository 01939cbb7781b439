# Order, ledger and production services — a Dafny model

This project models the service layer of a glass and panel fabrication back end. It covers three
services.

- **Ledger** (`financial_service.py`). Each account keeps a running balance. Creating a transaction
  applies its effect: IN adds the amount, OUT subtracts it. Updating a transaction reverses the old
  effect, writes the sent fields and applies the new effect. Deleting a transaction reverses its
  effect. A payment for an order books an IN transaction and marks the order "TESLIM EDILDI".
- **Orders** (`order_service.py`). A line item costs `base_price_sqm × (width × height / 1 000 000) ×
  quantity`, and its unit price is the product's rate. An order's `total_amount` is the sum of its
  line totals. `tax_amount` is 18% of the total and `grand_total` is total plus tax. An update can
  patch the partner and the status, and it can replace the whole item list.
- **Production** (`production_service.py`). The default stations are seeded once, keyed by code.
  Jobs are created from order items and start PENDING with nothing produced. Each logged step adds
  its quantity and re-derives the status: COMPLETED when produced ≥ required, otherwise IN_PROGRESS
  when produced > 0.

The database session is the class `Store.Session`. It holds one `map` per table and an append-only
`seq` of production logs. Each service function is a method over a `Session`. The method's
`modifies` clause names the tables the function writes. Its `ensures` clauses give the new tables in
terms of the old ones. Money is `real`, so the model's arithmetic is exact. Python's `Decimal` rounds
to 28 significant digits and the database stores two decimal places; both are listed under "Left out".

Two invariants are stated and preserved.

- `Ledger.Reconciled`: each account's balance equals Σ IN − Σ OUT over its existing transactions.
  The sum is a map sum (`Sums.SumValues`), so it does not depend on order.
- `Orders.OrdersConsistent`: each order's totals agree with the stored items that belong to it.

A new account starts at 0 and an empty session is reconciled. Every ledger operation keeps
`Reconciled`, so the balance identity holds after any sequence of creates, updates and deletes.

Where the code and the design description differ, the model follows the code:

- The design rejects non-positive transaction amounts and production quantities with a validation
  error. The code checks neither, so the model accepts any value.
  `Production.NegativeStepRegresses` shows that a negative step moves a COMPLETED job back to
  IN_PROGRESS.
- The design describes moving a transaction to another account. The update payload
  (`schemas/financial.py:42-48`) has no `account_id`, so `Ledger.Patched` never changes the account.
- The design keeps PENDING as an explicit fallback status. The code has no else branch, so
  `Production.Advance` keeps the stored status when produced ≤ 0 and produced < required.
- The design rounds tax to two places. The code multiplies exactly, so the model does too.
- The design has COMPLETED exactly when produced ≥ required. The code does not validate order-item
  quantities (`schemas/order_item.py:11`), and a job starts PENDING with 0 produced. So a job for an
  item of quantity 0 or less is PENDING with produced ≥ required from the moment it is created
  (`Production.ZeroQuantityJobScenario`). `Production.StatusReflectsQuantities` therefore assumes a
  positive required quantity.

Failure paths leave the tables unchanged. This models the session being discarded without a
commit. `create_order` and `update_order` restore a snapshot when a product is missing halfway
through the items.

## Model

| member | source | states |
|---|---|---|
| `Ledger.Effect` | backend/app/services/financial_service.py:77-81 | an IN transaction contributes +amount to its account's balance, an OUT transaction −amount |
| `Ledger.Opposite` | backend/app/services/financial_service.py:134 | the direction used for the reversal always differs from the transaction's own, so IN becomes OUT and OUT becomes IN |
| `Ledger.ApplyTransactionToAccount` | backend/app/services/financial_service.py:77-81 | IN raises the account's balance by exactly `amount`, any other direction lowers it by exactly `amount`; no other account or field changes |
| `Ledger.OppositeCancels` | backend/app/services/financial_service.py:132-134 | applying the opposite direction with the same amount undoes the effect exactly |
| `Ledger.CreateTransaction` | backend/app/services/financial_service.py:84-104 | unknown account: "Account not found" with balances and transactions unchanged; otherwise exactly one transaction is added under a fresh id, only its account's balance moves, by +amount (IN) or −amount (OUT), and `Reconciled` is preserved |
| `Ledger.Patched` | backend/app/schemas/financial.py:42-48 | an update never changes a transaction's account, and one that sends neither direction nor amount leaves both as they were |
| `Ledger.UpdateDelta` | backend/app/services/financial_service.py:132-138 | an update moves the balance by effect(new) − effect(old): B − A for an IN amount change A→B (A − B for OUT), ±2a for a direction flip at amount a, 0 when direction and amount stay |
| `Ledger.UpdateTransaction` | backend/app/services/financial_service.py:126-141 | unknown id: None and nothing changes; otherwise the stored transaction becomes the patched one and its own account's balance becomes old − effect(old) + effect(new); `Reconciled` is preserved |
| `Ledger.DeleteTransaction` | backend/app/services/financial_service.py:144-152 | returns whether the id existed; unknown id changes nothing; otherwise the transaction is removed and its account's balance loses the transaction's effect; `Reconciled` is preserved |
| `Ledger.CreateThenDelete` | backend/app/services/financial_service.py:84-152 | deleting a transaction right after creating it restores every balance and the transaction table |
| `Ledger.NetInsert` | backend/app/services/financial_service.py:100-101 | adding a transaction adds its effect to its own account's net and nothing to any other account's |
| `Ledger.NetRemove` | backend/app/services/financial_service.py:149-150 | removing a transaction takes its effect out of its own account's net only |
| `Ledger.NetReplace` | backend/app/services/financial_service.py:133-138 | replacing a transaction changes an account's net by the new share minus the old share |
| `Ledger.CreateAccount` | backend/app/services/financial_service.py:27-35 | a new account gets a fresh id and balance 0, and `Reconciled` is preserved because no transaction refers to it yet |
| `Ledger.AccountBalance` | backend/app/services/financial_service.py:66-70 | None exactly for an unknown account; in a reconciled session the balance equals Σ IN − Σ OUT of the account's transactions |
| `Ledger.PaymentTxn` | backend/app/services/financial_service.py:169-175 | the payment is an IN transaction for exactly the amount, booked to the given account, linked to the order, with the given description and no partner or purchase order |
| `Ledger.CreatePaymentForOrder` | backend/app/services/financial_service.py:159-181 | unknown order: "Order not found" before anything is written; unknown account: "Account not found", nothing written; otherwise one IN transaction linked to the order is booked, the balance rises by the amount and the order's status becomes "TESLIM EDILDI" whatever the amount |
| `Ledger.BalanceScenario` | backend/app/services/financial_service.py:77-152 | starting from 0: IN 50.00 gives 50.00, updating it to OUT 50.00 gives −50.00, deleting it gives 0.00 |
| `Ledger.UnknownOrderPaymentScenario` | backend/app/services/financial_service.py:166-168 | a payment for a missing order fails with "Order not found", books no transaction and leaves the balance at 0 |
| `Orders.AreaSqm` | backend/app/services/order_service.py:25 | the area in m² times 1 000 000 is width × height in mm², with no rounding |
| `Orders.LineTotal` | backend/app/services/order_service.py:25-26 | the line total times 1 000 000 equals rate × width × height × quantity; it is 0 when the quantity or either dimension is 0 |
| `Orders.PricedItem` | backend/app/services/order_service.py:24-36 | the stored item carries the order, the product, the width, height and quantity of the request; its unit price is the product's rate and its total is the line total |
| `Orders.UnitPriceIgnoresSize` | backend/app/services/order_service.py:24 | a line item's unit price is the product's `base_price_sqm`, the same for every width, height and quantity |
| `Orders.LineTotalFromSquareMillimetres` | backend/app/services/order_service.py:25-26 | the line total equals rate × (width × height × quantity) / 1 000 000, the exact price of the line's area in mm² |
| `Orders.LineTotalExample` | backend/app/services/order_service.py:25-26 | 1000 × 2000 mm is 2.0 m², and three such panes at 100.00 cost 600.00 |
| `Orders.LineTotalAdditive` | backend/app/services/order_service.py:26 | the line total is additive in the quantity |
| `Orders.LineTotalSymmetric` | backend/app/services/order_service.py:25 | swapping width and height leaves the price unchanged |
| `Orders.LineTotalNonNegative` | backend/app/services/order_service.py:25-26 | a non-negative rate and non-negative dimensions and quantity give a non-negative line total |
| `Orders.WithTotals` | backend/app/services/order_service.py:52-54 | `total_amount` is the given total, `tax_amount` is the total times TAX_RATE, `grand_total` is total plus tax; partner and status are untouched |
| `Orders.PatchedHeader` | backend/app/services/order_service.py:93-96 | partner and status take the sent value when it is not None and keep the stored one otherwise; the three totals are untouched |
| `Orders.GrandTotalRate` | backend/app/services/order_service.py:16 | tax is 0.18 × total and the grand total is 1.18 × total |
| `Orders.TotalsExample` | backend/app/services/order_service.py:53-54 | a total of 1000.00 gives tax 180.00 and grand total 1180.00 |
| `Orders.CreateOrderItem` | backend/app/services/order_service.py:19-38 | unknown product: "Product not found" and no item is stored; otherwise one fresh item is stored with the product's rate as unit price and the area-based line total, and that total is returned |
| `Orders.AddItems` | backend/app/services/order_service.py:49-52 | the accumulated total is the sum of the line totals of the requests, the order's stored item sum grows by exactly that, and one priced item per request is added; "Product not found" exactly when some request names an unknown product |
| `Orders.CreateOrder` | backend/app/services/order_service.py:41-60 | "Product not found" exactly when a requested product is missing, and then nothing is stored; otherwise a fresh order with the requested partner and status and one priced item per request, whose total is the sum of its items' totals, tax 18% of it and grand total their sum; every other order is consistent as before |
| `Orders.UpdateOrder` | backend/app/services/order_service.py:89-109 | unknown id: None and nothing changes; partner and status change only when sent; without an item list the items and all three totals stay; with one, every old item of the order is removed, the new ones are priced afresh and the totals recomputed; a missing product rolls everything back |
| `Orders.WithoutOrderSums` | backend/app/services/order_service.py:97-98 | bulk-deleting an order's items leaves it an item sum of 0 and leaves every other order's items as they were |
| `Orders.DeleteOrder` | backend/app/services/order_service.py:112-118 | returns whether the id existed; the order and, by the foreign key's cascade, its items are removed; the other orders stay consistent |
| `Orders.OrderTotalsScenario` | backend/app/services/order_service.py:41-54 | an order with a 600.00 line and a 400.00 line has total 1000.00, tax 180.00 and grand total 1180.00 |
| `Production.EnsureDefaultStations` | backend/app/services/production_service.py:22-33 | stations already stored are untouched; afterwards every default code is present; only default stations whose code was missing are added; unique codes stay unique; when all defaults are present nothing changes |
| `Production.EnsureDefaultStationsTwice` | backend/app/services/production_service.py:22-33 | the first run reaches a table `once` that satisfies the one-run contract, and the second run leaves the table equal to `once`, so seeding is idempotent; afterwards each default code names exactly one station |
| `Production.CreateJobFromOrderItem` | backend/app/services/production_service.py:36-48 | unknown item: "Order item not found" and nothing changes; otherwise the default stations are seeded and a fresh job is stored with the item's quantity as `quantity_required`, nothing produced and status PENDING |
| `Production.LogProductionStep` | backend/app/services/production_service.py:74-92 | unknown job: "Job not found" with no log appended; otherwise exactly one log with the job, station, user and quantity is appended, produced grows by the quantity, status is COMPLETED when produced ≥ required, IN_PROGRESS when 0 < produced < required, and unchanged otherwise |
| `Production.Advance` | backend/app/services/production_service.py:85-89 | produced grows by the step's quantity and the required quantity stays; the status is COMPLETED when produced ≥ required, IN_PROGRESS when 0 < produced < required, and the stored status otherwise |
| `Production.ZeroQuantityJobScenario` | backend/app/services/production_service.py:36-48 | a job created for an order item of quantity 0 is PENDING with 0 produced, although produced ≥ required |
| `Production.AdvanceForward` | backend/app/services/production_service.py:85-89 | a positive step keeps a job's status in agreement with its quantities and never moves it backwards along PENDING → IN_PROGRESS → COMPLETED |
| `Production.AdvanceAllForward` | backend/app/services/production_service.py:85-89 | over any run of positive steps, produced grows by their total, the status stays in agreement with the quantities and only moves forward |
| `Production.StatusReflectsQuantities` | backend/app/services/production_service.py:86-89 | in a job reached by positive steps needing a positive quantity, COMPLETED iff produced ≥ required, IN_PROGRESS iff 0 < produced < required, PENDING iff nothing is produced |
| `Production.NegativeStepRegresses` | backend/app/services/production_service.py:85-89 | the code does not reject a negative quantity: a step of −5 takes a completed 10/10 job back to IN_PROGRESS at 5 |
| `Production.ProductionScenario` | backend/app/services/production_service.py:74-92 | a job for 10: a step of 4 leaves it IN_PROGRESS at 4, a further step of 6 makes it COMPLETED at 10 |
| `Store.FreshKey` | backend/app/models/financial_transaction.py:22 | a newly assigned primary key is not already in use in its table |

## Left out

- Database rounding to `Numeric(10,2)` on persist, and `Decimal`'s 28-digit context precision. The
  model's arithmetic is exact.
- Column ranges: `Numeric(10,2)` holds at most 8 integer digits, and `Integer` columns (width,
  height, quantity, `quantity_required`, `quantity_produced`) are 32-bit. The model's `real` and
  `int` are unbounded, so it accepts writes the database would reject as out of range.
- The CHECK constraint on `orders.status` (`models/order.py:27`). It does not admit "TESLIM EDILDI",
  so the database would reject what `create_payment_for_order` writes. The model stores the status.
- Ledger.CreatePaymentForOrder: modelled as all-or-nothing. In the code, `create_transaction`
  commits on its own (`financial_service.py:102`) before the status write and its commit
  (`financial_service.py:178-179`). Under the status constraint above, the payment and the balance
  change would persist while the status write is rejected. The model has no constraint, so this
  split outcome does not arise in it.
- Other foreign-key rejections, such as deleting an account that has transactions or an order that
  has payments or jobs. The model only assumes the links the code relies on: each transaction's
  account exists (`Ledger.AccountsExist`) and each item's order exists (`Orders.ItemsHaveOrders`).
- Commit and rollback as such. The model only guarantees that a failed operation leaves the tables
  unchanged. `create_job_from_order_item` only flushes and never commits; the model treats its
  writes as stored.
- Identifier generation: `Store.FreshKey` returns an unused natural number in place of a random UUID.
  The methods return that id rather than the refreshed ORM object (`db.refresh`).
- Timestamps (`transaction_date`, `completed_at`, `created_at`, `updated_at`) and the fixed
  `organization_id` tenant.
- Ledger.UpdateTransaction: an update that explicitly sends `null` for `direction` or `amount` is not
  modelled; the `Patch` type cannot express that payload. A null `amount` raises a type error when it
  is applied (`financial_service.py:79` or `:81`). A null `direction` takes the OUT branch of the
  re-apply step (`financial_service.py:80-81`), so the amount is subtracted. The commit at
  `financial_service.py:139` then fails on the NOT NULL `direction` column
  (`models/financial_transaction.py:30`).
- Thin ORM wrappers with no logic to state: account CRUD other than create and balance
  (`get_account`, `get_accounts`, `update_account`, `delete_account`), `get_transaction`,
  `list_transactions`, `get_order`, `get_orders`, `get_jobs` and `get_job_detail` with their
  pagination and filters, and the partner, product and user services.
- HTTP routing and error mapping, authentication, the dashboard stub and the front end.
- Concurrency between requests. Each operation is modelled as one sequential step.
