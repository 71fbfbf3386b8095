# POS-system checkout core in Dafny

A model of the checkout core of the point-of-sale web application
shamenrathnasiri/POS-system, with proofs about it. The model covers:

- **The register's cart** (`src/contexts/CartContext.tsx`). The cart is a
  `CartState` value. `Reduce` is the reducer over the closed `CartAction`
  union, and `CalculateCartTotals` is the totals shown on screen. Lemmas prove
  the effect of each action and two invariants that every well-formed action
  keeps: no two lines for one product, and every quantity between 1 and
  `max_stock`. They also prove the pricing facts: floored line totals, a
  discount only when positive, a floored taxable amount, and the change.
- **The sale transaction** (`src/app/api/sales/route.ts`, POST).
  - `Sales.Store` holds the product, customer and sale tables.
  - `PostSale` runs the handler on local copies and writes them back only on
    commit. So every error path (401, 400, 404, insufficient stock,
    insufficient payment, and a database validator or constraint thrown
    inside the transaction) leaves the store exactly as it was.
  - The stock loop is a method (`ReserveStock`) proved against the
    prefix-recursive function `ReserveLines`.
  - Lemmas on `ReserveLines` and `Checkout` prove:
    - stock conservation and no negative stock;
    - the snapshot of each line;
    - the `Σ price × quantity` subtotal and the totals formula;
    - the payment check;
    - the loyalty credit.
  - The GET handler's pagination is `ListSales`.
- **Where the cart and the server disagree** (`TotalsAgreement`):
  - The two totals agree on carts without line discounts whose cart discount
    is non-negative and within the subtotal.
  - Three concrete carts show each way they part company:
    - a line discount;
    - a discount above the subtotal;
    - a negative discount.
- **Helpers**:
  - Response shapes and error classification (`src/lib/api-helpers.ts`).
  - Invoice numbers, with a round trip back to the date and the serial.
  - Bearer-token extraction and role checks (`src/lib/auth.ts`).
- **The reports** (`src/app/api/reports/route.ts`):
  - the role gate and the report-type dispatch;
  - the daily figures over the day's completed sales;
  - the low-stock list as a filter plus a sort by ascending stock.
- **Registration** (`src/app/api/auth/register/route.ts`) is one function from
  the user table and the request to the reply and the new table.

**How the model represents the system:**

- **Money** is `real`: exact decimal arithmetic without floating-point error.
- **Database rows** are datatypes (`Models`). The column validators the core
  relies on are predicates (`StockValid`, `SaleItemValid`, `LoyaltyValid`),
  and the store keeps them as its invariant.
- **Passed in as parameters:**
  - the result of `authenticateRequest`;
  - the invoice number (in `PostSale`);
  - the date fields and the random draw (in `GenerateInvoiceNumber`);
  - the `isEmail` validator;
  - the token verifier.

**Behaviour of the code worth noting:**

- **Payment check.** The insufficient-payment check applies to every payment
  method: a card or mobile payment that sends a short `amount_paid` is refused
  too.
- **Inactive products.** A product with `is_active = false` can still be sold.
- **Sign of the discount.**
  - The server applies a cart discount whenever `discount_value` is truthy, so
    a negative value is applied too (`NegativeDiscountApplied`).
  - The cart applies it only when the value is positive.
- **Taxable amount.** The server does not floor the taxable amount at 0
  (`OverDiscountNotFloored`).
- **Line discounts.**
  - Line discounts never reduce the server's subtotal
    (`LineDiscountIgnoredByServer`).
  - Each stored item total is `price × quantity − discount`, with no floor.

## Model

| member | source | states |
|---|---|---|
| ApiHelpers.SuccessResponse | src/lib/api-helpers.ts:12-14 | a success reply has `success` true, the data, no errors, and the given message and status |
| ApiHelpers.ErrorResponse | src/lib/api-helpers.ts:16-21 | an error reply has `success` false, no data, and the given message, status and errors list (null when none is given) |
| ApiHelpers.ResponseDefaults | src/lib/api-helpers.ts:12-21 | a success reply defaults to status 200 and message "Success"; an error reply defaults to status 500 and null errors |
| ApiHelpers.NewApiError | src/lib/api-helpers.ts:3-10 | an `ApiError` keeps its message, and its status code defaults to 500 |
| ApiHelpers.HandleApiError | src/lib/api-helpers.ts:23-41 | every thrown value becomes an error reply. An `ApiError` keeps its own status and message. The two Sequelize validation kinds give 400, with the messages joined by ", " (default "Validation error"). Anything else gives 500, with the Error's message or "Internal server error" |
| ApiHelpers.StatusClassification | src/lib/api-helpers.ts:30-40 | outside `ApiError`, the status is 400 exactly for the two validation kinds and 500 exactly for everything else |
| ApiHelpers.ValidationSingleMessage | src/lib/api-helpers.ts:34-35 | a validation error without an `errors` list reports "Validation error"; one with a single message reports that message |
| ApiHelpers.JoinLength | src/lib/api-helpers.ts:35 | the joined message is as long as all parts together plus one separator between each two |
| ApiHelpers.JoinLast | src/lib/api-helpers.ts:35 | the joined message is the join of all parts but the last, then ", ", then the last part, so it holds every part in order with one separator between each two |
| ApiHelpers.PadStart | src/lib/api-helpers.ts:46 | `padStart` reaches the width, keeps the string as its suffix and fills only in front |
| ApiHelpers.PadZerosValue | src/lib/api-helpers.ts:46 | zero padding keeps a digit string's value |
| ApiHelpers.DecimalRoundTrip | src/lib/api-helpers.ts:46 | reading back a printed non-negative integer gives the integer |
| ApiHelpers.Fixed | src/lib/api-helpers.ts:45-46 | a number below 10^width prints, zero-padded, as exactly `width` digits denoting that number |
| ApiHelpers.RandomSuffix | src/lib/api-helpers.ts:46 | `floor(u × 10000)` for `u` in [0, 1) lies in [0, 9999] |
| ApiHelpers.RemoveDateDashes | src/lib/api-helpers.ts:45 | removing the dashes from `YYYY-MM-DD` leaves `YYYYMMDD` |
| ApiHelpers.InvoiceLayout | src/lib/api-helpers.ts:43-48 | the invoice number is "INV-", then the 4+2+2 date digits, then "-" and the 4-digit random suffix |
| ApiHelpers.ParseLayout | src/lib/api-helpers.ts:47 | a string laid out as `INV-` + 8 digits + `-` + 4 digits has 17 characters and parses back into its four fields |
| ApiHelpers.InvoiceRoundTrip | src/lib/api-helpers.ts:43-48 | every invoice number has 17 characters and parses back to the year, month, day and random serial it was made from |
| Auth.TokenFromHeader | src/lib/auth.ts:21-27 | a token is returned exactly when the header starts with the case-sensitive 7-character "Bearer ", and the header is that prefix followed by the token |
| Auth.TokenRoundTrip | src/lib/auth.ts:21-26 | extraction from `"Bearer " + t` gives `t`, and only such a header gives `t` |
| Auth.SchemeIsCaseSensitive | src/lib/auth.ts:22-27 | a lower-case scheme, a missing space or a missing header yields no token |
| Auth.Authenticate | src/lib/auth.ts:29-37 | a payload is returned exactly when there is a non-empty token that verifies, and it is the verifier's payload |
| Auth.AuthorizeRoles | src/lib/auth.ts:39-44 | access is granted iff there is a user and its role is in the list (so no user is refused) |
| Auth.Includes | src/lib/auth.ts:42 | the front-to-back scan finds the role iff it is in the list |
| Auth.AuthorizeRolesMonotone | src/lib/auth.ts:39-44 | listing more roles never revokes access |
| Cart.InitialState | src/contexts/CartContext.tsx:22-31 | the empty cart: no customer, no discount, cash, nothing paid, no notes, and the environment's tax rate |
| Cart.Find | src/contexts/CartContext.tsx:39-41 | a line is found iff one has the product id, and the line found is the first line with that id |
| Cart.WithQuantity | src/contexts/CartContext.tsx:51-55 | the map sets the quantity of the matching lines and keeps every other line |
| Cart.WithClampedQuantity | src/contexts/CartContext.tsx:79-83 | the map sets each matching line to `min(quantity, max_stock)` and keeps every other line |
| Cart.WithDiscount | src/contexts/CartContext.tsx:87-95 | the map sets the discount of the matching lines and keeps every other line |
| Cart.WithoutMembers | src/contexts/CartContext.tsx:65 | the filter keeps exactly the lines of other products |
| Cart.WithoutUnique | src/contexts/CartContext.tsx:62-66 | removing a product keeps product ids unique |
| Cart.WithoutDeletesLine | src/contexts/CartContext.tsx:62-66 | in a cart without duplicates, removing a product deletes exactly its line and keeps the others in order |
| Cart.WithoutNoMatch | src/contexts/CartContext.tsx:62-66 | removing a product not in the cart changes nothing |
| Cart.WithoutValid | src/contexts/CartContext.tsx:62-66 | removing a product keeps both cart invariants |
| Cart.MergeValid | src/contexts/CartContext.tsx:43-56 | raising a line to `min(quantity + added, max_stock)` keeps both cart invariants |
| Cart.AppendValid | src/contexts/CartContext.tsx:59 | appending a new product with 1..max_stock units keeps both cart invariants |
| Cart.AddItemValid | src/contexts/CartContext.tsx:38-60 | ADD_ITEM with a payload of 1..max_stock units keeps both cart invariants |
| Cart.ReducePreservesValid | src/contexts/CartContext.tsx:36-125 | every action the product grid can dispatch keeps the cart free of duplicate products, with every quantity in 1..max_stock |
| Cart.RunPreservesValid | src/contexts/CartContext.tsx:36-125 | any sequence of such actions keeps both invariants |
| Cart.ReachableCartsAreValid | src/contexts/CartContext.tsx:22-125 | every cart reachable from the initial state satisfies both invariants |
| Cart.AddExistingMerges | src/contexts/CartContext.tsx:38-56 | re-adding a product adds no line: its line becomes `min(old + added, max_stock)` and all other lines are unchanged |
| Cart.AddNewAppends | src/contexts/CartContext.tsx:59 | adding a new product appends the payload at the end |
| Cart.UpdateQuantityEffect | src/contexts/CartContext.tsx:68-85 | a quantity ≤ 0 deletes the line; otherwise the line is set to `min(quantity, max_stock)` and the others are unchanged |
| Cart.RemoveItemEffect | src/contexts/CartContext.tsx:62-66 | REMOVE_ITEM leaves no line of that product, deletes exactly its line and keeps the rest in order, and changes nothing for an absent product |
| Cart.SettersKeepLines | src/contexts/CartContext.tsx:87-120 | UPDATE_ITEM_DISCOUNT sets the discount of exactly the matching lines to the payload and changes nothing else. Each SET_* action sets its own field to the payload and leaves the rest of the state, lines included, alone. CLEAR_CART gives exactly the initial state |
| Cart.Subtotal | src/contexts/CartContext.tsx:131-134 | the sum of the floored line totals is never negative |
| Cart.SubtotalAppend | src/contexts/CartContext.tsx:131-134 | the subtotal of two runs of lines is the sum of their subtotals |
| Cart.SubtotalAfterAdd | src/contexts/CartContext.tsx:38-60 | adding a product the cart does not hold, to an empty cart too, raises the subtotal by exactly that line's total |
| Cart.SubtotalAfterRemove | src/contexts/CartContext.tsx:62-66 | removing a line of a cart with unique products lowers the subtotal by exactly that line's total |
| Cart.ItemCountAtLeastLines | src/contexts/CartContext.tsx:154 | in a valid cart the item count is at least the number of lines |
| Cart.CalculateCartTotals | src/contexts/CartContext.tsx:130-156 | the subtotal is the sum of the floored line totals and `itemCount` the sum of the quantities. The discount is the cart discount rule applied to that subtotal, and the tax is the floored taxable amount times the rate over 100. The grand total is the floored taxable amount plus its tax, non-negative for a non-negative rate. The change is `paid − grand` when enough is paid, and 0 otherwise; subtotal, discount and change are never negative |
| Cart.DiscountBounds | src/contexts/CartContext.tsx:136-145 | a percentage of at most 100 never discounts more than the subtotal; a discount at or above the subtotal gives a grand total of 0 |
| Cart.NonPositiveDiscountIgnored | src/contexts/CartContext.tsx:136-145 | with no discount type, or a discount value ≤ 0, no discount applies and the grand total is the subtotal plus tax |
| Cart.PercentageAtMostWhole | src/contexts/CartContext.tsx:137-138 | a percentage discount of at most 100 lies between 0 and the subtotal |
| Sales.AttachedCustomer | src/app/api/sales/route.ts:133 | a customer is attached iff the id is given and non-zero (`customer_id \|\| null`) |
| Sales.LineFailureResponse | src/app/api/sales/route.ts:74-87 | a missing product is a 404 error, a shortage a 400 error |
| Sales.ServerTotals | src/app/api/sales/route.ts:109-120 | the discount is `subtotal × value / 100` (percentage) or `value` (fixed) when the value is non-zero, else 0. The taxable amount is the subtotal minus the discount, not floored. The tax is taxable × rate / 100, and the grand total is taxable plus tax |
| Sales.Store.PostSale | src/app/api/sales/route.ts:39-186 | POST /api/sales: on any failure, the reply is the error and all three tables are unchanged (rollback). On success, the reply is 201 with the sale, the tables become exactly what `Checkout` commits, and the validators still hold |
| Sales.ReserveStock | src/app/api/sales/route.ts:69-107 | the stock loop (running subtotal, pushed snapshots, in-place decrement, first failing line returns) computes exactly `ReserveLines` |
| Sales.FindInvoice | src/lib/db/models/Sale.ts:61-65 | the unique index check reports a clash iff some stored sale has that invoice number |
| Sales.CreateItems | src/app/api/sales/route.ts:150-156 | the item inserts succeed iff every item has quantity ≥ 1, storing the items unchanged; otherwise the quantity validator's error is thrown |
| Sales.CreditCustomer | src/app/api/sales/route.ts:158-168 | the loyalty read-modify-write computes exactly `CreditLoyalty` |
| Sales.ReserveStopsAtFailure | src/app/api/sales/route.ts:74-87 | once a line fails, later lines do not change the outcome |
| Sales.ReserveStep | src/app/api/sales/route.ts:73-107 | a successful loop is a successful prefix followed by one successful iteration |
| Sales.LineReserved | src/app/api/sales/route.ts:73-106 | a successful iteration found the product with enough stock, snapshotted it, added `price × quantity` and decremented the stock |
| Sales.ReserveConservesStock | src/app/api/sales/route.ts:73-107 | on success, every product's stock falls by exactly the total quantity requested of it, and no other column or product changes |
| Sales.ReserveKeepsStockValid | src/app/api/sales/route.ts:81-106 | the check precedes each decrement, so no stock goes negative |
| Sales.ReserveSnapshots | src/app/api/sales/route.ts:89-100 | on success, there is one item per line, in order, each the snapshot of its product's name, SKU and price, with total `price × quantity − discount` |
| Sales.ReserveSubtotal | src/app/api/sales/route.ts:89-91 | the subtotal is `Σ price × quantity` over the items, not reduced by line discounts |
| Sales.ReserveOkWithinStock | src/app/api/sales/route.ts:73-107 | a successful loop means every product exists and the total requested of each is within its stock |
| Sales.ReserveWithinStockOk | src/app/api/sales/route.ts:73-107 | conversely, with non-negative quantities, such lines pass the loop |
| Sales.ReserveSucceedsIff | src/app/api/sales/route.ts:73-107 | the loop succeeds iff all products exist and the total requested of each is within its stock, repeated lines included |
| Sales.CheckoutPreservesValid | src/app/api/sales/route.ts:129-170 | a commit keeps stock ≥ 0, loyalty ≥ 0 and item quantity ≥ 1 across the tables |
| Sales.CheckoutCommitsSale | src/app/api/sales/route.ts:129-156 | a successful sale needs a user and a line, and has one item per line. It is completed, with subtotal `Σ price × quantity`, the server discount, tax `(subtotal − discount) × rate / 100` and grand total taxable plus tax. It is paid in full: the amount sent when non-zero, the grand total when it is missing or zero. Its change is `paid − grand` |
| Sales.ReservedItems | src/app/api/sales/route.ts:89-100 | a successful loop yields one item per line, and its subtotal is the items' gross amount |
| Sales.NewSaleFacts | src/app/api/sales/route.ts:129-148 | once the payment check has passed, the inserted row records the items, the completed status, the discount, tax and grand total of the formula, a stored payment of `amount_paid \|\| grandTotal` (the grand total when the amount is missing or zero), and change `paid − grand` |
| Sales.CheckoutShape | src/app/api/sales/route.ts:46-170 | a successful checkout passed authentication, the items check, the stock loop, the payment check and the loyalty validator, and commits the new sale, the decremented inventory and the credited customers |
| Sales.CheckoutConservesStock | src/app/api/sales/route.ts:73-107 | after a commit, each product's stock is its old stock minus the total requested of it, and is ≥ 0 |
| Sales.CheckoutCreditsLoyalty | src/app/api/sales/route.ts:158-168 | an attached live customer gains exactly `floor(grandTotal / 100)` points; every other customer is unchanged |
| Sales.CheckoutRejectsEarly | src/app/api/sales/route.ts:46-67 | no user gives 401; a missing or empty item list gives 400, before any product is read |
| Sales.CheckoutLineAndPaymentErrors | src/app/api/sales/route.ts:74-126 | a missing product gives 404 and a shortage 400. A supplied payment below the grand total gives the 400 "Insufficient payment amount", for every payment method |
| Sales.WorkedExample | src/app/api/sales/route.ts:69-168 | two units at 2500, a 10% discount and 8% tax give totals 5000 / 500 / 360 / 4860, change 140, stock 50 → 48 and 48 loyalty points |
| Sales.ShortageExample | src/app/api/sales/route.ts:81-87 | 60 units requested from a stock of 50 fail, reporting 50 available and 60 requested |
| Sales.NewestFirst | src/app/api/sales/route.ts:24 | `created_at DESC` lists the sales in reverse order of insertion |
| Sales.JoinedRows | src/app/api/sales/route.ts:18-27 | `findAndCountAll` with the `items` include and no `distinct` counts one row per sale item (one for a sale without items), so never fewer than the sales |
| Sales.ListSales | src/app/api/sales/route.ts:8-36 | the listing succeeds iff there is a user and neither the limit nor the offset `(page − 1) × limit` is negative. Its `total` is then the joined-row count, and no user gives 401. A negative window makes the query throw, which gives 500 |
| Sales.ListedOnItsPage | src/app/api/sales/route.ts:24-31 | the sale of rank k is row `k mod limit` of page `k div limit + 1`, and that page is within `totalPages` |
| Sales.TwoItemSaleCountsTwice | src/app/api/sales/route.ts:18-31 | one sale with two items, one per page, reports a total of 2 and 2 pages, and its second page is empty |
| Sales.TotalPagesCovers | src/app/api/sales/route.ts:31 | with a positive limit, `ceil(count / limit)` pages hold every row, and the last page is non-empty |
| TotalsAgreement.LinesOf | src/components/pos/PaymentModal.tsx:36-40 | the request body has one line per cart line, with its product, quantity and discount |
| TotalsAgreement.SubtotalIsGross | src/contexts/CartContext.tsx:131-134 | without line discounts and with non-negative prices, the cart's floored sum is the server's `Σ price × quantity` |
| TotalsAgreement.SubtotalLast | src/contexts/CartContext.tsx:131-134 | the cart subtotal peels off its last line |
| TotalsAgreement.PlainLineTotal | src/contexts/CartContext.tsx:132-133 | a line without discount and with a non-negative price totals `price × quantity` |
| TotalsAgreement.ServerSubtotalIsCartSubtotal | src/app/api/sales/route.ts:89-90 | for a valid cart with current prices and no line discounts, the server's subtotal equals the cart's |
| TotalsAgreement.ServerTotalsAreCartTotals | src/app/api/sales/route.ts:109-120 | on the same subtotal, a non-negative discount gives the same discount, and, when it is within the subtotal, the same tax and grand total |
| TotalsAgreement.ServerAgreesWithCart | src/app/api/sales/route.ts:89-120 | for such a cart, the stored subtotal and discount are those shown, and so are the tax and grand total when the discount is within the subtotal |
| TotalsAgreement.LineDiscountIgnoredByServer | src/app/api/sales/route.ts:89-90 | a line discount of 10 on 100 shows 90 in the cart but stores a subtotal of 100 |
| TotalsAgreement.OverDiscountNotFloored | src/app/api/sales/route.ts:118 | a fixed discount of 150 on 100 shows a grand total of 0 but stores −50 |
| TotalsAgreement.NegativeDiscountApplied | src/app/api/sales/route.ts:111-114 | a fixed discount of −20 is ignored by the cart (grand 100) but applied by the server (grand 120) |
| Reports.ReportType | src/app/api/reports/route.ts:20 | an absent or empty `type` means "daily"; otherwise the given name |
| Reports.ReportGate | src/app/api/reports/route.ts:12-23 | a report is chosen iff there is an admin or manager and the type is one of the four names, and it is the named one |
| Reports.ReportGateOrder | src/app/api/reports/route.ts:12-17 | no user gives 401. A role other than admin or manager gives 403 before the type is looked at. An unknown type gives 400 |
| Reports.ManagerDefaultsToDaily | src/app/api/reports/route.ts:15-24 | a manager who names no report gets the daily one |
| Reports.DaySales | src/app/api/reports/route.ts:31-38 | the day's query returns only completed sales, no more than there are |
| Reports.DaySalesExact | src/app/api/reports/route.ts:25-38 | the day's sales are exactly the completed sales between 00:00:00.000 and 23:59:59.999 inclusive |
| Reports.DailyReport | src/app/api/reports/route.ts:40-55 | `totalSales` is the number of the day's sales, the average is revenue over count (0 for none), and an empty day has no revenue and no items |
| Reports.Average | src/app/api/reports/route.ts:55 | with a positive count, average × count is the total; otherwise the average is 0 |
| Reports.DailyReportAfterSale | src/app/api/reports/route.ts:40-48 | recording a sale moves revenue, count and items by exactly that sale when it is completed and on the day, and leaves them alone otherwise |
| Reports.ItemlessSaleAddsNoItems | src/app/api/reports/route.ts:44-45 | a sale with no items contributes 0 to `totalItems` |
| Reports.InsertByStock | src/app/api/reports/route.ts:141 | an insertion adds exactly the one row |
| Reports.InsertWithin | src/app/api/reports/route.ts:141 | inserting below a bound keeps every row below it |
| Reports.InsertKeepsSorted | src/app/api/reports/route.ts:141 | insertion into rows sorted by stock keeps them sorted |
| Reports.SortByStock | src/app/api/reports/route.ts:141 | the sort is a permutation of its input |
| Reports.SortByStockSorted | src/app/api/reports/route.ts:141 | the sort orders by ascending stock |
| Reports.LowStockReport | src/app/api/reports/route.ts:132-146 | the low-stock list is sorted ascending by stock, is a permutation of the filtered rows, and `lowStockCount` is its length |
| Reports.LowStockRowsExact | src/app/api/reports/route.ts:133-140 | the filter keeps every active row at or below its threshold, as often as it occurs, and no other row |
| Reports.LowStockReportExact | src/app/api/reports/route.ts:132-146 | a product is listed iff it is in the table, active and at or below its threshold |
| Register.LiveCount | src/lib/db/models/User.ts:86 | `User.count()` on the paranoid table is at most the number of rows, and 0 iff every row is soft-deleted |
| Register.NextId | src/lib/db/models/User.ts:45-48 | the auto-increment id is above every existing id |
| Register.CreateValidationMessages | src/lib/db/models/User.ts:50-72 | the create validators pass iff the name is not blank (`notEmpty`: not only JavaScript white space) and has 2-100 characters, the email is valid and the password has 6-255 characters. A blank name reports "Name is required" first |
| Register.AssignedRole | src/app/api/auth/register/route.ts:42 | the first user is admin; later users get the requested role, or "cashier" when none or an empty one is given |
| Register.Register | src/app/api/auth/register/route.ts:8-59 | a refused registration leaves the table unchanged; a successful one appends exactly one row and keeps the others |
| Register.NonAdminRefused | src/app/api/auth/register/route.ts:13-20 | once a live user exists, a caller who is not an admin gets 403 whatever the body holds |
| Register.BodyChecks | src/app/api/auth/register/route.ts:25-36 | a missing field gives 400, a short password gives 400, and an email a live user has gives 409, in that order |
| Register.InsertOutcomes | src/app/api/auth/register/route.ts:38-43 | once the body checks pass: failing validators give 400, with their messages joined by ", " and as the errors list. An email held only by a soft-deleted user gives 400 "Email already exists". Both leave the table unchanged, and otherwise the registration succeeds |
| Register.BlankNameRefused | src/lib/db/models/User.ts:54 | a first user named with two spaces is refused with 400 "Name is required" and nothing is inserted |
| Register.OneSpaceNameRefused | src/lib/db/models/User.ts:54-55 | a one-space name fails both name validators: 400 with "Name is required" then "Name must be 2-100 characters" |
| Register.RegisteredUser | src/app/api/auth/register/route.ts:38-55 | a success is 201. The new row is live, has the submitted name and email and a fresh id. The token carries that row's id, email and role |
| Register.SuccessPath | src/app/api/auth/register/route.ts:25-55 | the one successful path passed every check: the validators, a non-blank name of 2-100 characters, a valid email, and no row of any kind with that email. It inserts the row the reply describes |
| Register.RequestedRole | src/app/api/auth/register/route.ts:42 | after the first user, the new user has the requested role or "cashier" |
| Register.BootstrapAdmin | src/app/api/auth/register/route.ts:16-20 | while no live user exists anyone may register, and the user created is an admin whatever role was asked for |
| Register.RegisterKeepsEmailsUnique | src/lib/db/models/User.ts:61 | registration keeps emails unique over the whole table, soft-deleted rows included |

## Left out

- Money is exact `real` arithmetic. `toFixed(2)` display rounding and `DECIMAL(12,2)` column rounding are not modelled.
- Sales.Store.PostSale: a `null` `amount_paid`, which JavaScript compares as 0, is not modelled. A supplied payment is a number, and an absent one is `None`.
- Sales.Store.PostSale: the reply carries the inserted row, not the re-fetched `fullSale` with its user and customer included.
- Sales.NewestFirst: sales are ordered by insertion, newest first. `created_at` has whole seconds, and `ORDER BY created_at DESC` leaves sales of the same second in any order, possibly a different one on each page. The model fixes that order.
- Sales.ListSales: a `page` or `limit` that `parseInt` turns into NaN is not modelled. The database error for a negative window carries a fixed message, without its position details.
- Sales.Store.PostSale: the `user_id` foreign key is not modelled. A token whose `userId` has no `users` row would make `Sale.create` throw and give 500; the model commits.
- Sales.Store.PostSale: a `discount_type` or `payment_method` string outside its ENUM, which the database rejects on insert, is not modelled. The request datatype admits only the ENUM values.
- Sales.Store.PostSale: non-numeric JSON values (strings, NaN, fractional quantities) are not modelled. Quantities are integers and amounts are reals.
- Sales.Store.PostSale: the database's own check order for the invoice-unique index and the customer foreign key, both within one `INSERT`, is taken as invoice first.
- Sales.Store.PostSale: a failing `request.json()` is not modelled. The body is decoded already.
- The driver's foreign key message is a fixed string, without its table details.
- The transaction is one sequential method. Isolation, row locking and concurrent requests are not modelled.
- `initializeDatabase`, the transaction's creation and the logging in `handleApiError` are I/O and are left out.
- JWT signing and verification and bcrypt hashing are foreign libraries.
  - Verification is an oracle parameter of `Auth.Authenticate`.
  - The token in a registration reply is represented by its payload.
- The monthly and top-products reports are SQL aggregation (`GROUP BY` with `fn`/`literal`) with no in-memory logic. Only their names are modelled, so the dispatch accepts them.
- Reports.DailyReport: the day is a fixed 24-hour window of milliseconds. Local-time `setHours` across a daylight-saving change and the parsing of the `date` parameter are not modelled.
- Reports.DailyReport: the `date` string and the list of sales in the reply are not modelled. Neither is its `created_at DESC` order, because the figures do not depend on order.
- Register.Register: emails are compared exactly. The database collation's case-insensitive comparison is not modelled.
- Register.Register: a requested role outside the `admin`/`cashier`/`manager` ENUM is not modelled. It is stored as given, whereas the database would reject it.
- Register.Register: a `password` that is present but not a string is not modelled.
- Register.Register: a body that is not valid JSON, which makes `request.json()` throw and gives 500, and a `name` or `email` that is not a string are not modelled; the request datatype holds optional strings.
- Register.Register: string lengths count characters (Unicode scalar values). The route's `password.length < 6` (register/route.ts:29) counts UTF-16 code units, which are never fewer, and the `len` validators count code points less U+FE0E/U+FE0F. So a password such as three characters outside the Basic Multilingual Plane (6 code units) passes the source's route check and reaches the email lookup (409) or the validators (400 with an errors list), whereas the model answers 400 "Password must be at least 6 characters" at the route check. The selectors are not discounted either.
- The React components, the API client, the authentication context and the thin CRUD routes are UI and I/O.
  - The product grid is present only as the ADD_ITEM precondition `Cart.WellFormed`, from src/components/pos/ProductGrid.tsx:57-72.
