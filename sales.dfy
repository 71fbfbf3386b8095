/** The sale transaction behind `POST /api/sales` and the pagination of
    `GET /api/sales` (src/app/api/sales/route.ts).

    The database is three tables held by a `Store`: live products by id,
    customers by id (soft-deleted rows included) and the sales with their
    items. The transaction of the source becomes a method that works on
    local copies and assigns them to the fields only on commit, so that every
    error path leaves the store as it found it. Authentication enters as its
    result, the invoice number as a parameter. */
module Sales {
  import opened Wrappers
  import opened Types
  import opened Models
  import opened ApiHelpers
  import opened Auth

  // ---------------------------------------------------------------------
  // The request
  // ---------------------------------------------------------------------

  /** One requested line; `discount` is `item.discount || 0`. */
  datatype LineRequest = LineRequest(productId: int, quantity: int, discount: real)

  /** The decoded body. `items == None` stands for a missing or non-array
      `items`; an absent `discount_value` or `tax_rate` is 0 and an absent
      `payment_method` is cash, as the destructuring defaults say. */
  datatype SaleRequest = SaleRequest(
    items: Option<seq<LineRequest>>,
    customerId: Option<int>,
    discountType: Option<DiscountType>,
    discountValue: real,
    taxRate: real,
    paymentMethod: PaymentMethod,
    amountPaid: Option<real>,
    notes: Option<string>)

  /** `customer_id || null`: an id of 0 is falsy and counts as no customer. */
  function AttachedCustomer(customerId: Option<int>): (c: Option<int>)
    ensures c.Some? <==> customerId.Some? && customerId.value != 0
    ensures c.Some? ==> c == customerId
  {
    if customerId.Some? && customerId.value != 0 then customerId else None
  }

  // ---------------------------------------------------------------------
  // The stock loop
  // ---------------------------------------------------------------------

  /** The state the loop carries: the products as updated so far inside the
      transaction, the running subtotal and the item snapshots. */
  datatype Reservation = Reservation(inventory: map<int, ProductRow>, subtotal: real, items: seq<SaleItemRow>)

  datatype LineFailure =
    | ProductNotFound(productId: int)
    | InsufficientStock(productName: string, available: int, requested: int)

  /** One iteration of the loop: look the product up, check its current
      stock, snapshot the line and decrement the stock. */
  function ReserveLine(r: Reservation, line: LineRequest): Result<Reservation, LineFailure>
  {
    if line.productId !in r.inventory then Err(ProductNotFound(line.productId))
    else
      var product := r.inventory[line.productId];
      if product.stock < line.quantity then
        Err(InsufficientStock(product.name, product.stock, line.quantity))
      else
        var itemTotal := product.price * (line.quantity as real);
        var item := SaleItemRow(line.productId, product.name, product.sku, line.quantity,
                                product.price, line.discount, itemTotal - line.discount);
        Ok(Reservation(
          r.inventory[line.productId := product.(stock := product.stock - line.quantity)],
          r.subtotal + itemTotal,
          r.items + [item]))
  }

  /** The whole loop over the lines in the order submitted; the first failing
      line decides the error. */
  function ReserveLines(products: map<int, ProductRow>, lines: seq<LineRequest>): Result<Reservation, LineFailure>
    decreases |lines|
  {
    if lines == [] then Ok(Reservation(products, 0.0, []))
    else match ReserveLines(products, lines[..|lines| - 1])
      case Err(f) => Err(f)
      case Ok(r) => ReserveLine(r, lines[|lines| - 1])
  }

  /** The total quantity the lines request of one product. */
  function Requested(lines: seq<LineRequest>, productId: int): int
    decreases |lines|
  {
    if lines == [] then 0
    else Requested(lines[..|lines| - 1], productId) +
         (if lines[|lines| - 1].productId == productId then lines[|lines| - 1].quantity else 0)
  }

  /** `Σ price × quantity` over the snapshots: the server subtotal, which
      line discounts do not reduce. */
  function GrossAmount(items: seq<SaleItemRow>): real
    decreases |items|
  {
    if items == [] then 0.0
    else GrossAmount(items[..|items| - 1]) + items[|items| - 1].unitPrice * (items[|items| - 1].quantity as real)
  }

  /** The reply for a failing line. */
  function LineFailureResponse(f: LineFailure): (r: Response<SaleRow>)
    ensures !r.success
    ensures r.status == (if f.ProductNotFound? then 404 else 400)
  {
    match f
    case ProductNotFound(id) =>
      ErrorResponse("Product with ID " + IntToString(id) + " not found", 404)
    case InsufficientStock(name, available, requested) =>
      ErrorResponse("Insufficient stock for \"" + name + "\". Available: " + IntToString(available)
                    + ", Requested: " + IntToString(requested), 400)
  }

  // ---------------------------------------------------------------------
  // Totals, payment and loyalty
  // ---------------------------------------------------------------------

  /** The server's cart discount: applied when `discount_value` is truthy,
      that is, non-zero (a negative value is applied too). */
  function ServerDiscount(subtotal: real, discountType: Option<DiscountType>, value: real): real
  {
    if discountType == Some(Percentage) && value != 0.0 then subtotal * value / 100.0
    else if discountType == Some(Fixed) && value != 0.0 then value
    else 0.0
  }

  datatype SaleTotals = SaleTotals(discountAmount: real, taxableAmount: real, taxAmount: real, grandTotal: real)

  /** Discount, tax and grand total; the taxable amount is not floored. */
  function ServerTotals(subtotal: real, discountType: Option<DiscountType>, discountValue: real, taxRate: real): (t: SaleTotals)
    ensures t.discountAmount == ServerDiscount(subtotal, discountType, discountValue)
    ensures t.taxableAmount == subtotal - t.discountAmount
    ensures t.taxAmount == t.taxableAmount * taxRate / 100.0
    ensures t.grandTotal == t.taxableAmount + t.taxAmount
    ensures t.grandTotal == (subtotal - t.discountAmount) * (1.0 + taxRate / 100.0)
  {
    var discountAmount := ServerDiscount(subtotal, discountType, discountValue);
    var taxableAmount := subtotal - discountAmount;
    var taxAmount := taxableAmount * taxRate / 100.0;
    SaleTotals(discountAmount, taxableAmount, taxAmount, taxableAmount + taxAmount)
  }

  /** `amount_paid !== undefined && amount_paid < grandTotal`, for every
      payment method. */
  predicate PaymentShort(amountPaid: Option<real>, grandTotal: real) {
    amountPaid.Some? && amountPaid.value < grandTotal
  }

  /** `amount_paid || grandTotal`: a missing or zero payment is recorded as
      exactly the grand total. */
  function StoredAmountPaid(amountPaid: Option<real>, grandTotal: real): real
  {
    if amountPaid.Some? && amountPaid.value != 0.0 then amountPaid.value else grandTotal
  }

  /** `Math.floor(grandTotal / 100)`: one point per 100 of the grand total. */
  function PointsEarned(grandTotal: real): int
  {
    (grandTotal / 100.0).Floor
  }

  /** The sale row that `Sale.create` inserts, with its items. */
  function NewSale(invoice: string, userId: int, body: SaleRequest, r: Reservation, t: SaleTotals): SaleRow
  {
    var paid := StoredAmountPaid(body.amountPaid, t.grandTotal);
    SaleRow(invoice, userId, AttachedCustomer(body.customerId), r.subtotal, t.discountAmount,
            body.discountType, body.discountValue, body.taxRate, t.taxAmount, t.grandTotal,
            paid, Max(0.0, paid - t.grandTotal), body.paymentMethod, body.notes, Completed, r.items)
  }

  /** What a failing column validator throws: a `SequelizeValidationError`
      whose `errors` carry the validator's message. */
  function ValidatorThrown(message: string): Thrown
  {
    ErrorThrown(ValidationErrorName, "Validation error: " + message, Some([message]))
  }

  const InvoiceTakenMessage := "Invoice number already exists"
  /** The driver's text for a foreign key violation (its table details are
      not modelled). */
  const ForeignKeyMessage := "Cannot add or update a child row: a foreign key constraint fails"

  /** The unique index on `invoice_number` rejects a repeated number. */
  predicate InvoiceTaken(sales: seq<SaleRow>, invoice: string) {
    exists i :: 0 <= i < |sales| && sales[i].invoiceNumber == invoice
  }

  predicate AllItemsValid(items: seq<SaleItemRow>) {
    forall i :: 0 <= i < |items| ==> SaleItemValid(items[i])
  }

  /** The loyalty update: only for a truthy `customer_id` whose customer is
      found (soft-deleted customers are not); the new balance must pass the
      `loyalty_points >= 0` validator. */
  function CreditLoyalty(customers: map<int, CustomerRow>, customerId: Option<int>, grandTotal: real): Result<map<int, CustomerRow>, Thrown>
  {
    match AttachedCustomer(customerId)
    case None => Ok(customers)
    case Some(id) =>
      if id !in customers || customers[id].deleted then Ok(customers)
      else
        var updated := customers[id].(loyaltyPoints := customers[id].loyaltyPoints + PointsEarned(grandTotal));
        if !LoyaltyValid(updated) then Err(ValidatorThrown(LoyaltyMessage))
        else Ok(customers[id := updated])
  }

  /** What a committed transaction writes. */
  datatype Committed = Committed(sale: SaleRow, products: map<int, ProductRow>, customers: map<int, CustomerRow>)

  /** The whole POST handler as one function of the store before the call:
      either what the commit writes, or the error reply of a rollback. */
  function Checkout(
    products: map<int, ProductRow>, customers: map<int, CustomerRow>, sales: seq<SaleRow>,
    user: Option<JwtPayload>, body: SaleRequest, invoice: string): Result<Committed, Response<SaleRow>>
  {
    if user.None? then Err(ErrorResponse("Authentication required", 401))
    else if body.items.None? || |body.items.value| == 0 then
      Err(ErrorResponse("At least one item is required", 400))
    else match ReserveLines(products, body.items.value)
      case Err(f) => Err(LineFailureResponse(f))
      case Ok(r) =>
        var totals := ServerTotals(r.subtotal, body.discountType, body.discountValue, body.taxRate);
        if PaymentShort(body.amountPaid, totals.grandTotal) then
          Err(ErrorResponse("Insufficient payment amount", 400))
        else
          var sale := NewSale(invoice, user.value.userId, body, r, totals);
          if InvoiceTaken(sales, invoice) then
            Err(HandleApiError(ErrorThrown(UniqueConstraintErrorName, "Validation error", Some([InvoiceTakenMessage]))))
          else if sale.customerId.Some? && sale.customerId.value !in customers then
            Err(HandleApiError(ErrorThrown("SequelizeForeignKeyConstraintError", ForeignKeyMessage, None)))
          else if !AllItemsValid(r.items) then
            Err(HandleApiError(ValidatorThrown(QuantityMessage)))
          else match CreditLoyalty(customers, body.customerId, totals.grandTotal)
            case Err(e) => Err(HandleApiError(e))
            case Ok(credited) => Ok(Committed(sale, r.inventory, credited))
  }

  // ---------------------------------------------------------------------
  // The store and the transaction
  // ---------------------------------------------------------------------

  /** The validators of the three tables, as invariants of the store. */
  predicate InventoryValid(products: map<int, ProductRow>) {
    forall id :: id in products ==> StockValid(products[id])
  }

  predicate CustomersValid(customers: map<int, CustomerRow>) {
    forall id :: id in customers ==> LoyaltyValid(customers[id])
  }

  predicate SalesValid(sales: seq<SaleRow>) {
    forall i :: 0 <= i < |sales| ==> AllItemsValid(sales[i].items)
  }

  class Store {
    var products: map<int, ProductRow>
    var customers: map<int, CustomerRow>
    var sales: seq<SaleRow>

    ghost predicate Valid()
      reads this
    {
      InventoryValid(products) && CustomersValid(customers) && SalesValid(sales)
    }

    constructor (products: map<int, ProductRow>, customers: map<int, CustomerRow>)
      requires InventoryValid(products) && CustomersValid(customers)
      ensures Valid()
      ensures this.products == products && this.customers == customers && this.sales == []
    {
      this.products := products;
      this.customers := customers;
      this.sales := [];
    }

    /** `POST /api/sales`. `user` is what `authenticateRequest` returned and
        `invoice` what `generateInvoiceNumber` returned. */
    method PostSale(user: Option<JwtPayload>, body: SaleRequest, invoice: string) returns (resp: Response<SaleRow>)
      requires Valid()
      modifies this
      ensures Valid()
      ensures match Checkout(old(products), old(customers), old(sales), user, body, invoice)
        case Err(failure) =>
          resp == failure && !resp.success &&
          products == old(products) && customers == old(customers) && sales == old(sales)
        case Ok(c) =>
          resp == SuccessResponse(c.sale, "Sale completed successfully", 201) &&
          products == c.products && customers == c.customers && sales == old(sales) + [c.sale]
    {
      if user.None? {
        resp := ErrorResponse("Authentication required", 401);
        return;
      }
      if body.items.None? || |body.items.value| == 0 {
        resp := ErrorResponse("At least one item is required", 400);
        return;
      }

      // Validate each line, snapshot it and decrement the stock.
      var reserved := ReserveStock(products, body.items.value);
      if reserved.Err? {
        resp := LineFailureResponse(reserved.error);
        return;
      }
      var r := reserved.value;

      // Discount, tax, grand total and the payment check.
      var totals := ServerTotals(r.subtotal, body.discountType, body.discountValue, body.taxRate);
      if body.amountPaid.Some? && body.amountPaid.value < totals.grandTotal {
        resp := ErrorResponse("Insufficient payment amount", 400);
        return;
      }

      // Insert the sale: the unique invoice index and the customer foreign key.
      var sale := NewSale(invoice, user.value.userId, body, r, totals);
      var taken := FindInvoice(sales, invoice);
      if taken {
        resp := HandleApiError(ErrorThrown(UniqueConstraintErrorName, "Validation error", Some([InvoiceTakenMessage])));
        return;
      }
      if sale.customerId.Some? && sale.customerId.value !in customers {
        resp := HandleApiError(ErrorThrown("SequelizeForeignKeyConstraintError", ForeignKeyMessage, None));
        return;
      }

      // Insert one item per line.
      var created := CreateItems(r.items);
      if created.Err? {
        resp := HandleApiError(created.error);
        return;
      }

      // Credit the loyalty points of an attached, live customer.
      var credited := CreditCustomer(customers, body.customerId, totals.grandTotal);
      if credited.Err? {
        resp := HandleApiError(credited.error);
        return;
      }

      // Commit.
      CheckoutPreservesValid(products, customers, sales, user, body, invoice);
      products := r.inventory;
      customers := credited.value;
      sales := sales + [sale.(items := created.value)];
      resp := SuccessResponse(sale, "Sale completed successfully", 201);
    }
  }

  /** The loop over the lines: each product is read from the inventory as
      already updated by earlier lines, checked, snapshotted and
      decremented; the first failing line stops the loop. */
  method ReserveStock(products: map<int, ProductRow>, lines: seq<LineRequest>) returns (res: Result<Reservation, LineFailure>)
    ensures res == ReserveLines(products, lines)
  {
    var working := products;
    var subtotal := 0.0;
    var saleItemsData: seq<SaleItemRow> := [];
    var i := 0;
    while i < |lines|
      invariant 0 <= i <= |lines|
      invariant ReserveLines(products, lines[..i]) == Ok(Reservation(working, subtotal, saleItemsData))
    {
      assert lines[..i + 1][..i] == lines[..i];
      ghost var before := Reservation(working, subtotal, saleItemsData);
      var line := lines[i];
      assert ReserveLines(products, lines[..i + 1]) == ReserveLine(before, line);
      if line.productId !in working {
        ReserveStopsAtFailure(products, lines, i + 1);
        return Err(ProductNotFound(line.productId));
      }
      var product := working[line.productId];
      if product.stock < line.quantity {
        ReserveStopsAtFailure(products, lines, i + 1);
        return Err(InsufficientStock(product.name, product.stock, line.quantity));
      }
      var itemTotal := product.price * (line.quantity as real);
      subtotal := subtotal + itemTotal;
      saleItemsData := saleItemsData + [SaleItemRow(line.productId, product.name, product.sku, line.quantity,
                                                    product.price, line.discount, itemTotal - line.discount)];
      working := working[line.productId := product.(stock := product.stock - line.quantity)];
      assert ReserveLine(before, line).Ok?;
      assert ReserveLine(before, line).value.inventory == working;
      assert ReserveLine(before, line).value.subtotal == subtotal;
      assert ReserveLine(before, line).value.items == saleItemsData;
      i := i + 1;
    }
    assert lines[..|lines|] == lines;
    return Ok(Reservation(working, subtotal, saleItemsData));
  }

  /** The check the unique index on `invoice_number` makes when `Sale.create`
      inserts the row; the database's index lookup is modelled as a scan of
      the stored sales. */
  method FindInvoice(sales: seq<SaleRow>, invoice: string) returns (taken: bool)
    ensures taken <==> InvoiceTaken(sales, invoice)
  {
    var k := 0;
    while k < |sales|
      invariant 0 <= k <= |sales|
      invariant forall j :: 0 <= j < k ==> sales[j].invoiceNumber != invoice
    {
      if sales[k].invoiceNumber == invoice {
        return true;
      }
      k := k + 1;
    }
    return false;
  }

  /** `SaleItem.create` for each snapshot in turn: the first item whose
      quantity fails the `min: 1` validator makes the insert throw. */
  method CreateItems(items: seq<SaleItemRow>) returns (created: Result<seq<SaleItemRow>, Thrown>)
    ensures created.Ok? <==> AllItemsValid(items)
    ensures created.Ok? ==> created.value == items
    ensures created.Err? ==> created.error == ValidatorThrown(QuantityMessage)
  {
    var done: seq<SaleItemRow> := [];
    var n := 0;
    while n < |items|
      invariant 0 <= n <= |items|
      invariant done == items[..n]
      invariant forall j :: 0 <= j < n ==> SaleItemValid(items[j])
    {
      if !SaleItemValid(items[n]) {
        return Err(ValidatorThrown(QuantityMessage));
      }
      done := done + [items[n]];
      n := n + 1;
    }
    assert done == items[..|items|] == items;
    return Ok(done);
  }

  /** `Customer.findByPk` followed by `customer.update`: the balance is read,
      raised by the points earned and written back through the validator. */
  method CreditCustomer(customers: map<int, CustomerRow>, customerId: Option<int>, grandTotal: real)
    returns (res: Result<map<int, CustomerRow>, Thrown>)
    ensures res == CreditLoyalty(customers, customerId, grandTotal)
  {
    res := Ok(customers);
    if customerId.Some? && customerId.value != 0 {
      var id := customerId.value;
      if id in customers && !customers[id].deleted {
        var customer := customers[id];
        var points := customer.loyaltyPoints + PointsEarned(grandTotal);
        if points < 0 {
          return Err(ValidatorThrown(LoyaltyMessage));
        }
        res := Ok(customers[id := customer.(loyaltyPoints := points)]);
      }
    }
  }

  // ---------------------------------------------------------------------
  // What the transaction guarantees
  // ---------------------------------------------------------------------

  /** Once a line fails, later lines are not looked at. */
  lemma {:induction false} ReserveStopsAtFailure(products: map<int, ProductRow>, lines: seq<LineRequest>, i: int)
    requires 0 <= i <= |lines|
    requires ReserveLines(products, lines[..i]).Err?
    ensures ReserveLines(products, lines) == ReserveLines(products, lines[..i])
    decreases |lines| - i
  {
    if i < |lines| {
      assert lines[..i + 1][..i] == lines[..i];
      ReserveStopsAtFailure(products, lines, i + 1);
    } else {
      assert lines[..i] == lines;
    }
  }

  /** One more line on a successful loop: the earlier lines succeeded and
      the last line was applied to their result. */
  lemma ReserveStep(products: map<int, ProductRow>, lines: seq<LineRequest>)
    requires lines != [] && ReserveLines(products, lines).Ok?
    ensures ReserveLines(products, lines[..|lines| - 1]).Ok?
    ensures ReserveLine(ReserveLines(products, lines[..|lines| - 1]).value, lines[|lines| - 1]).Ok?
    ensures ReserveLines(products, lines).value ==
      ReserveLine(ReserveLines(products, lines[..|lines| - 1]).value, lines[|lines| - 1]).value
  {
    var prefix := lines[..|lines| - 1];
    assert ReserveLines(products, prefix).Ok?;
    assert ReserveLines(products, lines) == ReserveLine(ReserveLines(products, prefix).value, lines[|lines| - 1]);
  }

  /** One successful iteration, spelled out. */
  lemma LineReserved(before: Reservation, line: LineRequest)
    requires ReserveLine(before, line).Ok?
    ensures line.productId in before.inventory
    ensures line.quantity <= before.inventory[line.productId].stock
    ensures var p := before.inventory[line.productId];
      ReserveLine(before, line).value == Reservation(
        before.inventory[line.productId := p.(stock := p.stock - line.quantity)],
        before.subtotal + p.price * (line.quantity as real),
        before.items + [SaleItemRow(line.productId, p.name, p.sku, line.quantity, p.price, line.discount,
                                    p.price * (line.quantity as real) - line.discount)])
  {
  }

  /** Stock conservation: on success every product keeps its row except
      that its stock falls by exactly the total quantity requested of it. */
  lemma {:induction false} ReserveConservesStock(products: map<int, ProductRow>, lines: seq<LineRequest>)
    requires ReserveLines(products, lines).Ok?
    ensures var inventory := ReserveLines(products, lines).value.inventory;
      && inventory.Keys == products.Keys
      && forall id :: id in products ==>
           inventory[id] == products[id].(stock := products[id].stock - Requested(lines, id))
    decreases |lines|
  {
    if lines != [] {
      ReserveConservesStock(products, lines[..|lines| - 1]);
    }
  }

  /** No negative stock: each decrement is preceded by its check. */
  lemma {:induction false} ReserveKeepsStockValid(products: map<int, ProductRow>, lines: seq<LineRequest>)
    requires InventoryValid(products)
    requires ReserveLines(products, lines).Ok?
    ensures InventoryValid(ReserveLines(products, lines).value.inventory)
    decreases |lines|
  {
    if lines != [] {
      ReserveKeepsStockValid(products, lines[..|lines| - 1]);
    }
  }

  /** The row a line is snapshotted into: the product's name, SKU and
      price, the requested quantity and discount, and
      `price × quantity − discount` as total, with no floor at zero. */
  predicate IsSnapshot(products: map<int, ProductRow>, line: LineRequest, item: SaleItemRow) {
    && line.productId in products
    && var p := products[line.productId];
       item == SaleItemRow(line.productId, p.name, p.sku, line.quantity, p.price, line.discount,
                           p.price * (line.quantity as real) - line.discount)
  }

  /** On success every requested product exists and the items are the
      snapshots of the lines, in order, taken from the rows as they were
      before the sale (the stock decrements change no snapshotted column). */
  lemma {:induction false} ReserveSnapshots(products: map<int, ProductRow>, lines: seq<LineRequest>)
    requires ReserveLines(products, lines).Ok?
    ensures |ReserveLines(products, lines).value.items| == |lines|
    ensures forall i :: 0 <= i < |lines| ==> IsSnapshot(products, lines[i], ReserveLines(products, lines).value.items[i])
    decreases |lines|
  {
    if lines != [] {
      var prefix := lines[..|lines| - 1];
      ReserveStep(products, lines);
      var before := ReserveLines(products, prefix).value;
      LineReserved(before, lines[|lines| - 1]);
      ReserveSnapshots(products, prefix);
      ReserveConservesStock(products, prefix);
      var items := ReserveLines(products, lines).value.items;
      var last := lines[|lines| - 1];
      assert before.inventory[last.productId].name == products[last.productId].name;
      assert IsSnapshot(products, last, items[|prefix|]);
      forall i | 0 <= i < |prefix| ensures IsSnapshot(products, lines[i], items[i]) {
        assert lines[i] == prefix[i];
        assert items[i] == before.items[i];
      }
    }
  }

  /** The subtotal is `Σ price × quantity` over the items: line discounts
      do not reduce it. */
  lemma {:induction false} ReserveSubtotal(products: map<int, ProductRow>, lines: seq<LineRequest>)
    requires ReserveLines(products, lines).Ok?
    ensures ReserveLines(products, lines).value.subtotal == GrossAmount(ReserveLines(products, lines).value.items)
    decreases |lines|
  {
    if lines != [] {
      var prefix := lines[..|lines| - 1];
      ReserveStep(products, lines);
      var before := ReserveLines(products, prefix).value;
      LineReserved(before, lines[|lines| - 1]);
      ReserveSubtotal(products, prefix);
      var items := ReserveLines(products, lines).value.items;
      GrossAmountAppend(before.items, items[|before.items|]);
    }
  }

  lemma GrossAmountAppend(items: seq<SaleItemRow>, item: SaleItemRow)
    ensures GrossAmount(items + [item]) == GrossAmount(items) + item.unitPrice * (item.quantity as real)
  {
    assert (items + [item])[..|items|] == items;
  }

  /** A successful loop passed every check: each product exists and the
      total requested of each is within its stock. */
  lemma {:induction false} ReserveOkWithinStock(products: map<int, ProductRow>, lines: seq<LineRequest>)
    requires InventoryValid(products)
    requires ReserveLines(products, lines).Ok?
    ensures forall i :: 0 <= i < |lines| ==> lines[i].productId in products
    ensures forall id :: id in products ==> Requested(lines, id) <= products[id].stock
    decreases |lines|
  {
    if lines != [] {
      var prefix := lines[..|lines| - 1];
      var last := lines[|lines| - 1];
      ReserveOkWithinStock(products, prefix);
      ReserveConservesStock(products, prefix);
      var inventory := ReserveLines(products, prefix).value.inventory;
      assert ReserveLines(products, lines) == ReserveLine(ReserveLines(products, prefix).value, last);
      assert last.productId in inventory && inventory[last.productId].stock >= last.quantity;
      forall i | 0 <= i < |prefix| ensures lines[i].productId in products {
        assert lines[i] == prefix[i];
      }
      forall id | id in products ensures Requested(lines, id) <= products[id].stock {
        assert Requested(lines, id) == Requested(prefix, id) + (if last.productId == id then last.quantity else 0);
        if id == last.productId {
          assert inventory[id].stock == products[id].stock - Requested(prefix, id);
        }
      }
    }
  }

  /** Conversely, with non-negative quantities, lines whose products all
      exist and whose totals are within stock pass every check: repeated
      lines for one product are checked against the stock already
      decremented by the earlier ones. */
  lemma {:induction false} ReserveWithinStockOk(products: map<int, ProductRow>, lines: seq<LineRequest>)
    requires forall i :: 0 <= i < |lines| ==> lines[i].quantity >= 0
    requires forall i :: 0 <= i < |lines| ==> lines[i].productId in products
    requires forall id :: id in products ==> Requested(lines, id) <= products[id].stock
    ensures ReserveLines(products, lines).Ok?
    decreases |lines|
  {
    if lines != [] {
      var prefix := lines[..|lines| - 1];
      forall i | 0 <= i < |prefix| ensures prefix[i].productId in products && prefix[i].quantity >= 0 {
        assert prefix[i] == lines[i];
      }
      ReserveWithinStockOk(products, prefix);
      ReserveConservesStock(products, prefix);
    }
  }

  /** With non-negative stock and quantities, the loop succeeds exactly when every
      product exists and the total requested of each is within its stock. */
  lemma ReserveSucceedsIff(products: map<int, ProductRow>, lines: seq<LineRequest>)
    requires InventoryValid(products)
    requires forall i :: 0 <= i < |lines| ==> lines[i].quantity >= 0
    ensures ReserveLines(products, lines).Ok? <==>
      (forall i :: 0 <= i < |lines| ==> lines[i].productId in products) &&
      (forall id :: id in products ==> Requested(lines, id) <= products[id].stock)
  {
    if ReserveLines(products, lines).Ok? {
      ReserveOkWithinStock(products, lines);
    }
    if (forall i :: 0 <= i < |lines| ==> lines[i].productId in products) &&
       (forall id :: id in products ==> Requested(lines, id) <= products[id].stock) {
      ReserveWithinStockOk(products, lines);
    }
  }

  /** A committed sale keeps the tables' validators satisfied. */
  lemma CheckoutPreservesValid(
    products: map<int, ProductRow>, customers: map<int, CustomerRow>, sales: seq<SaleRow>,
    user: Option<JwtPayload>, body: SaleRequest, invoice: string)
    requires InventoryValid(products) && CustomersValid(customers) && SalesValid(sales)
    requires Checkout(products, customers, sales, user, body, invoice).Ok?
    ensures var c := Checkout(products, customers, sales, user, body, invoice).value;
      InventoryValid(c.products) && CustomersValid(c.customers) && SalesValid(sales + [c.sale])
  {
    var lines := body.items.value;
    ReserveKeepsStockValid(products, lines);
    var c := Checkout(products, customers, sales, user, body, invoice).value;
    forall i | 0 <= i < |sales + [c.sale]| ensures AllItemsValid((sales + [c.sale])[i].items) {
      if i < |sales| {
        assert (sales + [c.sale])[i] == sales[i];
      }
    }
  }

  /** The row a successful checkout inserts: completed, under the given
      invoice number and cashier, with `Σ price × quantity` as subtotal, the
      server's discount, `(subtotal − discount) × taxRate/100` as tax and
      `(subtotal − discount) × (1 + taxRate/100)` as grand total, paid in
      full (the amount sent when it is non-zero, the grand total when it is
      missing or zero), with the difference as change. */
  predicate RecordsPaidSale(sale: SaleRow, invoice: string, userId: int, body: SaleRequest) {
    && sale.status == Completed
    && sale.invoiceNumber == invoice && sale.userId == userId
    && sale.subtotal == GrossAmount(sale.items)
    && sale.discountAmount == ServerDiscount(sale.subtotal, body.discountType, body.discountValue)
    && sale.taxAmount == (sale.subtotal - sale.discountAmount) * body.taxRate / 100.0
    && sale.grandTotal == (sale.subtotal - sale.discountAmount) * (1.0 + body.taxRate / 100.0)
    && sale.amountPaid >= sale.grandTotal
    && sale.changeAmount == sale.amountPaid - sale.grandTotal
    && (body.amountPaid.Some? && body.amountPaid.value != 0.0 ==> sale.amountPaid == body.amountPaid.value)
    && (body.amountPaid.None? || body.amountPaid.value == 0.0 ==> sale.amountPaid == sale.grandTotal)
  }

  /** A successful checkout needs a user and at least one line, and
      inserts one item per line into a sale that records the payment. */
  lemma CheckoutCommitsSale(
    products: map<int, ProductRow>, customers: map<int, CustomerRow>, sales: seq<SaleRow>,
    user: Option<JwtPayload>, body: SaleRequest, invoice: string)
    requires Checkout(products, customers, sales, user, body, invoice).Ok?
    ensures user.Some? && body.items.Some?
    ensures |Checkout(products, customers, sales, user, body, invoice).value.sale.items| == |body.items.value| >= 1
    ensures RecordsPaidSale(Checkout(products, customers, sales, user, body, invoice).value.sale,
                            invoice, user.value.userId, body)
  {
    CheckoutShape(products, customers, sales, user, body, invoice);
    var lines := body.items.value;
    ReservedItems(products, lines);
    var r := ReserveLines(products, lines).value;
    var totals := ServerTotals(r.subtotal, body.discountType, body.discountValue, body.taxRate);
    NewSaleFacts(invoice, user.value.userId, body, r, totals);
  }

  /** The two facts about a successful stock loop the sale row relies on. */
  lemma ReservedItems(products: map<int, ProductRow>, lines: seq<LineRequest>)
    requires ReserveLines(products, lines).Ok?
    ensures |ReserveLines(products, lines).value.items| == |lines|
    ensures ReserveLines(products, lines).value.subtotal == GrossAmount(ReserveLines(products, lines).value.items)
  {
    ReserveSnapshots(products, lines);
    ReserveSubtotal(products, lines);
  }

  /** The row `Sale.create` inserts once the payment check has passed. */
  lemma NewSaleFacts(invoice: string, userId: int, body: SaleRequest, r: Reservation, totals: SaleTotals)
    requires totals == ServerTotals(r.subtotal, body.discountType, body.discountValue, body.taxRate)
    requires r.subtotal == GrossAmount(r.items)
    requires !PaymentShort(body.amountPaid, totals.grandTotal)
    ensures NewSale(invoice, userId, body, r, totals).items == r.items
    ensures RecordsPaidSale(NewSale(invoice, userId, body, r, totals), invoice, userId, body)
  {
  }

    /** What a successful checkout commits, spelled out. */
  lemma CheckoutShape(
    products: map<int, ProductRow>, customers: map<int, CustomerRow>, sales: seq<SaleRow>,
    user: Option<JwtPayload>, body: SaleRequest, invoice: string)
    requires Checkout(products, customers, sales, user, body, invoice).Ok?
    ensures user.Some? && body.items.Some? && |body.items.value| >= 1
    ensures ReserveLines(products, body.items.value).Ok?
    ensures var r := ReserveLines(products, body.items.value).value;
      var totals := ServerTotals(r.subtotal, body.discountType, body.discountValue, body.taxRate);
      && !PaymentShort(body.amountPaid, totals.grandTotal)
      && CreditLoyalty(customers, body.customerId, totals.grandTotal).Ok?
      && Checkout(products, customers, sales, user, body, invoice).value ==
           Committed(NewSale(invoice, user.value.userId, body, r, totals), r.inventory,
                     CreditLoyalty(customers, body.customerId, totals.grandTotal).value)
  {
  }

  /** Stock on commit: each product's stock falls by the total requested of
      it, and none goes negative. */
  lemma CheckoutConservesStock(
    products: map<int, ProductRow>, customers: map<int, CustomerRow>, sales: seq<SaleRow>,
    user: Option<JwtPayload>, body: SaleRequest, invoice: string)
    requires InventoryValid(products)
    requires Checkout(products, customers, sales, user, body, invoice).Ok?
    ensures var after := Checkout(products, customers, sales, user, body, invoice).value.products;
      && after.Keys == products.Keys
      && (forall id :: id in products ==>
            after[id].stock == products[id].stock - Requested(body.items.value, id) >= 0)
  {
    ReserveConservesStock(products, body.items.value);
    ReserveKeepsStockValid(products, body.items.value);
  }

  /** Loyalty on commit: an attached, live customer gains exactly
      `floor(grandTotal / 100)` points; every other customer row, and all of
      them when no live customer is attached, is unchanged. */
  lemma CheckoutCreditsLoyalty(
    products: map<int, ProductRow>, customers: map<int, CustomerRow>, sales: seq<SaleRow>,
    user: Option<JwtPayload>, body: SaleRequest, invoice: string)
    requires Checkout(products, customers, sales, user, body, invoice).Ok?
    ensures var c := Checkout(products, customers, sales, user, body, invoice).value;
      && c.customers.Keys == customers.Keys
      && (forall id :: id in customers && (body.customerId != Some(id) || id == 0 || customers[id].deleted) ==>
            c.customers[id] == customers[id])
      && (forall id :: id in customers && body.customerId == Some(id) && id != 0 && !customers[id].deleted ==>
            c.customers[id].loyaltyPoints == customers[id].loyaltyPoints + PointsEarned(c.sale.grandTotal))
  {
  }

  /** The rejections that come before any product is read. */
  lemma CheckoutRejectsEarly(
    products: map<int, ProductRow>, customers: map<int, CustomerRow>, sales: seq<SaleRow>,
    user: Option<JwtPayload>, body: SaleRequest, invoice: string)
    ensures user.None? ==>
      Checkout(products, customers, sales, user, body, invoice) == Err(ErrorResponse("Authentication required", 401))
    ensures user.Some? && (body.items.None? || body.items.value == []) ==>
      Checkout(products, customers, sales, user, body, invoice) == Err(ErrorResponse("At least one item is required", 400))
  {
  }

  /** A missing product gives 404, a shortage 400 naming the available and
      requested amounts, and a payment below the grand total 400. */
  lemma CheckoutLineAndPaymentErrors(
    products: map<int, ProductRow>, customers: map<int, CustomerRow>, sales: seq<SaleRow>,
    user: Option<JwtPayload>, body: SaleRequest, invoice: string)
    requires user.Some? && body.items.Some? && body.items.value != []
    ensures var lines := body.items.value;
      ReserveLines(products, lines).Err? ==>
        Checkout(products, customers, sales, user, body, invoice).Err? &&
        Checkout(products, customers, sales, user, body, invoice).error.status ==
          (if ReserveLines(products, lines).error.ProductNotFound? then 404 else 400)
    ensures var lines := body.items.value;
      ReserveLines(products, lines).Ok? &&
      PaymentShort(body.amountPaid, ServerTotals(ReserveLines(products, lines).value.subtotal,
                     body.discountType, body.discountValue, body.taxRate).grandTotal) ==>
        Checkout(products, customers, sales, user, body, invoice) == Err(ErrorResponse("Insufficient payment amount", 400))
  {
  }

  /** A checkout worked through: two units at 2500 from a stock of 50, 10%
      off, 8% tax, 5000 tendered: grand total 4860, change 140, stock 48 and
      48 loyalty points. */
  lemma WorkedExample(customer: CustomerRow)
    requires !customer.deleted && customer.loyaltyPoints >= 0
    ensures var products := map[1 := ProductRow("Widget", "W-1", 2500.0, 50, 10, true)];
      var body := SaleRequest(Some([LineRequest(1, 2, 0.0)]), Some(7), Some(Percentage), 10.0, 8.0,
                              Cash, Some(5000.0), None);
      var c := Checkout(products, map[7 := customer], [], Some(JwtPayload(3, "c@pos", "cashier")), body, "INV-20250101-0042");
      && c.Ok?
      && c.value.sale.subtotal == 5000.0 && c.value.sale.discountAmount == 500.0
      && c.value.sale.taxAmount == 360.0 && c.value.sale.grandTotal == 4860.0
      && c.value.sale.changeAmount == 140.0
      && c.value.products[1].stock == 48
      && c.value.customers[7].loyaltyPoints == customer.loyaltyPoints + 48
  {
    var products := map[1 := ProductRow("Widget", "W-1", 2500.0, 50, 10, true)];
    var lines := [LineRequest(1, 2, 0.0)];
    assert lines[..0] == [];
    assert ReserveLines(products, lines).value.subtotal == 5000.0;
    assert PointsEarned(4860.0) == 48;
  }

  /** A shortage worked through: 60 requested from a stock of 50 fails with
      the available and requested amounts. */
  lemma ShortageExample()
    ensures ReserveLines(map[1 := ProductRow("Widget", "W-1", 2500.0, 50, 10, true)], [LineRequest(1, 60, 0.0)])
            == Err(InsufficientStock("Widget", 50, 60))
  {
    assert [LineRequest(1, 60, 0.0)][..0] == [];
  }

  // ---------------------------------------------------------------------
  // GET /api/sales pagination
  // ---------------------------------------------------------------------

  /** `Math.ceil(count / limit)`; a limit of 0 gives no finite number. */
  function TotalPages(count: nat, limit: int): Option<int>
  {
    if limit == 0 then None
    else Some(-((-(count as real) / (limit as real)).Floor))
  }

  datatype Pagination = Pagination(total: int, page: int, limit: int, totalPages: Option<int>)
  datatype SalesPage = SalesPage(sales: seq<SaleRow>, pagination: Pagination)

  /** `order: [["created_at", "DESC"]]`: sales are appended as they are
      made, so the newest first is the table reversed. */
  function NewestFirst(sales: seq<SaleRow>): (r: seq<SaleRow>)
    ensures |r| == |sales|
    ensures forall k :: 0 <= k < |r| ==> r[k] == sales[|sales| - 1 - k]
  {
    seq(|sales|, k requires 0 <= k < |sales| => sales[|sales| - 1 - k])
  }

  /** The `count` of `findAndCountAll`: with the `items` association
      included and no `distinct`, it counts the rows of the outer join, one
      per sale item and one for a sale without items. */
  function JoinedRows(sales: seq<SaleRow>): (n: nat)
    ensures n >= |sales|
    decreases |sales|
  {
    if sales == [] then 0
    else JoinedRows(sales[..|sales| - 1]) + (if |sales[|sales| - 1].items| == 0 then 1 else |sales[|sales| - 1].items|)
  }

  /** The driver's text for a negative `LIMIT` or `OFFSET` (its position
      details are not modelled). */
  const LimitSyntaxMessage := "You have an error in your SQL syntax"

  /** A page window the database accepts: neither the limit nor the offset
      `(page - 1) × limit` is negative. */
  predicate WindowAccepted(page: int, limit: int) {
    limit == 0 || (limit > 0 && page >= 1)
  }

  /** `GET /api/sales`: `page` and `limit` default to 1 and 20 (the query
      parameters arrive already parsed); the rows are the window
      `offset = (page - 1) × limit` of length `limit`, newest first. A
      negative limit or offset makes the query throw a database error. */
  function ListSales(sales: seq<SaleRow>, user: Option<JwtPayload>, page: Option<int>, limit: Option<int>): (r: Response<SalesPage>)
    ensures r.success <==> user.Some? && WindowAccepted(page.GetOr(1), limit.GetOr(20))
    ensures user.None? ==> r.status == 401
    ensures user.Some? && !WindowAccepted(page.GetOr(1), limit.GetOr(20)) ==>
      r.status == 500 && r.message == LimitSyntaxMessage
    ensures r.success ==> r.data.Some? && r.data.value.pagination.total == JoinedRows(sales)
  {
    if user.None? then ErrorResponse("Authentication required", 401)
    else if !WindowAccepted(page.GetOr(1), limit.GetOr(20)) then
      HandleApiError(ErrorThrown("SequelizeDatabaseError", LimitSyntaxMessage, None))
    else
      var p := page.GetOr(1);
      var l := limit.GetOr(20);
      var ordered := NewestFirst(sales);
      var from := MinInt((p - 1) * l, |ordered|);
      var to := MinInt((p - 1) * l + l, |ordered|);
      assert 0 <= (p - 1) * l by { if l > 0 { PositiveProduct(p - 1, l); } }
      var total := JoinedRows(sales);
      SuccessResponse(SalesPage(ordered[from..to], Pagination(total, p, l, TotalPages(total, l))))
  }

  /** Every sale is listed exactly where its rank says: the sale of rank
      `k` (newest first) is row `k mod limit` of page `k / limit + 1`, and
      that page is within the reported page count, which the joined-row
      count can only raise. */
  lemma ListedOnItsPage(sales: seq<SaleRow>, user: JwtPayload, limit: int, k: int)
    requires limit > 0 && 0 <= k < |sales|
    ensures var r := ListSales(sales, Some(user), Some(k / limit + 1), Some(limit));
      && k % limit < |r.data.value.sales|
      && r.data.value.sales[k % limit] == sales[|sales| - 1 - k]
      && k / limit + 1 <= r.data.value.pagination.totalPages.value
  {
    var page := k / limit + 1;
    var offset := (page - 1) * limit;
    var row := k % limit;
    assert offset + row == k && 0 <= row < limit by {
      assert (page - 1) * limit == (k / limit) * limit;
    }
    var to := MinInt(offset + limit, |sales|);
    var ordered := NewestFirst(sales);
    var total := JoinedRows(sales);
    assert ListSales(sales, Some(user), Some(page), Some(limit)) ==
      SuccessResponse(SalesPage(ordered[offset..to], Pagination(total, page, limit, TotalPages(total, limit))));
    assert ordered[offset..to][row] == ordered[k];
    assert page <= TotalPages(total, limit).value by {
      TotalPagesCovers(total, limit);
      var pages := TotalPages(total, limit).value;
      if pages < page {
        LessPagesFewerRows(pages, page - 1, limit);
      }
    }
  }

  /** The joined-row count worked through: one sale of two items, listed
      one per page, reports a total of 2 and two pages, and its second page
      is empty. */
  lemma TwoItemSaleCountsTwice(sale: SaleRow, user: JwtPayload)
    requires |sale.items| == 2
    ensures var first := ListSales([sale], Some(user), Some(1), Some(1));
      && first.success && first.data.value.sales == [sale]
      && first.data.value.pagination.total == 2
      && first.data.value.pagination.totalPages == Some(2)
    ensures var second := ListSales([sale], Some(user), Some(2), Some(1));
      second.success && second.data.value.sales == []
  {
    assert [sale][..0] == [];
    assert JoinedRows([sale]) == 2;
    assert TotalPages(2, 1) == Some(2);
  }

  lemma LessPagesFewerRows(pages: int, below: int, limit: int)
    requires pages <= below && limit > 0
    ensures pages * limit <= below * limit
  {
  }

  /** With a positive limit, the pages hold every row and the last page is
      not empty. */
  lemma TotalPagesCovers(count: nat, limit: int)
    requires limit > 0
    ensures TotalPages(count, limit).Some?
    ensures var pages := TotalPages(count, limit).value;
      && pages >= 0
      && (pages == 0 <==> count == 0)
      && (pages - 1) * limit < count <= pages * limit
  {
    var l := limit as real;
    var x := -(count as real);
    var f := (x / l).Floor;
    var pages := -f;
    ScaleFloor(x, l, f);
    CastProduct(f, limit);
    assert f * limit <= -(count as int) < f * limit + limit;
    assert pages * limit == -(f * limit);
    assert (pages - 1) * limit == -(f * limit) - limit;
    if pages < 0 {
      NegativeProduct(pages, limit);
    }
    if pages > 0 {
      PositiveProduct(pages - 1, limit);
    }
  }

  lemma ScaleFloor(x: real, l: real, f: int)
    requires l > 0.0 && (f as real) <= x / l < (f as real) + 1.0
    ensures (f as real) * l <= x < (f as real) * l + l
  {
    var q := x / l;
    assert q * l == x;
    var below := q - (f as real);
    var above := (f as real) + 1.0 - q;
    ScaleNonNegative(below, l);
    ScalePositive(above, l);
    assert below * l == x - (f as real) * l;
    assert above * l == (f as real) * l + l - x;
  }

  lemma ScaleNonNegative(d: real, l: real)
    requires d >= 0.0 && l > 0.0
    ensures d * l >= 0.0
  {
  }

  lemma ScalePositive(d: real, l: real)
    requires d > 0.0 && l > 0.0
    ensures d * l > 0.0
  {
  }

  lemma CastProduct(a: int, b: int)
    ensures (a as real) * (b as real) == (a * b) as real
  {
  }

  lemma NegativeProduct(a: int, b: int)
    requires a < 0 && b > 0
    ensures a * b < 0
  {
  }

  lemma PositiveProduct(a: int, b: int)
    requires a >= 0 && b >= 0
    ensures a * b >= 0
  {
  }
}
