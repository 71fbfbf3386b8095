/** The register screen and the sale endpoint compute totals separately
    (src/contexts/CartContext.tsx and src/app/api/sales/route.ts). This
    module relates the two: they agree on carts without line discounts whose
    cart discount is non-negative and within the subtotal, and the examples
    at the end show each way they part company outside those conditions. */
module TotalsAgreement {
  import opened Wrappers
  import opened Types
  import opened Models
  import Cart
  import Sales

  /** The request body the payment screen builds from the cart lines. */
  function LinesOf(items: seq<Cart.CartItem>): (lines: seq<Sales.LineRequest>)
    ensures |lines| == |items|
    ensures forall i :: 0 <= i < |items| ==>
      lines[i] == Sales.LineRequest(items[i].productId, items[i].quantity, items[i].discount)
  {
    seq(|items|, i requires 0 <= i < |items| => Sales.LineRequest(items[i].productId, items[i].quantity, items[i].discount))
  }

  /** The cart's copy of each price is the price in the inventory. */
  predicate PricesCurrent(items: seq<Cart.CartItem>, products: map<int, ProductRow>) {
    forall i :: 0 <= i < |items| ==>
      items[i].productId in products && products[items[i].productId].price == items[i].unitPrice
  }

  /** No line carries a discount and no price is negative. */
  predicate PlainLines(items: seq<Cart.CartItem>) {
    forall i :: 0 <= i < |items| ==> items[i].discount == 0.0 && items[i].unitPrice >= 0.0
  }

  /** Without line discounts and with non-negative prices and quantities,
      the cart's floored line totals are the server's `price × quantity`. */
  lemma {:induction false} SubtotalIsGross(items: seq<Cart.CartItem>, sold: seq<SaleItemRow>)
    requires SoldAsListed(items, sold) && PlainLines(items)
    ensures Cart.Subtotal(items) == Sales.GrossAmount(sold)
    decreases |items|
  {
    if items != [] {
      var n := |items| - 1;
      var front, soldFront := items[..n], sold[..n];
      var last := Cart.LineTotal(items[n]);
      assert Cart.Subtotal(items) == Sales.GrossAmount(soldFront) + last by {
        FrontSoldAsListed(items, sold);
        SubtotalIsGross(front, soldFront);
        SubtotalLast(items);
      }
      assert Sales.GrossAmount(sold) == Sales.GrossAmount(soldFront) + last by {
        PlainLineTotal(items[n], sold[n]);
        assert sold == soldFront + [sold[n]];
        Sales.GrossAmountAppend(soldFront, sold[n]);
      }
    }
  }

  /** The head-first sum of line totals, peeled from the back. */
  lemma SubtotalLast(items: seq<Cart.CartItem>)
    requires items != []
    ensures Cart.Subtotal(items) == Cart.Subtotal(items[..|items| - 1]) + Cart.LineTotal(items[|items| - 1])
  {
    var n := |items| - 1;
    assert items == items[..n] + [items[n]];
    Cart.SubtotalAppend(items[..n], [items[n]]);
    assert Cart.Subtotal([items[n]]) == Cart.LineTotal(items[n]);
  }

  /** The stored items are the cart lines' prices and quantities, line by
      line, each of at least one unit. */
  predicate SoldAsListed(items: seq<Cart.CartItem>, sold: seq<SaleItemRow>) {
    && |items| == |sold|
    && forall i :: 0 <= i < |items| ==>
         sold[i].unitPrice == items[i].unitPrice && sold[i].quantity == items[i].quantity && items[i].quantity >= 1
  }

  lemma FrontSoldAsListed(items: seq<Cart.CartItem>, sold: seq<SaleItemRow>)
    requires SoldAsListed(items, sold) && PlainLines(items) && items != []
    ensures SoldAsListed(items[..|items| - 1], sold[..|items| - 1]) && PlainLines(items[..|items| - 1])
  {
    var n := |items| - 1;
    forall i | 0 <= i < n
      ensures sold[..n][i].unitPrice == items[..n][i].unitPrice && sold[..n][i].quantity == items[..n][i].quantity
      ensures items[..n][i].quantity >= 1 && items[..n][i].discount == 0.0 && items[..n][i].unitPrice >= 0.0
    {
      assert items[..n][i] == items[i] && sold[..n][i] == sold[i];
    }
  }

  /** A line without discount and with a non-negative price totals its
      `price × quantity`, as the stored item does. */
  lemma PlainLineTotal(line: Cart.CartItem, item: SaleItemRow)
    requires line.discount == 0.0 && line.unitPrice >= 0.0 && line.quantity >= 1
    requires item.unitPrice == line.unitPrice && item.quantity == line.quantity
    ensures Cart.LineTotal(line) == item.unitPrice * (item.quantity as real)
  {
    Sales.ScaleNonNegative(line.unitPrice, line.quantity as real);
  }

  /** The checkout stores the cart's subtotal: for a cart whose lines have
      no discount and whose prices are current, the server's `Σ price ×
      quantity` over a successful stock loop is the cart's subtotal. */
  lemma ServerSubtotalIsCartSubtotal(cart: Cart.CartState, products: map<int, ProductRow>)
    requires Cart.Valid(cart)
    requires PlainLines(cart.items) && PricesCurrent(cart.items, products)
    requires Sales.ReserveLines(products, LinesOf(cart.items)).Ok?
    ensures Sales.ReserveLines(products, LinesOf(cart.items)).value.subtotal == Cart.Subtotal(cart.items)
  {
    var lines := LinesOf(cart.items);
    var r := Sales.ReserveLines(products, lines).value;
    Sales.ReserveSnapshots(products, lines);
    Sales.ReserveSubtotal(products, lines);
    assert Cart.QuantitiesInStock(cart.items);
    forall i | 0 <= i < |cart.items|
      ensures r.items[i].unitPrice == cart.items[i].unitPrice && r.items[i].quantity == cart.items[i].quantity
      ensures cart.items[i].quantity >= 1
    {
      assert Sales.IsSnapshot(products, lines[i], r.items[i]);
    }
    SubtotalIsGross(cart.items, r.items);
  }

  /** On the same subtotal, the server's discount is the cart's when the
      discount value is non-negative, and its tax and grand total are the
      cart's when that discount does not exceed the subtotal. */
  lemma ServerTotalsAreCartTotals(cart: Cart.CartState)
    requires cart.discountValue >= 0.0
    ensures var shown := Cart.CalculateCartTotals(cart);
      var stored := Sales.ServerTotals(shown.subtotal, cart.discountType, cart.discountValue, cart.taxRate);
      && stored.discountAmount == shown.discountAmount
      && (shown.discountAmount <= shown.subtotal ==>
            stored.taxAmount == shown.taxAmount && stored.grandTotal == shown.grandTotal)
  {
  }

  /** The cross-check: for a cart whose lines have no discount, whose prices
      are current and whose cart discount is non-negative, a checkout that
      passes the stock loop stores the subtotal and discount the cart shows;
      when the discount does not exceed the subtotal, the tax and grand
      total agree as well. */
  lemma ServerAgreesWithCart(cart: Cart.CartState, products: map<int, ProductRow>)
    requires Cart.Valid(cart)
    requires PlainLines(cart.items) && PricesCurrent(cart.items, products)
    requires cart.discountValue >= 0.0
    requires Sales.ReserveLines(products, LinesOf(cart.items)).Ok?
    ensures var r := Sales.ReserveLines(products, LinesOf(cart.items)).value;
      var shown := Cart.CalculateCartTotals(cart);
      var stored := Sales.ServerTotals(r.subtotal, cart.discountType, cart.discountValue, cart.taxRate);
      && r.subtotal == shown.subtotal
      && stored.discountAmount == shown.discountAmount
      && (shown.discountAmount <= shown.subtotal ==>
            stored.taxAmount == shown.taxAmount && stored.grandTotal == shown.grandTotal)
  {
    ServerSubtotalIsCartSubtotal(cart, products);
    ServerTotalsAreCartTotals(cart);
  }

  // ---------------------------------------------------------------------
  // Where the two differ
  // ---------------------------------------------------------------------

  function OneLineCart(price: real, discount: real, discountType: Option<DiscountType>, value: real): Cart.CartState
  {
    Cart.CartState([Cart.CartItem(1, "Widget", "W-1", price, 1, discount, 5, None)],
                   None, discountType, value, 0.0, Cash, 0.0, "")
  }

  const Widget := map[1 := ProductRow("Widget", "W-1", 100.0, 5, 1, true)]

  lemma OneLineSubtotal(price: real, discount: real, discountType: Option<DiscountType>, value: real)
    ensures Cart.Subtotal(OneLineCart(price, discount, discountType, value).items) == Max(0.0, price - discount)
  {
    var items := OneLineCart(price, discount, discountType, value).items;
    assert items[1..] == [];
    assert Cart.LineTotal(items[0]) == Max(0.0, price * 1.0 - discount);
  }

  /** A line discount of 10 on a line of 100: the cart shows a subtotal of
      90, the server stores 100 (and 90 only as the item's total). */
  lemma LineDiscountIgnoredByServer()
    ensures Cart.CalculateCartTotals(OneLineCart(100.0, 10.0, None, 0.0)).subtotal == 90.0
    ensures Sales.ReserveLines(Widget, LinesOf(OneLineCart(100.0, 10.0, None, 0.0).items)).Ok?
    ensures Sales.ReserveLines(Widget, LinesOf(OneLineCart(100.0, 10.0, None, 0.0).items)).value.subtotal == 100.0
  {
    OneLineSubtotal(100.0, 10.0, None, 0.0);
    var lines := LinesOf(OneLineCart(100.0, 10.0, None, 0.0).items);
    assert lines == [Sales.LineRequest(1, 1, 10.0)];
    assert lines[..0] == [];
    assert Sales.ReserveLines(Widget, lines) == Sales.ReserveLine(Sales.Reservation(Widget, 0.0, []), lines[0]);
  }

  /** A fixed discount of 150 on a subtotal of 100: the cart floors the
      taxable amount and shows 0, the server stores a grand total of -50. */
  lemma OverDiscountNotFloored()
    ensures Cart.CalculateCartTotals(OneLineCart(100.0, 0.0, Some(Fixed), 150.0)).grandTotal == 0.0
    ensures Sales.ServerTotals(100.0, Some(Fixed), 150.0, 0.0).grandTotal == -50.0
  {
    var cart := OneLineCart(100.0, 0.0, Some(Fixed), 150.0);
    OneLineSubtotal(100.0, 0.0, Some(Fixed), 150.0);
    assert Cart.CartDiscount(100.0, Some(Fixed), 150.0) == 150.0;
    assert Cart.CalculateCartTotals(cart).grandTotal == Max(0.0, 100.0 - 150.0) * (1.0 + 0.0 / 100.0);
  }

  /** A negative discount value: the cart ignores it, the server applies it
      (a non-zero value is truthy) and raises the total. */
  lemma NegativeDiscountApplied()
    ensures Cart.CalculateCartTotals(OneLineCart(100.0, 0.0, Some(Fixed), -20.0)).grandTotal == 100.0
    ensures Sales.ServerTotals(100.0, Some(Fixed), -20.0, 0.0).grandTotal == 120.0
  {
    var cart := OneLineCart(100.0, 0.0, Some(Fixed), -20.0);
    OneLineSubtotal(100.0, 0.0, Some(Fixed), -20.0);
    assert Cart.CartDiscount(100.0, Some(Fixed), -20.0) == 0.0;
    assert Cart.CalculateCartTotals(cart).grandTotal == Max(0.0, 100.0 - 0.0) * (1.0 + 0.0 / 100.0);
    assert Sales.ServerDiscount(100.0, Some(Fixed), -20.0) == -20.0;
  }
}
