/** The point-of-sale cart: its state, the reducer that applies one action
    to it, and the totals shown to the cashier (src/contexts/CartContext.tsx).
    Money is `real`; the two-decimal rounding of the displayed totals is not
    modelled. */
module Cart {
  import opened Wrappers
  import opened Types

  // ---------------------------------------------------------------------
  // State and actions
  // ---------------------------------------------------------------------

  /** One cart line (`CartItem` of src/types/index.ts). */
  datatype CartItem = CartItem(
    productId: int,
    productName: string,
    productSku: string,
    unitPrice: real,
    quantity: int,
    discount: real,
    maxStock: int,
    imageUrl: Option<string>)

  /** `CartState`; `null` fields are `None`. */
  datatype CartState = CartState(
    items: seq<CartItem>,
    customerId: Option<int>,
    discountType: Option<DiscountType>,
    discountValue: real,
    taxRate: real,
    paymentMethod: PaymentMethod,
    amountPaid: real,
    notes: string)

  /** The closed union `CartAction`. */
  datatype CartAction =
    | AddItem(item: CartItem)
    | RemoveItem(productId: int)
    | UpdateQuantity(productId: int, quantity: int)
    | UpdateItemDiscount(productId: int, discount: real)
    | SetCustomer(customerId: Option<int>)
    | SetDiscount(discountType: Option<DiscountType>, value: real)
    | SetTaxRate(rate: real)
    | SetPaymentMethod(paymentMethod: PaymentMethod)
    | SetAmountPaid(amount: real)
    | SetNotes(notes: string)
    | ClearCart

  /** `initialState`; the tax rate is read once from the environment
      (`NEXT_PUBLIC_TAX_RATE`, default 0) and enters as `envTaxRate`. */
  function InitialState(envTaxRate: real): (s: CartState)
    ensures s.items == [] && s.customerId == None && s.discountType == None
    ensures s.discountValue == 0.0 && s.taxRate == envTaxRate
    ensures s.paymentMethod == Cash && s.amountPaid == 0.0 && s.notes == ""
  {
    CartState([], None, None, 0.0, envTaxRate, Cash, 0.0, "")
  }

  // ---------------------------------------------------------------------
  // The item-list operations the reducer uses
  // ---------------------------------------------------------------------

  predicate HasProduct(items: seq<CartItem>, productId: int) {
    exists i :: 0 <= i < |items| && items[i].productId == productId
  }

  /** `items.find((item) => item.product_id === productId)`: the first match. */
  function Find(items: seq<CartItem>, productId: int): (r: Option<CartItem>)
    ensures r.Some? <==> HasProduct(items, productId)
    ensures r.Some? ==> exists i :: 0 <= i < |items| && items[i] == r.value && r.value.productId == productId
                                    && forall j :: 0 <= j < i ==> items[j].productId != productId
    decreases |items|
  {
    if items == [] then None
    else if items[0].productId == productId then Some(items[0])
    else
      var r := Find(items[1..], productId);
      assert r.Some? ==> exists i :: 1 <= i < |items| && items[i] == r.value
                                  && forall j :: 0 <= j < i ==> items[j].productId != productId by {
        if r.Some? {
          var k :| 0 <= k < |items[1..]| && items[1..][k] == r.value
                   && forall j :: 0 <= j < k ==> items[1..][j].productId != productId;
          forall j | 0 <= j < k + 1 ensures items[j].productId != productId {
            if j > 0 { assert items[j] == items[1..][j - 1]; }
          }
          assert items[k + 1] == r.value;
        }
      }
      assert HasProduct(items[1..], productId) <==> HasProduct(items, productId) by {
        if HasProduct(items, productId) {
          var i :| 0 <= i < |items| && items[i].productId == productId;
          assert items[1..][i - 1].productId == productId;
        }
      }
      r
  }

  /** `items.map(item => item.product_id === id ? { ...item, quantity } : item)`. */
  function WithQuantity(items: seq<CartItem>, productId: int, quantity: int): (r: seq<CartItem>)
    ensures |r| == |items|
    ensures forall i :: 0 <= i < |items| ==>
      r[i] == if items[i].productId == productId then items[i].(quantity := quantity) else items[i]
  {
    seq(|items|, i requires 0 <= i < |items| =>
      if items[i].productId == productId then items[i].(quantity := quantity) else items[i])
  }

  /** The UPDATE_QUANTITY map: each matching line gets
      `Math.min(quantity, item.max_stock)`. */
  function WithClampedQuantity(items: seq<CartItem>, productId: int, quantity: int): (r: seq<CartItem>)
    ensures |r| == |items|
    ensures forall i :: 0 <= i < |items| ==>
      r[i] == if items[i].productId == productId
              then items[i].(quantity := MinInt(quantity, items[i].maxStock)) else items[i]
  {
    seq(|items|, i requires 0 <= i < |items| =>
      if items[i].productId == productId
      then items[i].(quantity := MinInt(quantity, items[i].maxStock)) else items[i])
  }

  /** The UPDATE_ITEM_DISCOUNT map. */
  function WithDiscount(items: seq<CartItem>, productId: int, discount: real): (r: seq<CartItem>)
    ensures |r| == |items|
    ensures forall i :: 0 <= i < |items| ==>
      r[i] == if items[i].productId == productId then items[i].(discount := discount) else items[i]
  {
    seq(|items|, i requires 0 <= i < |items| =>
      if items[i].productId == productId then items[i].(discount := discount) else items[i])
  }

  /** `items.filter((item) => item.product_id !== productId)`. */
  function Without(items: seq<CartItem>, productId: int): seq<CartItem>
    decreases |items|
  {
    if items == [] then []
    else if items[0].productId == productId then Without(items[1..], productId)
    else [items[0]] + Without(items[1..], productId)
  }

  // ---------------------------------------------------------------------
  // The reducer
  // ---------------------------------------------------------------------

  /** `cartReducer(state, action)`. The `default` branch of the source cannot
      be reached with a closed action type. */
  function Reduce(state: CartState, action: CartAction, envTaxRate: real): CartState
  {
    match action
    case AddItem(item) =>
      (match Find(state.items, item.productId)
       case Some(existing) =>
         var newQty := MinInt(existing.quantity + item.quantity, existing.maxStock);
         state.(items := WithQuantity(state.items, item.productId, newQty))
       case None =>
         state.(items := state.items + [item]))
    case RemoveItem(productId) =>
      state.(items := Without(state.items, productId))
    case UpdateQuantity(productId, quantity) =>
      if quantity <= 0 then state.(items := Without(state.items, productId))
      else state.(items := WithClampedQuantity(state.items, productId, quantity))
    case UpdateItemDiscount(productId, discount) =>
      state.(items := WithDiscount(state.items, productId, discount))
    case SetCustomer(customerId) => state.(customerId := customerId)
    case SetDiscount(discountType, value) => state.(discountType := discountType, discountValue := value)
    case SetTaxRate(rate) => state.(taxRate := rate)
    case SetPaymentMethod(paymentMethod) => state.(paymentMethod := paymentMethod)
    case SetAmountPaid(amount) => state.(amountPaid := amount)
    case SetNotes(notes) => state.(notes := notes)
    case ClearCart => InitialState(envTaxRate)
  }

  /** Dispatching a sequence of actions in order. */
  function Run(state: CartState, actions: seq<CartAction>, envTaxRate: real): CartState
    decreases |actions|
  {
    if actions == [] then state
    else Run(Reduce(state, actions[0], envTaxRate), actions[1..], envTaxRate)
  }

  // ---------------------------------------------------------------------
  // The cart invariant
  // ---------------------------------------------------------------------

  /** No two lines share a `product_id`. */
  predicate UniqueProducts(items: seq<CartItem>) {
    forall i, j :: 0 <= i < j < |items| ==> items[i].productId != items[j].productId
  }

  /** Every line holds between 1 and `max_stock` units. */
  predicate QuantitiesInStock(items: seq<CartItem>) {
    forall i :: 0 <= i < |items| ==> 1 <= items[i].quantity <= items[i].maxStock
  }

  predicate Valid(state: CartState) {
    UniqueProducts(state.items) && QuantitiesInStock(state.items)
  }

  /** What the product grid dispatches: an ADD_ITEM payload holds between 1
      and `max_stock` units (it sends 1 unit of an in-stock product). */
  predicate WellFormed(action: CartAction) {
    action.AddItem? ==> 1 <= action.item.quantity <= action.item.maxStock
  }

  lemma {:induction false} WithoutMembers(items: seq<CartItem>, productId: int)
    ensures forall x :: x in Without(items, productId) <==> x in items && x.productId != productId
    decreases |items|
  {
    if items != [] {
      WithoutMembers(items[1..], productId);
      assert items == [items[0]] + items[1..];
    }
  }

  lemma {:induction false} WithoutUnique(items: seq<CartItem>, productId: int)
    requires UniqueProducts(items)
    ensures UniqueProducts(Without(items, productId))
    decreases |items|
  {
    if items != [] {
      WithoutUnique(items[1..], productId);
      WithoutMembers(items[1..], productId);
      var rest := Without(items[1..], productId);
      if items[0].productId != productId {
        forall x | x in rest ensures x.productId != items[0].productId {
          var k :| 0 <= k < |items[1..]| && items[1..][k] == x;
          assert items[k + 1] == x;
        }
        assert Without(items, productId) == [items[0]] + rest;
      }
    }
  }

  /** REMOVE_ITEM on a cart without duplicate products deletes exactly the
      one matching line (or nothing) and keeps the others in order. */
  lemma {:induction false} WithoutDeletesLine(items: seq<CartItem>, productId: int, k: int)
    requires UniqueProducts(items)
    requires 0 <= k < |items| && items[k].productId == productId
    ensures Without(items, productId) == items[..k] + items[k + 1..]
    decreases |items|
  {
    if k == 0 {
      WithoutNoMatch(items[1..], productId);
      assert items[..0] + items[1..] == items[1..];
    } else {
      WithoutDeletesLine(items[1..], productId, k - 1);
      assert items[1..][..k - 1] + items[1..][k..] == items[1..k] + items[k + 1..];
      assert items[..k] + items[k + 1..] == [items[0]] + (items[1..k] + items[k + 1..]);
    }
  }

  lemma {:induction false} WithoutNoMatch(items: seq<CartItem>, productId: int)
    requires !HasProduct(items, productId)
    ensures Without(items, productId) == items
    decreases |items|
  {
    if items != [] {
      forall i | 0 <= i < |items[1..]| ensures items[1..][i].productId != productId {
        assert items[1..][i] == items[i + 1];
      }
      WithoutNoMatch(items[1..], productId);
      assert items == [items[0]] + items[1..];
    }
  }

  lemma WithoutValid(items: seq<CartItem>, productId: int)
    requires UniqueProducts(items) && QuantitiesInStock(items)
    ensures UniqueProducts(Without(items, productId)) && QuantitiesInStock(Without(items, productId))
  {
    WithoutUnique(items, productId);
    WithoutMembers(items, productId);
    var r := Without(items, productId);
    forall i | 0 <= i < |r| ensures 1 <= r[i].quantity <= r[i].maxStock {
      assert r[i] in items;
      var j :| 0 <= j < |items| && items[j] == r[i];
    }
  }

  lemma AddItemValid(state: CartState, item: CartItem, envTaxRate: real)
    requires Valid(state)
    requires 1 <= item.quantity <= item.maxStock
    ensures Valid(Reduce(state, AddItem(item), envTaxRate))
  {
    var items := state.items;
    match Find(items, item.productId) {
      case Some(existing) =>
        var k :| 0 <= k < |items| && items[k] == existing && existing.productId == item.productId;
        MergeValid(items, k, item.quantity);
        var r := WithQuantity(items, item.productId, MinInt(existing.quantity + item.quantity, existing.maxStock));
        assert Reduce(state, AddItem(item), envTaxRate) == state.(items := r);
      case None =>
        AppendValid(items, item);
        assert Reduce(state, AddItem(item), envTaxRate) == state.(items := items + [item]);
    }
  }

  /** Raising the line at `k` to `min(quantity + added, max_stock)` keeps
      the lines valid. */
  lemma MergeValid(items: seq<CartItem>, k: int, added: int)
    requires UniqueProducts(items) && QuantitiesInStock(items)
    requires 0 <= k < |items| && added >= 1
    ensures var r := WithQuantity(items, items[k].productId,
                                  MinInt(items[k].quantity + added, items[k].maxStock));
      UniqueProducts(r) && QuantitiesInStock(r)
  {
    var existing := items[k];
    var r := WithQuantity(items, existing.productId, MinInt(existing.quantity + added, existing.maxStock));
    forall i | 0 <= i < |r| ensures 1 <= r[i].quantity <= r[i].maxStock {
      if items[i].productId == existing.productId {
        assert i == k;
      }
    }
    forall i, j | 0 <= i < j < |r| ensures r[i].productId != r[j].productId {
      assert r[i].productId == items[i].productId && r[j].productId == items[j].productId;
    }
  }

  /** Appending a line for a product not yet in the cart keeps the lines
      valid. */
  lemma AppendValid(items: seq<CartItem>, item: CartItem)
    requires UniqueProducts(items) && QuantitiesInStock(items)
    requires !HasProduct(items, item.productId)
    requires 1 <= item.quantity <= item.maxStock
    ensures UniqueProducts(items + [item]) && QuantitiesInStock(items + [item])
  {
    forall i, j | 0 <= i < j < |items + [item]|
      ensures (items + [item])[i].productId != (items + [item])[j].productId
    {
      if j == |items| {
        assert items[i].productId != item.productId;
      }
    }
  }

  /** Every well-formed action keeps the cart free of duplicate products and
      every line within 1..max_stock. */
  lemma ReducePreservesValid(state: CartState, action: CartAction, envTaxRate: real)
    requires Valid(state) && WellFormed(action)
    ensures Valid(Reduce(state, action, envTaxRate))
  {
    var items := state.items;
    match action
    case AddItem(item) =>
      AddItemValid(state, item, envTaxRate);
    case RemoveItem(productId) =>
      WithoutValid(items, productId);
    case UpdateQuantity(productId, quantity) =>
      if quantity <= 0 {
        WithoutValid(items, productId);
      }
    case UpdateItemDiscount(_, _) =>
    case SetCustomer(_) =>
    case SetDiscount(_, _) =>
    case SetTaxRate(_) =>
    case SetPaymentMethod(_) =>
    case SetAmountPaid(_) =>
    case SetNotes(_) =>
    case ClearCart =>
  }

  /** Every cart reachable from the initial state by well-formed actions is
      valid. */
  lemma {:induction false} RunPreservesValid(state: CartState, actions: seq<CartAction>, envTaxRate: real)
    requires Valid(state)
    requires forall a :: a in actions ==> WellFormed(a)
    ensures Valid(Run(state, actions, envTaxRate))
    decreases |actions|
  {
    if actions != [] {
      ReducePreservesValid(state, actions[0], envTaxRate);
      RunPreservesValid(Reduce(state, actions[0], envTaxRate), actions[1..], envTaxRate);
    }
  }

  lemma ReachableCartsAreValid(actions: seq<CartAction>, envTaxRate: real)
    requires forall a :: a in actions ==> WellFormed(a)
    ensures Valid(Run(InitialState(envTaxRate), actions, envTaxRate))
  {
    RunPreservesValid(InitialState(envTaxRate), actions, envTaxRate);
  }

  // ---------------------------------------------------------------------
  // What each action does
  // ---------------------------------------------------------------------

  /** ADD_ITEM of a product already in the cart adds no line: that line's
      quantity becomes `min(old + added, max_stock)` and nothing else moves. */
  lemma AddExistingMerges(state: CartState, item: CartItem, k: int, envTaxRate: real)
    requires UniqueProducts(state.items)
    requires 0 <= k < |state.items| && state.items[k].productId == item.productId
    ensures var after := Reduce(state, AddItem(item), envTaxRate).items;
      && |after| == |state.items|
      && after[k] == state.items[k].(quantity :=
           MinInt(state.items[k].quantity + item.quantity, state.items[k].maxStock))
      && (forall j :: 0 <= j < |after| && j != k ==> after[j] == state.items[j])
  {
    var existing := Find(state.items, item.productId).value;
    var i :| 0 <= i < |state.items| && state.items[i] == existing && existing.productId == item.productId;
    assert i == k;
  }

  /** ADD_ITEM of a new product appends the payload at the end. */
  lemma AddNewAppends(state: CartState, item: CartItem, envTaxRate: real)
    requires !HasProduct(state.items, item.productId)
    ensures Reduce(state, AddItem(item), envTaxRate).items == state.items + [item]
  {
  }

  /** UPDATE_QUANTITY with a positive quantity sets the matching line to
      `min(quantity, max_stock)`; with 0 or less it removes the line. */
  lemma UpdateQuantityEffect(state: CartState, productId: int, quantity: int, k: int, envTaxRate: real)
    requires UniqueProducts(state.items)
    requires 0 <= k < |state.items| && state.items[k].productId == productId
    ensures var after := Reduce(state, UpdateQuantity(productId, quantity), envTaxRate).items;
      if quantity <= 0 then
        after == state.items[..k] + state.items[k + 1..]
      else
        && |after| == |state.items|
        && after[k] == state.items[k].(quantity := MinInt(quantity, state.items[k].maxStock))
        && (forall j :: 0 <= j < |after| && j != k ==> after[j] == state.items[j])
  {
    if quantity <= 0 {
      WithoutDeletesLine(state.items, productId, k);
    }
  }

  /** REMOVE_ITEM deletes the matching line and keeps the rest in order. */
  lemma RemoveItemEffect(state: CartState, productId: int, envTaxRate: real)
    requires UniqueProducts(state.items)
    ensures var after := Reduce(state, RemoveItem(productId), envTaxRate).items;
      && !HasProduct(after, productId)
      && (forall k :: 0 <= k < |state.items| && state.items[k].productId == productId ==>
            after == state.items[..k] + state.items[k + 1..])
      && (!HasProduct(state.items, productId) ==> after == state.items)
  {
    var after := Without(state.items, productId);
    WithoutMembers(state.items, productId);
    forall i | 0 <= i < |after| ensures after[i].productId != productId {
      assert after[i] in after;
    }
    forall k | 0 <= k < |state.items| && state.items[k].productId == productId
      ensures after == state.items[..k] + state.items[k + 1..]
    {
      WithoutDeletesLine(state.items, productId, k);
    }
    if !HasProduct(state.items, productId) {
      WithoutNoMatch(state.items, productId);
    }
  }

  /** The setters and UPDATE_ITEM_DISCOUNT leave the list of products and
      quantities alone, and each changes only its own field, to the payload;
      CLEAR_CART returns exactly the initial state. */
  lemma SettersKeepLines(state: CartState, action: CartAction, envTaxRate: real)
    requires !action.AddItem? && !action.RemoveItem? && !action.UpdateQuantity? && !action.ClearCart?
    ensures var after := Reduce(state, action, envTaxRate);
      && |after.items| == |state.items|
      && (forall i :: 0 <= i < |after.items| ==>
            after.items[i] == state.items[i].(discount := after.items[i].discount))
      && (!action.UpdateItemDiscount? ==> after.items == state.items)
    ensures action.UpdateItemDiscount? ==>
      Reduce(state, action, envTaxRate) == state.(items := WithDiscount(state.items, action.productId, action.discount))
    ensures action.SetCustomer? ==> Reduce(state, action, envTaxRate) == state.(customerId := action.customerId)
    ensures action.SetDiscount? ==>
      Reduce(state, action, envTaxRate) == state.(discountType := action.discountType, discountValue := action.value)
    ensures action.SetTaxRate? ==> Reduce(state, action, envTaxRate) == state.(taxRate := action.rate)
    ensures action.SetPaymentMethod? ==> Reduce(state, action, envTaxRate) == state.(paymentMethod := action.paymentMethod)
    ensures action.SetAmountPaid? ==> Reduce(state, action, envTaxRate) == state.(amountPaid := action.amount)
    ensures action.SetNotes? ==> Reduce(state, action, envTaxRate) == state.(notes := action.notes)
    ensures Reduce(state, ClearCart, envTaxRate) == InitialState(envTaxRate)
  {
  }

  // ---------------------------------------------------------------------
  // Totals
  // ---------------------------------------------------------------------

  /** `Math.max(0, unit_price * quantity - discount)`. */
  function LineTotal(item: CartItem): real
  {
    Max(0.0, item.unitPrice * (item.quantity as real) - item.discount)
  }

  /** The subtotal: the sum of the floored line totals. */
  function Subtotal(items: seq<CartItem>): (s: real)
    ensures s >= 0.0
    decreases |items|
  {
    if items == [] then 0.0 else LineTotal(items[0]) + Subtotal(items[1..])
  }

  /** `itemCount`: the sum of the quantities. */
  function ItemCount(items: seq<CartItem>): int
    decreases |items|
  {
    if items == [] then 0 else items[0].quantity + ItemCount(items[1..])
  }

  /** The cart-level discount: only when `discount_value > 0`. */
  function CartDiscount(subtotal: real, discountType: Option<DiscountType>, value: real): real
  {
    if discountType == Some(Percentage) && value > 0.0 then subtotal * value / 100.0
    else if discountType == Some(Fixed) && value > 0.0 then value
    else 0.0
  }

  datatype CartTotals = CartTotals(
    subtotal: real,
    discountAmount: real,
    taxAmount: real,
    grandTotal: real,
    changeAmount: real,
    itemCount: int)

  /** `calculateCartTotals(state)`. */
  function CalculateCartTotals(state: CartState): (t: CartTotals)
    ensures t.subtotal == Subtotal(state.items) && t.itemCount == ItemCount(state.items)
    ensures t.discountAmount == CartDiscount(t.subtotal, state.discountType, state.discountValue)
    ensures t.taxAmount == Max(0.0, t.subtotal - t.discountAmount) * state.taxRate / 100.0
    ensures t.subtotal >= 0.0 && t.discountAmount >= 0.0 && t.changeAmount >= 0.0
    ensures t.grandTotal == Max(0.0, t.subtotal - t.discountAmount) * (1.0 + state.taxRate / 100.0)
    ensures state.taxRate >= 0.0 ==> t.grandTotal >= 0.0
    ensures state.amountPaid >= t.grandTotal ==> t.grandTotal + t.changeAmount == state.amountPaid
    ensures state.amountPaid <= t.grandTotal ==> t.changeAmount == 0.0
  {
    var subtotal := Subtotal(state.items);
    var discountAmount := CartDiscount(subtotal, state.discountType, state.discountValue);
    var taxableAmount := Max(0.0, subtotal - discountAmount);
    var taxAmount := taxableAmount * state.taxRate / 100.0;
    var grandTotal := taxableAmount + taxAmount;
    var changeAmount := Max(0.0, state.amountPaid - grandTotal);
    CartTotals(subtotal, discountAmount, taxAmount, grandTotal, changeAmount, ItemCount(state.items))
  }

  lemma {:induction false} SubtotalAppend(a: seq<CartItem>, b: seq<CartItem>)
    ensures Subtotal(a + b) == Subtotal(a) + Subtotal(b)
    decreases |a|
  {
    if a == [] {
      assert a + b == b;
    } else {
      assert (a + b)[1..] == a[1..] + b;
      SubtotalAppend(a[1..], b);
    }
  }

  /** Adding a product the cart does not hold, an empty cart included,
      raises the subtotal by that line's total. */
  lemma SubtotalAfterAdd(state: CartState, item: CartItem, envTaxRate: real)
    requires !HasProduct(state.items, item.productId)
    ensures Subtotal(Reduce(state, AddItem(item), envTaxRate).items) == Subtotal(state.items) + LineTotal(item)
  {
    AddNewAppends(state, item, envTaxRate);
    SubtotalAppend(state.items, [item]);
  }

  /** Removing a line lowers the subtotal by exactly that line's total. */
  lemma SubtotalAfterRemove(state: CartState, k: int, envTaxRate: real)
    requires UniqueProducts(state.items)
    requires 0 <= k < |state.items|
    ensures Subtotal(Reduce(state, RemoveItem(state.items[k].productId), envTaxRate).items)
            == Subtotal(state.items) - LineTotal(state.items[k])
  {
    WithoutDeletesLine(state.items, state.items[k].productId, k);
    SubtotalAppend(state.items[..k], state.items[k + 1..]);
    SubtotalAppend(state.items[..k], [state.items[k]] + state.items[k + 1..]);
    SubtotalAppend([state.items[k]], state.items[k + 1..]);
    assert state.items == state.items[..k] + ([state.items[k]] + state.items[k + 1..]);
  }

  /** In a valid cart every line counts at least once. */
  lemma {:induction false} ItemCountAtLeastLines(items: seq<CartItem>)
    requires QuantitiesInStock(items)
    ensures ItemCount(items) >= |items|
    decreases |items|
  {
    if items != [] {
      assert QuantitiesInStock(items[1..]) by {
        forall i | 0 <= i < |items[1..]| ensures 1 <= items[1..][i].quantity {
          assert items[1..][i] == items[i + 1];
        }
      }
      ItemCountAtLeastLines(items[1..]);
    }
  }

  /** A percentage of at most 100 never discounts more than the subtotal,
      and a discount at or above the subtotal brings the grand total to 0. */
  lemma DiscountBounds(state: CartState)
    ensures state.discountType == Some(Percentage) && state.discountValue <= 100.0 ==>
      CalculateCartTotals(state).discountAmount <= CalculateCartTotals(state).subtotal
    ensures CalculateCartTotals(state).discountAmount >= CalculateCartTotals(state).subtotal ==>
      CalculateCartTotals(state).grandTotal == 0.0
  {
    var t := CalculateCartTotals(state);
    var subtotal := Subtotal(state.items);
    assert t.subtotal == subtotal && subtotal >= 0.0;
    assert t.discountAmount == CartDiscount(subtotal, state.discountType, state.discountValue);
    if state.discountType == Some(Percentage) && state.discountValue <= 100.0 {
      PercentageAtMostWhole(subtotal, state.discountValue);
    }
    if t.discountAmount >= t.subtotal {
      assert Max(0.0, t.subtotal - t.discountAmount) == 0.0;
    }
  }

  /** Without a discount type, or with a discount value of 0 or less, no
      discount is taken and the grand total is the taxed subtotal. */
  lemma NonPositiveDiscountIgnored(state: CartState)
    requires state.discountType.None? || state.discountValue <= 0.0
    ensures CalculateCartTotals(state).discountAmount == 0.0
    ensures CalculateCartTotals(state).grandTotal ==
      CalculateCartTotals(state).subtotal * (1.0 + state.taxRate / 100.0)
  {
    var t := CalculateCartTotals(state);
    assert t.discountAmount == CartDiscount(t.subtotal, state.discountType, state.discountValue) == 0.0;
    assert Max(0.0, t.subtotal - t.discountAmount) == t.subtotal;
  }

  lemma PercentageAtMostWhole(subtotal: real, percent: real)
    requires subtotal >= 0.0 && percent <= 100.0
    ensures 0.0 <= CartDiscount(subtotal, Some(Percentage), percent) <= subtotal
  {
    if percent > 0.0 {
      assert subtotal * percent <= subtotal * 100.0;
    }
  }
}
