/** The rows of the relational store that the core reads and writes
    (the model files under src/lib/db/models), with the column validators that Sequelize runs
    before every insert and update. A validator that fails makes the write
    throw a `SequelizeValidationError` carrying the message below. */
module Models {
  import opened Wrappers
  import opened Types

  /** A live product row; soft-deleted products are not in the map. */
  datatype ProductRow = ProductRow(
    name: string,
    sku: string,
    price: real,
    stock: int,
    lowStockThreshold: int,
    active: bool)

  /** A customer row. Soft-deleted rows stay in the table (paranoid delete):
      a foreign key may still point at them, but lookups skip them. */
  datatype CustomerRow = CustomerRow(name: string, loyaltyPoints: int, deleted: bool)

  /** One line of a sale: a snapshot of the product at the time of sale. */
  datatype SaleItemRow = SaleItemRow(
    productId: int,
    productName: string,
    productSku: string,
    quantity: int,
    unitPrice: real,
    discount: real,
    total: real)

  /** A sale together with the items it owns. */
  datatype SaleRow = SaleRow(
    invoiceNumber: string,
    userId: int,
    customerId: Option<int>,
    subtotal: real,
    discountAmount: real,
    discountType: Option<DiscountType>,
    discountValue: real,
    taxRate: real,
    taxAmount: real,
    grandTotal: real,
    amountPaid: real,
    changeAmount: real,
    paymentMethod: PaymentMethod,
    notes: Option<string>,
    status: SaleStatus,
    items: seq<SaleItemRow>)

  /** A user row; the password hash is not modelled. */
  datatype UserRow = UserRow(id: int, name: string, email: string, role: string, deleted: bool)

  /** `stock_quantity` validator: `min: 0`. */
  predicate StockValid(p: ProductRow) { p.stock >= 0 }

  /** `quantity` validator of a sale item: `min: 1`. */
  predicate SaleItemValid(i: SaleItemRow) { i.quantity >= 1 }

  /** `loyalty_points` validator: `min: 0`. */
  predicate LoyaltyValid(c: CustomerRow) { c.loyaltyPoints >= 0 }

  const StockMessage := "Stock quantity cannot be negative"
  const QuantityMessage := "Quantity must be at least 1"
  const LoyaltyMessage := "Loyalty points cannot be negative"
}
