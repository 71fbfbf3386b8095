/** The closed string unions shared by the cart and the sale records
    (src/types/index.ts). */
module Types {

  /** `discount_type: "percentage" | "fixed"`; `null` is `None` of an `Option`. */
  datatype DiscountType = Percentage | Fixed

  /** `payment_method: "cash" | "card" | "mobile"`. */
  datatype PaymentMethod = Cash | Card | Mobile

  /** `status: "completed" | "refunded" | "cancelled"`. */
  datatype SaleStatus = Completed | Refunded | Cancelled

  /** Ordered maximum and minimum, the model's `Math.max` and `Math.min`. */
  function Max(a: real, b: real): real { if a >= b then a else b }

  function MinInt(a: int, b: int): int { if a <= b then a else b }
}
