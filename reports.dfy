/** `GET /api/reports` (src/app/api/reports/route.ts): the role gate and the
    dispatch on `type`, the daily figures computed in memory over the day's
    completed sales, and the low-stock list. The queries become filters over
    the tables; the clock and the parsing of `date` enter as the start of
    the target day. */
module Reports {
  import opened Wrappers
  import opened Types
  import opened Models
  import opened ApiHelpers
  import opened Auth

  datatype ReportKind = Daily | Monthly | TopProducts | LowStock

  /** `searchParams.get("type") || "daily"`: an absent or empty parameter
      selects the daily report. */
  function ReportType(typeParam: Option<string>): (t: string)
    ensures typeParam.Some? && typeParam.value != "" ==> t == typeParam.value
    ensures typeParam.None? || typeParam.value == "" ==> t == "daily"
  {
    if typeParam.Some? && typeParam.value != "" then typeParam.value else "daily"
  }

  /** The four report names the `switch` accepts. */
  function KindOf(name: string): Option<ReportKind>
  {
    if name == "daily" then Some(Daily)
    else if name == "monthly" then Some(Monthly)
    else if name == "top-products" then Some(TopProducts)
    else if name == "low-stock" then Some(LowStock)
    else None
  }

  /** Everything the handler decides before it queries: 401 without a user,
      403 unless the role is admin or manager, 400 for an unknown type. */
  function ReportGate<T>(user: Option<JwtPayload>, typeParam: Option<string>): (r: Result<ReportKind, Response<T>>)
    ensures r.Ok? <==>
      user.Some? && (user.value.role == "admin" || user.value.role == "manager") &&
      KindOf(ReportType(typeParam)).Some?
    ensures r.Ok? ==> r.value == KindOf(ReportType(typeParam)).value
    ensures r.Err? ==> !r.error.success
  {
    if user.None? then Err(ErrorResponse("Authentication required", 401))
    else if !AuthorizeRoles(["admin", "manager"], user) then Err(ErrorResponse("Insufficient permissions", 403))
    else match KindOf(ReportType(typeParam))
      case None => Err(ErrorResponse("Invalid report type. Use: daily, monthly, top-products, low-stock", 400))
      case Some(kind) => Ok(kind)
  }

  /** The gate in the order the handler applies it: a missing user is 401
      whatever the type, any other role is 403 whatever the type, and only
      then is an unknown type 400. */
  lemma ReportGateOrder<T>(user: Option<JwtPayload>, typeParam: Option<string>)
    ensures user.None? ==> ReportGate<T>(user, typeParam).Err? && ReportGate<T>(user, typeParam).error.status == 401
    ensures user.Some? && user.value.role != "admin" && user.value.role != "manager" ==>
      ReportGate<T>(user, typeParam).Err? && ReportGate<T>(user, typeParam).error.status == 403
    ensures user.Some? && (user.value.role == "admin" || user.value.role == "manager") &&
            KindOf(ReportType(typeParam)).None? ==>
      ReportGate<T>(user, typeParam).Err? && ReportGate<T>(user, typeParam).error.status == 400
  {
    if user.Some? {
      var allowed := ["admin", "manager"];
      if user.value.role == "admin" || user.value.role == "manager" {
        assert user.value.role in allowed;
      } else {
        assert user.value.role !in allowed;
        assert ReportGate<T>(user, typeParam) == Err(ErrorResponse("Insufficient permissions", 403));
      }
    }
  }

  /** A manager who names no report gets the daily one. */
  lemma ManagerDefaultsToDaily<T>(user: Option<JwtPayload>)
    requires user.Some? && user.value.role == "manager"
    ensures ReportGate<T>(user, None) == Ok(Daily)
  {
    assert AuthorizeRoles(["admin", "manager"], user);
  }

  // ---------------------------------------------------------------------
  // The daily report
  // ---------------------------------------------------------------------

  /** A sale with its `created_at`, in milliseconds. */
  datatype DatedSale = DatedSale(createdAt: int, sale: SaleRow)

  /** The last millisecond of the day: 23:59:59.999 after midnight. */
  const LastMillisecond := 86_399_999

  /** `created_at BETWEEN startOfDay AND endOfDay AND status = 'completed'`,
      both ends included; `dayStart` is the target day's midnight. */
  predicate OnDay(s: DatedSale, dayStart: int) {
    s.sale.status == Completed && dayStart <= s.createdAt <= dayStart + LastMillisecond
  }

  /** The day's completed sales; the figures do not depend on their order. */
  function DaySales(sales: seq<DatedSale>, dayStart: int): (r: seq<SaleRow>)
    ensures |r| <= |sales|
    ensures forall s :: s in r ==> s.status == Completed
    decreases |sales|
  {
    if sales == [] then []
    else
      var rest := DaySales(sales[..|sales| - 1], dayStart);
      var last := sales[|sales| - 1];
      if OnDay(last, dayStart) then rest + [last.sale] else rest
  }

  /** `sales.reduce((sum, s) => sum + grand_total, 0)`. */
  function Revenue(sales: seq<SaleRow>): real
    decreases |sales|
  {
    if sales == [] then 0.0 else Revenue(sales[..|sales| - 1]) + sales[|sales| - 1].grandTotal
  }

  /** `items.reduce((iSum, item) => iSum + item.quantity, 0)`. */
  function Quantities(items: seq<SaleItemRow>): int
    decreases |items|
  {
    if items == [] then 0 else Quantities(items[..|items| - 1]) + items[|items| - 1].quantity
  }

  /** The nested `reduce` for `totalItems`. */
  function ItemsSold(sales: seq<SaleRow>): int
    decreases |sales|
  {
    if sales == [] then 0 else ItemsSold(sales[..|sales| - 1]) + Quantities(sales[|sales| - 1].items)
  }

  datatype DailyFigures = DailyFigures(totalRevenue: real, totalSales: int, totalItems: int, averageOrderValue: real)

  /** The figures of the daily report, before `toFixed(2)`: the average is
      0 when there are no sales. */
  function DailyReport(sales: seq<DatedSale>, dayStart: int): (f: DailyFigures)
    ensures f.totalSales == |DaySales(sales, dayStart)| >= 0
    ensures f.averageOrderValue == Average(f.totalRevenue, f.totalSales)
    ensures f.totalSales == 0 ==> f.totalRevenue == 0.0 && f.totalItems == 0
  {
    var day := DaySales(sales, dayStart);
    assert |day| == 0 ==> day == [];
    DailyFigures(Revenue(day), |day|, ItemsSold(day), Average(Revenue(day), |day|))
  }

  /** `totalSales > 0 ? totalRevenue / totalSales : 0`. */
  function Average(total: real, count: int): (a: real)
    ensures count > 0 ==> a * (count as real) == total
    ensures count <= 0 ==> a == 0.0
  {
    if count > 0 then
      DivideThenMultiply(total, count as real);
      total / (count as real)
    else 0.0
  }

  lemma DivideThenMultiply(x: real, c: real)
    requires c > 0.0
    ensures (x / c) * c == x
  {
  }

  /** Recording a sale moves the day's figures by exactly that sale when it
      is a completed sale of the day, and not at all otherwise. */
  lemma DailyReportAfterSale(sales: seq<DatedSale>, s: DatedSale, dayStart: int)
    ensures var before := DailyReport(sales, dayStart);
      var after := DailyReport(sales + [s], dayStart);
      if OnDay(s, dayStart) then
        && after.totalRevenue == before.totalRevenue + s.sale.grandTotal
        && after.totalSales == before.totalSales + 1
        && after.totalItems == before.totalItems + Quantities(s.sale.items)
      else
        && after.totalRevenue == before.totalRevenue
        && after.totalSales == before.totalSales
        && after.totalItems == before.totalItems
  {
    assert (sales + [s])[..|sales + [s]| - 1] == sales;
    var day := DaySales(sales, dayStart);
    assert (day + [s.sale])[..|day + [s.sale]| - 1] == day;
  }

  /** A sale with no items contributes nothing to `totalItems`. */
  lemma ItemlessSaleAddsNoItems(sales: seq<SaleRow>, s: SaleRow)
    requires s.items == []
    ensures ItemsSold(sales + [s]) == ItemsSold(sales)
  {
    assert (sales + [s])[..|sales + [s]| - 1] == sales;
  }

  /** The day's sales are exactly the completed sales inside the window:
      every listed sale is one of them, and every one of them is listed. */
  lemma {:induction false} DaySalesExact(sales: seq<DatedSale>, dayStart: int)
    ensures forall s :: s in DaySales(sales, dayStart) ==>
      exists i :: 0 <= i < |sales| && sales[i].sale == s && OnDay(sales[i], dayStart)
    ensures forall i :: 0 <= i < |sales| && OnDay(sales[i], dayStart) ==> sales[i].sale in DaySales(sales, dayStart)
    decreases |sales|
  {
    if sales != [] {
      var n := |sales| - 1;
      var prefix := sales[..n];
      DaySalesExact(prefix, dayStart);
      forall s | s in DaySales(sales, dayStart)
        ensures exists i :: 0 <= i < |sales| && sales[i].sale == s && OnDay(sales[i], dayStart)
      {
        if s in DaySales(prefix, dayStart) {
          var i :| 0 <= i < |prefix| && prefix[i].sale == s && OnDay(prefix[i], dayStart);
          assert sales[i] == prefix[i];
        } else {
          assert sales[n].sale == s && OnDay(sales[n], dayStart);
        }
      }
      forall i | 0 <= i < |sales| && OnDay(sales[i], dayStart) ensures sales[i].sale in DaySales(sales, dayStart) {
        if i < n {
          assert prefix[i] == sales[i];
        }
      }
    }
  }

  // ---------------------------------------------------------------------
  // The low-stock report
  // ---------------------------------------------------------------------

  /** `is_active = true AND stock_quantity <= low_stock_threshold`. */
  predicate IsLowStock(p: ProductRow) {
    p.active && p.stock <= p.lowStockThreshold
  }

  function LowStockRows(products: seq<ProductRow>): (r: seq<ProductRow>)
    decreases |products|
  {
    if products == [] then []
    else
      var rest := LowStockRows(products[..|products| - 1]);
      var last := products[|products| - 1];
      if IsLowStock(last) then rest + [last] else rest
  }

  predicate SortedByStock(ps: seq<ProductRow>) {
    forall i, j :: 0 <= i < j < |ps| ==> ps[i].stock <= ps[j].stock
  }

  /** Insert `p` after every row whose stock is not above its own. */
  function InsertByStock(p: ProductRow, sorted: seq<ProductRow>): (r: seq<ProductRow>)
    ensures multiset(r) == multiset(sorted) + multiset{p}
    decreases |sorted|
  {
    if sorted == [] then [p]
    else if sorted[|sorted| - 1].stock <= p.stock then sorted + [p]
    else
      var front := sorted[..|sorted| - 1];
      assert sorted == front + [sorted[|sorted| - 1]];
      InsertByStock(p, front) + [sorted[|sorted| - 1]]
  }

  /** Inserting a row no higher than a bound into rows no higher than it
      keeps every row within the bound. */
  lemma {:induction false} InsertWithin(p: ProductRow, sorted: seq<ProductRow>, bound: int)
    requires p.stock <= bound
    requires forall i :: 0 <= i < |sorted| ==> sorted[i].stock <= bound
    ensures forall i :: 0 <= i < |InsertByStock(p, sorted)| ==> InsertByStock(p, sorted)[i].stock <= bound
    decreases |sorted|
  {
    if sorted != [] && p.stock < sorted[|sorted| - 1].stock {
      var front := sorted[..|sorted| - 1];
      InsertWithin(p, front, bound);
    }
  }

  lemma {:induction false} InsertKeepsSorted(p: ProductRow, sorted: seq<ProductRow>)
    requires SortedByStock(sorted)
    ensures SortedByStock(InsertByStock(p, sorted))
    decreases |sorted|
  {
    if sorted != [] && p.stock < sorted[|sorted| - 1].stock {
      var front := sorted[..|sorted| - 1];
      var back := sorted[|sorted| - 1];
      InsertKeepsSorted(p, front);
      InsertWithin(p, front, back.stock);
      var inserted := InsertByStock(p, front);
      assert InsertByStock(p, sorted) == inserted + [back];
    }
  }

  /** `ORDER BY stock_quantity ASC` as an insertion sort. The database fixes
      no order among equal stocks, and the contracts promise only ascending
      stock over the same rows. */
  function SortByStock(ps: seq<ProductRow>): (r: seq<ProductRow>)
    ensures multiset(r) == multiset(ps)
    decreases |ps|
  {
    if ps == [] then []
    else
      var front := ps[..|ps| - 1];
      assert ps == front + [ps[|ps| - 1]];
      InsertByStock(ps[|ps| - 1], SortByStock(front))
  }

  lemma {:induction false} SortByStockSorted(ps: seq<ProductRow>)
    ensures SortedByStock(SortByStock(ps))
    decreases |ps|
  {
    if ps != [] {
      SortByStockSorted(ps[..|ps| - 1]);
      InsertKeepsSorted(ps[|ps| - 1], SortByStock(ps[..|ps| - 1]));
    }
  }

  datatype LowStockFigures = LowStockFigures(lowStockCount: int, products: seq<ProductRow>)

  function LowStockReport(products: seq<ProductRow>): (f: LowStockFigures)
    ensures f.lowStockCount == |f.products|
    ensures SortedByStock(f.products)
    ensures multiset(f.products) == multiset(LowStockRows(products))
  {
    var rows := SortByStock(LowStockRows(products));
    SortByStockSorted(LowStockRows(products));
    LowStockFigures(|rows|, rows)
  }

  /** The filter keeps exactly the active rows at or below their threshold,
      each as often as it occurs. */
  lemma {:induction false} LowStockRowsExact(products: seq<ProductRow>, p: ProductRow)
    ensures multiset(LowStockRows(products))[p] == (if IsLowStock(p) then multiset(products)[p] else 0)
    decreases |products|
  {
    if products != [] {
      var n := |products| - 1;
      LowStockRowsExact(products[..n], p);
      assert products == products[..n] + [products[n]];
    }
  }

  /** The report lists a product exactly when it is active and at or below
      its threshold, in ascending order of stock. */
  lemma LowStockReportExact(products: seq<ProductRow>, p: ProductRow)
    ensures p in LowStockReport(products).products <==> p in products && IsLowStock(p)
  {
    LowStockRowsExact(products, p);
    assert p in LowStockReport(products).products <==> p in multiset(LowStockReport(products).products);
    assert p in products <==> p in multiset(products);
  }
}
