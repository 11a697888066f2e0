/** server/controllers/dashboardController.js: the read-only summary. Every
    figure is a function of the stored products, categories and orders;
    the day window is passed in instead of being read from the clock. */
module Dashboard {
  import opened Common
  import opened Models

  // -------------------------------------------------------- product figures

  /** `countDocuments()`: every product, soft-deleted ones included. */
  function TotalProducts(products: map<Id, Product>): nat
  {
    |products|
  }

  /** `$sum: '$stock'` over every product, 0 when there is none. The order
      in which the products are added up does not matter (TotalStockRemove). */
  ghost function TotalStock(products: map<Id, Product>): int
    decreases |products|
  {
    if products == map[] then 0
    else
      var k :| k in products;
      assert |(products - {k}).Keys| < |products.Keys| by {
        assert (products - {k}).Keys == products.Keys - {k};
      }
      products[k].stock + TotalStock(products - {k})
  }

  /** Any product can be taken out of the sum first. */
  lemma TotalStockRemove(products: map<Id, Product>, k: Id)
    requires k in products
    ensures TotalStock(products) == products[k].stock + TotalStock(products - {k})
    decreases |products|
  {
    var j :| j in products && TotalStock(products) == products[j].stock + TotalStock(products - {j});
    if j != k {
      assert (products - {j}).Keys == products.Keys - {j};
      assert (products - {k}).Keys == products.Keys - {k};
      TotalStockRemove(products - {j}, k);
      TotalStockRemove(products - {k}, j);
      assert products - {j} - {k} == products - {k} - {j};
    }
  }

  /** Replacing one product changes the total by the difference of their stocks. */
  lemma TotalStockUpdate(products: map<Id, Product>, k: Id, p: Product)
    requires k in products
    ensures TotalStock(products[k := p]) == TotalStock(products) - products[k].stock + p.stock
  {
    TotalStockRemove(products, k);
    TotalStockRemove(products[k := p], k);
    assert products[k := p] - {k} == products - {k};
  }

  /** `find({ stock: 0 })`: exactly the products with no stock. */
  function OutOfStock(products: map<Id, Product>): (r: map<Id, Product>)
    ensures forall id :: id in r <==> id in products && products[id].stock == 0
    ensures forall id :: id in r ==> r[id] == products[id]
  {
    map id | id in products && products[id].stock == 0 :: products[id]
  }

  /** `find({ stock: { $gt: 0, $lt: 5 } })`: exactly the products with 1 to 4
      items left, none of them out of stock. */
  function LowStock(products: map<Id, Product>): (r: map<Id, Product>)
    ensures forall id :: id in r <==> id in products && 0 < products[id].stock < 5
    ensures forall id :: id in r ==> r[id] == products[id]
    ensures r.Keys !! OutOfStock(products).Keys
  {
    map id | id in products && 0 < products[id].stock < 5 :: products[id]
  }

  // ---------------------------------------------------------- order figures

  /** `countDocuments({ orderDate: { $gte: startOfDay, $lte: endOfDay } })`:
      both bounds are inclusive. */
  function OrdersToday(orders: seq<Order>, startOfDay: int, endOfDay: int): (n: nat)
    ensures n <= |orders|
  {
    if orders == [] then 0
    else (if startOfDay <= orders[0].orderDate <= endOfDay then 1 else 0)
         + OrdersToday(orders[1..], startOfDay, endOfDay)
  }

  /** `$sum: '$totalPrice'` over every order ever placed, not only today's. */
  function Revenue(orders: seq<Order>): int
  {
    if orders == [] then 0 else orders[0].totalPrice + Revenue(orders[1..])
  }

  /** `$group: { _id: '$product', totalQuantity: { $sum: '$quantity' } }` for one product. */
  function QuantitySold(orders: seq<Order>, product: Id): int
  {
    if orders == [] then 0
    else (if orders[0].product == product then orders[0].quantity else 0) + QuantitySold(orders[1..], product)
  }

  lemma {:induction false} OrdersTodayAppend(orders: seq<Order>, o: Order, startOfDay: int, endOfDay: int)
    ensures OrdersToday(orders + [o], startOfDay, endOfDay)
         == OrdersToday(orders, startOfDay, endOfDay) + (if startOfDay <= o.orderDate <= endOfDay then 1 else 0)
  {
    if orders != [] {
      assert (orders + [o])[1..] == orders[1..] + [o];
      OrdersTodayAppend(orders[1..], o, startOfDay, endOfDay);
    }
  }

  lemma {:induction false} RevenueAppend(orders: seq<Order>, o: Order)
    ensures Revenue(orders + [o]) == Revenue(orders) + o.totalPrice
  {
    if orders != [] {
      assert (orders + [o])[1..] == orders[1..] + [o];
      RevenueAppend(orders[1..], o);
    }
  }

  lemma {:induction false} QuantitySoldAppend(orders: seq<Order>, o: Order, product: Id)
    ensures QuantitySold(orders + [o], product)
         == QuantitySold(orders, product) + (if o.product == product then o.quantity else 0)
  {
    if orders != [] {
      assert (orders + [o])[1..] == orders[1..] + [o];
      QuantitySoldAppend(orders[1..], o, product);
    }
  }

  // ------------------------------------------------------ best-selling product

  function ProductsOrdered(orders: seq<Order>): set<Id>
  {
    set i | 0 <= i < |orders| :: orders[i].product
  }

  /** The `$sort: { totalQuantity: -1 }, $limit: 1` stage, scanning the groups
      from position `i` on; the first of several tied groups is kept. */
  function BestFrom(orders: seq<Order>, i: nat, best: Id, bestQty: int): (r: (Id, int))
    requires i <= |orders|
    requires best in ProductsOrdered(orders) && bestQty == QuantitySold(orders, best)
    requires forall j :: 0 <= j < i ==> QuantitySold(orders, orders[j].product) <= bestQty
    ensures r.0 in ProductsOrdered(orders) && r.1 == QuantitySold(orders, r.0)
    ensures forall j :: 0 <= j < |orders| ==> QuantitySold(orders, orders[j].product) <= r.1
    decreases |orders| - i
  {
    if i == |orders| then (best, bestQty)
    else
      var qty := QuantitySold(orders, orders[i].product);
      if qty > bestQty then BestFrom(orders, i + 1, orders[i].product, qty)
      else BestFrom(orders, i + 1, best, bestQty)
  }

  /** The group with the largest summed quantity, None when there is no order. */
  function TopSeller(orders: seq<Order>): (r: Option<(Id, int)>)
    ensures r.None? <==> orders == []
    ensures r.Some? ==> r.value.0 in ProductsOrdered(orders) && r.value.1 == QuantitySold(orders, r.value.0)
    ensures r.Some? ==> forall o :: o in orders ==> QuantitySold(orders, o.product) <= r.value.1
  {
    if orders == [] then None
    else Some(BestFrom(orders, 1, orders[0].product, QuantitySold(orders, orders[0].product)))
  }

  datatype HighestSale =
    | NoSalesData  // { message: 'No sales data available' }
    | TopProduct(productId: Id, name: string, category: string, totalQuantity: int)

  /** `highestSaleProduct`. The top group is joined with its product and that
      product's category; `$unwind` drops the row when either is missing,
      and then the sentinel is answered even though orders exist. */
  function HighestSaleProduct(orders: seq<Order>, products: map<Id, Product>,
                              categories: map<Id, Category>): (r: HighestSale)
    ensures orders == [] ==> r == NoSalesData
    ensures r.TopProduct? ==>
      && r.productId in products && r.name == products[r.productId].name
      && products[r.productId].category in categories
      && r.category == categories[products[r.productId].category].name
      && r.totalQuantity == QuantitySold(orders, r.productId)
      && forall o :: o in orders ==> QuantitySold(orders, o.product) <= r.totalQuantity
    ensures orders != [] && (forall o :: o in orders ==> o.product in products && products[o.product].category in categories)
      ==> r.TopProduct?
  {
    match TopSeller(orders)
    case None => NoSalesData
    case Some((pid, qty)) =>
      if pid in products && products[pid].category in categories then
        TopProduct(pid, products[pid].name, categories[products[pid].category].name, qty)
      else NoSalesData
  }

  // ------------------------------------------------------------- the summary

  datatype Summary = Summary(
    totalProducts: nat,
    totalStock: int,
    ordersToday: nat,
    revenue: int,
    outOfStock: map<Id, Product>,
    highestSaleProduct: HighestSale,
    lowStock: map<Id, Product>)

  /** `getSummary`: a function of the collections, so reading it changes nothing. */
  ghost function GetSummary(products: map<Id, Product>, categories: map<Id, Category>, orders: seq<Order>,
                            startOfDay: int, endOfDay: int): (s: Summary)
    ensures s.totalProducts == |products| && s.ordersToday <= |orders|
    ensures s.outOfStock.Keys !! s.lowStock.Keys
    ensures orders == [] ==> s.highestSaleProduct == NoSalesData && s.revenue == 0 && s.ordersToday == 0
  {
    Summary(TotalProducts(products), TotalStock(products), OrdersToday(orders, startOfDay, endOfDay),
            Revenue(orders), OutOfStock(products), HighestSaleProduct(orders, products, categories),
            LowStock(products))
  }

  // ------------------------------------- how the store's operations move it

  /** A successful order (the product decremented by `quantity`, one order
      appended) lowers the total stock by exactly `quantity`, raises the
      revenue by the client's total, counts today iff its date is in the
      window, adds `quantity` to that product's sales and leaves the product
      count alone. */
  lemma SuccessfulOrderMovesSummary(products: map<Id, Product>, orders: seq<Order>, o: Order,
                                    startOfDay: int, endOfDay: int)
    requires o.product in products
    ensures var p := products[o.product];
      var products' := products[o.product := p.(stock := p.stock - o.quantity)];
      var orders' := orders + [o];
      && TotalProducts(products') == TotalProducts(products)
      && TotalStock(products') == TotalStock(products) - o.quantity
      && Revenue(orders') == Revenue(orders) + o.totalPrice
      && OrdersToday(orders', startOfDay, endOfDay)
         == OrdersToday(orders, startOfDay, endOfDay) + (if startOfDay <= o.orderDate <= endOfDay then 1 else 0)
      && QuantitySold(orders', o.product) == QuantitySold(orders, o.product) + o.quantity
  {
    var p := products[o.product];
    TotalStockUpdate(products, o.product, p.(stock := p.stock - o.quantity));
    RevenueAppend(orders, o);
    OrdersTodayAppend(orders, o, startOfDay, endOfDay);
    QuantitySoldAppend(orders, o, o.product);
  }

  /** A soft delete hides a product from the listing but not from the
      dashboard: the product count and the total stock stay as they were. */
  lemma SoftDeleteKeepsProductFigures(products: map<Id, Product>, id: Id)
    requires id in products
    ensures var products' := products[id := products[id].(isDeleted := true)];
      && TotalProducts(products') == TotalProducts(products)
      && TotalStock(products') == TotalStock(products)
      && OutOfStock(products').Keys == OutOfStock(products).Keys
      && LowStock(products').Keys == LowStock(products).Keys
  {
    TotalStockUpdate(products, id, products[id].(isDeleted := true));
    var products' := products[id := products[id].(isDeleted := true)];
    assert products'.Keys == products.Keys;
  }
}
