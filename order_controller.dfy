/** server/controllers/orderController.js: placing a single-product order
    (stock check, stock decrement, order append) and listing orders. */
module OrderController {
  import opened Common
  import opened Models
  import opened Database

  /** `addOrder`. The requester is the authenticated user, not a body field;
      `total` is the client's figure, stored as `totalPrice` unchecked; the
      clock reading `now` becomes `orderDate`; `orderSaved` is whether the
      database accepted the new order. Neither `isDeleted` nor the sign of
      `quantity` is checked. The product is saved before the order, so a
      failed order save leaves the stock decremented. */
  method AddOrder(db: Store, requester: Id, productId: Id, quantity: int, total: int,
                  now: int, orderSaved: bool) returns (status: Status)
    requires db.Valid()
    modifies db
    ensures db.Valid()
    ensures db.categories == old(db.categories) && db.suppliers == old(db.suppliers)
    ensures db.users == old(db.users) && db.nextId == old(db.nextId)
    ensures productId !in old(db.products) ==>
      status == NotFound && db.products == old(db.products) && db.orders == old(db.orders)
    ensures productId in old(db.products) && quantity > old(db.products)[productId].stock ==>
      status == InsufficientStock && db.products == old(db.products) && db.orders == old(db.orders)
    ensures productId in old(db.products) && quantity <= old(db.products)[productId].stock ==>
      var p := old(db.products)[productId];
      var decremented := p.(stock := p.stock - quantity);
      if !ValidProduct(decremented) then
        // product.save() validates every path and rejects the document
        status == ServerError && db.products == old(db.products) && db.orders == old(db.orders)
      else
        && db.products == old(db.products)[productId := decremented]
        && decremented.stock >= 0
        && if orderSaved then
             status == Ok && db.orders == old(db.orders) + [Order(requester, productId, quantity, total, now)]
           else
             status == ServerError && db.orders == old(db.orders)
  {
    if productId !in db.products {
      return NotFound;
    }
    var product := db.products[productId];
    if quantity > product.stock {
      return InsufficientStock;
    }
    product := product.(stock := product.stock - quantity);
    if !ValidProduct(product) {
      return ServerError;
    }
    db.products := db.products[productId := product];
    if !orderSaved {
      return ServerError;
    }
    db.orders := db.orders + [Order(requester, productId, quantity, total, now)];
    status := Ok;
  }

  // ---------------------------------------------------------------- listing

  /** The orders whose `user` is `id`, in their stored order. */
  function OrdersOf(orders: seq<Order>, id: Id): (r: seq<Order>)
    ensures |r| <= |orders|
    ensures forall o: Order :: o.user == id ==> multiset(r)[o] == multiset(orders)[o]
    ensures forall o: Order :: o.user != id ==> multiset(r)[o] == 0
  {
    if orders == [] then []
    else
      var rest := OrdersOf(orders[1..], id);
      assert orders == [orders[0]] + orders[1..];
      if orders[0].user == id then [orders[0]] + rest else rest
  }

  /** The query `getOrders` builds: a "user" sees the orders whose user is
      the path id; any other role sees every order. */
  function VisibleOrders(orders: seq<Order>, role: Role, pathId: Id): (r: seq<Order>)
    ensures role == UserRole ==> forall o :: o in r <==> o in orders && o.user == pathId
    ensures role != UserRole ==> r == orders
  {
    if role == UserRole then OrdersOf(orders, pathId) else orders
  }

  /** `sort({ orderDate: -1 })`. */
  ghost predicate NewestFirst(s: seq<Order>)
  {
    forall i, j :: 0 <= i < j < |s| ==> s[i].orderDate >= s[j].orderDate
  }

  function Insert(o: Order, s: seq<Order>): (r: seq<Order>)
    requires NewestFirst(s)
    ensures NewestFirst(r)
    ensures multiset(r) == multiset(s) + multiset{o}
    ensures r[0] == o || (s != [] && r[0] == s[0])
  {
    if s == [] then [o]
    else if o.orderDate >= s[0].orderDate then [o] + s
    else
      assert s == [s[0]] + s[1..];
      [s[0]] + Insert(o, s[1..])
  }

  function SortNewestFirst(s: seq<Order>): (r: seq<Order>)
    ensures NewestFirst(r)
    ensures multiset(r) == multiset(s)
  {
    if s == [] then []
    else
      assert s == [s[0]] + s[1..];
      Insert(s[0], SortNewestFirst(s[1..]))
  }

  /** `getOrders`: the visible orders, newest first. Ties between equal
      dates are ordered by the model's sort; the database promises nothing
      about them. */
  function GetOrders(orders: seq<Order>, role: Role, pathId: Id): (r: seq<Order>)
    ensures NewestFirst(r)
    ensures multiset(r) == multiset(VisibleOrders(orders, role, pathId))
  {
    SortNewestFirst(VisibleOrders(orders, role, pathId))
  }

  /** What a "user" is shown: exactly the orders placed under the path id,
      each as often as it was stored. Whose id that is is not checked. */
  lemma UserSeesExactlyPathOrders(orders: seq<Order>, pathId: Id, o: Order)
    ensures multiset(GetOrders(orders, UserRole, pathId))[o]
         == if o.user == pathId then multiset(orders)[o] else 0
  {
  }

  /** Any other role is shown every order. */
  lemma AdminSeesAllOrders(orders: seq<Order>, pathId: Id)
    ensures multiset(GetOrders(orders, AdminRole, pathId)) == multiset(orders)
    ensures |GetOrders(orders, AdminRole, pathId)| == |orders|
  {
    var r := GetOrders(orders, AdminRole, pathId);
    assert |multiset(r)| == |multiset(orders)|;
  }

  // ------------------------------------------------ the missing ownership check

  /** `getOrders` as a reply to a request from `requester` (`req.user._id`):
      the handler never compares the requester with the path id, so a "user"
      reads whichever user's orders the path names. */
  function GetOrdersAsWritten(orders: seq<Order>, requester: Id, role: Role, pathId: Id): (r: seq<Order>)
    ensures NewestFirst(r)
    ensures role == UserRole ==> forall o :: o in r <==> o in orders && o.user == pathId
  {
    var r := GetOrders(orders, role, pathId);
    assert forall o :: o in r <==> o in multiset(r);
    r
  }

  /** User 1 asking for `/order/2` is shown user 2's order. */
  lemma {:induction false} UserReadsAnotherUsersOrders()
    ensures var o := Order(2, 7, 1, 10, 0);
      o in GetOrdersAsWritten([o], 1, UserRole, 2)
  {
    var o := Order(2, 7, 1, 10, 0);
    assert [o][1..] == [];
    assert OrdersOf([o], 2) == [o];
  }

  datatype OrdersReply = Listed(orders: seq<Order>) | Refused  // 403 { error: 'Unauthorized' }

  /** `getOrders` with the check `getUser` makes (a 403 when the requester
      is not the path id), applied to the "user" role whose query the path
      id decides: a "user" then sees exactly their own orders. */
  function GetOrdersChecked(orders: seq<Order>, requester: Id, role: Role, pathId: Id): (r: OrdersReply)
    ensures r.Refused? <==> role == UserRole && requester != pathId
    ensures r.Listed? ==> NewestFirst(r.orders)
    ensures r.Listed? && role == UserRole ==> forall o :: o in r.orders <==> o in orders && o.user == requester
    ensures r.Listed? && role != UserRole ==> multiset(r.orders) == multiset(orders)
  {
    if role == UserRole && requester != pathId then Refused
    else Listed(GetOrdersAsWritten(orders, requester, role, pathId))
  }
}
