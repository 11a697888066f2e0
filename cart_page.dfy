/** frontend/src/pages/Cart.jsx: the rows and totals the cart page shows, and
    `placeOrder`. The POST to the order endpoint is external: `placed` is the
    `success` flag of its reply. */
module CartPage {
  import opened Common
  import opened StoreContext

  /** The food items with a positive cart count, in food-list order: the rows
      the page renders and the items `placeOrder` collects. */
  function InCart(foodList: seq<FoodItem>, cart: seq<Entry>): (r: seq<FoodItem>)
    ensures forall i :: 0 <= i < |r| ==> r[i] in foodList && PositiveCount(Lookup(cart, r[i].id)) > 0
    ensures forall i :: 0 <= i < |foodList| && PositiveCount(Lookup(cart, foodList[i].id)) > 0 ==> foodList[i] in r
    ensures |r| <= |foodList|
  {
    if foodList == [] then []
    else
      var last := foodList[|foodList| - 1];
      var init := foodList[..|foodList| - 1];
      assert foodList == init + [last];
      InCart(init, cart) + (if PositiveCount(Lookup(cart, last.id)) > 0 then [last] else [])
  }

  /** A one-item food list is rendered as that item exactly when its count
      is positive. */
  lemma InCartSingle(f: FoodItem, cart: seq<Entry>)
    ensures InCart([f], cart) == (if PositiveCount(Lookup(cart, f.id)) > 0 then [f] else [])
  {
    assert [f][..0] == [];
  }

  /** Filtering a food list is filtering its parts in turn: the rows keep
      the food-list order, and an item listed twice is rendered twice. */
  lemma {:induction false} InCartAppend(a: seq<FoodItem>, b: seq<FoodItem>, cart: seq<Entry>)
    ensures InCart(a + b, cart) == InCart(a, cart) + InCart(b, cart)
    decreases |b|
  {
    if b == [] {
      assert a + b == a;
    } else {
      var last := b[|b| - 1];
      var init := b[..|b| - 1];
      assert (a + b)[..|a + b| - 1] == a + init;
      assert (a + b)[|a + b| - 1] == last;
      InCartAppend(a, init, cart);
    }
  }

  /** The sum of the rows' line totals, `item.price * cartItems[item._id]`. */
  function RowsTotal(foodList: seq<FoodItem>, cart: seq<Entry>): int
  {
    if foodList == [] then 0
    else foodList[0].price * PositiveCount(Lookup(cart, foodList[0].id)) + RowsTotal(foodList[1..], cart)
  }

  predicate DistinctIds(foodList: seq<FoodItem>)
  {
    forall i, j :: 0 <= i < j < |foodList| ==> foodList[i].id != foodList[j].id
  }

  /** The delivery fee shown: none for a zero subtotal, `deliveryCharge` otherwise. */
  function DeliveryFee(subtotal: int): (fee: int)
    ensures fee == 0 <==> subtotal == 0
    ensures fee == 0 || fee == DeliveryCharge
  {
    if subtotal == 0 then 0 else DeliveryCharge
  }

  /** The total shown: the subtotal plus the fee shown, so 0 for a zero subtotal. */
  function DisplayedTotal(subtotal: int): (total: int)
    ensures total == subtotal + DeliveryFee(subtotal)
  {
    if subtotal == 0 then 0 else subtotal + DeliveryCharge
  }

  /** The checkout button is disabled while the subtotal is 0. */
  predicate CheckoutEnabled(subtotal: int)
  {
    subtotal != 0
  }

  datatype OrderData = OrderData(userId: string, items: seq<FoodItem>, amount: int)

  /** The count `placeOrder` writes into a food item: its positive cart
      count, or the value the field already had. */
  function QuantityAfter(cart: seq<Entry>, f: FoodItem, was: Option<int>): Option<int>
  {
    var n := PositiveCount(Lookup(cart, f.id));
    if n > 0 then Some(n) else was
  }

  /** The loop of `placeOrder` over `food_list`: the items with a positive
      count are collected in order, each with its count written into its
      `quantity` field; no other field or item changes. */
  method CollectItems(food: seq<FoodItem>, cart: seq<Entry>) returns (items: seq<FoodItem>)
    modifies food
    ensures items == InCart(food, cart)
    ensures forall f :: f in food ==> f.quantity == QuantityAfter(cart, f, old(f.quantity))
  {
    items := [];
    for i := 0 to |food|
      invariant items == InCart(food[..i], cart)
      invariant forall f :: f in food ==>
        f.quantity == (if f in food[..i] then QuantityAfter(cart, f, old(f.quantity)) else old(f.quantity))
    {
      var item := food[i];
      assert food[..i + 1] == food[..i] + [item];
      var count := PositiveCount(Lookup(cart, item.id));
      if count > 0 {
        item.quantity := Some(count);
        items := items + [item];
      }
      assert item.quantity == QuantityAfter(cart, item, old(item.quantity));
    }
    assert food[..|food|] == food;
  }

  /** `placeOrder`: the order holds the collected items and, as amount, the
      cart total plus the delivery charge; the cart is emptied only when the
      server reports success. */
  method PlaceOrder(ctx: Context, userId: string, placed: bool) returns (order: OrderData)
    requires ctx.Valid()
    modifies ctx, ctx.foodList
    ensures ctx.Valid() && ctx.foodList == old(ctx.foodList)
    ensures order.userId == userId
    ensures order.items == InCart(ctx.foodList, old(ctx.cartItems))
    ensures order.amount == TotalCartAmount(old(ctx.cartItems), ctx.foodList) + DeliveryCharge
    ensures forall f :: f in ctx.foodList ==> f.quantity == QuantityAfter(old(ctx.cartItems), f, old(f.quantity))
    ensures placed ==> ctx.cartItems == []
    ensures !placed ==> ctx.cartItems == old(ctx.cartItems)
  {
    var items := CollectItems(ctx.foodList, ctx.cartItems);
    var subtotal := ctx.GetTotalCartAmount();
    order := OrderData(userId, items, subtotal + DeliveryCharge);
    if placed {
      ctx.cartItems := [];
    }
  }

  /** What one row of the page adds up, counted through a one-entry cart. */
  lemma {:induction false} RowsSplit(foodList: seq<FoodItem>, e: Entry, rest: seq<Entry>)
    requires e.id !in Keys(rest)
    ensures RowsTotal(foodList, [e] + rest) == RowsTotal(foodList, [e]) + RowsTotal(foodList, rest)
  {
    if foodList != [] {
      var f := foodList[0];
      assert ([e] + rest)[1..] == rest;
      assert PositiveCount(Lookup([e] + rest, f.id))
          == PositiveCount(Lookup([e], f.id)) + PositiveCount(Lookup(rest, f.id));
      RowsSplit(foodList[1..], e, rest);
    }
  }

  /** With distinct food ids, the rows of a one-entry cart add up to that
      entry's share of the cart total. */
  lemma {:induction false} RowsOfOneEntry(foodList: seq<FoodItem>, e: Entry)
    requires DistinctIds(foodList)
    ensures RowsTotal(foodList, [e]) == Share(foodList, e.id, Some(e.qty))
  {
    if foodList != [] {
      RowsOfOneEntry(foodList[1..], e);
      if foodList[0].id == e.id {
        assert Find(foodList[1..], e.id).None? by {
          forall i | 0 <= i < |foodList[1..]| ensures foodList[1..][i].id != e.id {
            assert foodList[1..][i] == foodList[i + 1];
          }
        }
      }
    }
  }

  /** The rows the page shows add up to the subtotal it shows: with distinct
      food ids, the line totals `price × count` sum to `getTotalCartAmount()`
      although one sum runs in food-list order and the other in cart order. */
  lemma {:induction false} RowsAddUpToSubtotal(foodList: seq<FoodItem>, cart: seq<Entry>)
    requires DistinctIds(foodList) && DistinctKeys(cart)
    ensures RowsTotal(foodList, cart) == TotalCartAmount(cart, foodList)
  {
    if cart == [] {
      RowsOfEmptyCart(foodList);
    } else {
      var e := cart[0];
      assert cart == [e] + cart[1..];
      assert e.id !in Keys(cart[1..]) by {
        forall i | 0 <= i < |cart[1..]| ensures cart[1..][i].id != e.id {
          assert cart[1..][i] == cart[i + 1];
        }
      }
      RowsSplit(foodList, e, cart[1..]);
      RowsOfOneEntry(foodList, e);
      RowsAddUpToSubtotal(foodList, cart[1..]);
    }
  }

  lemma {:induction false} RowsOfEmptyCart(foodList: seq<FoodItem>)
    ensures RowsTotal(foodList, []) == 0
  {
    if foodList != [] {
      RowsOfEmptyCart(foodList[1..]);
    }
  }

  /** Checking out from an enabled button charges exactly the total shown,
      and the charge is the sum of the order's rows plus the delivery fee. */
  lemma CheckoutChargesDisplayedTotal(foodList: seq<FoodItem>, cart: seq<Entry>)
    requires DistinctIds(foodList) && DistinctKeys(cart)
    requires CheckoutEnabled(TotalCartAmount(cart, foodList))
    ensures TotalCartAmount(cart, foodList) + DeliveryCharge == DisplayedTotal(TotalCartAmount(cart, foodList))
    ensures TotalCartAmount(cart, foodList) + DeliveryCharge == RowsTotal(foodList, cart) + DeliveryCharge
  {
    RowsAddUpToSubtotal(foodList, cart);
  }
}
