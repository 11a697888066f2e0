/** frontend/src/context/StoreContext.jsx: the client-side cart. `cartItems`
    is a JavaScript object from item id to count; it is modelled as a list of
    entries with distinct keys, in the order the keys were first added, which
    is the order `for…in` visits them. The calls to the cart endpoints are
    network I/O and are not modelled. */
module StoreContext {
  import opened Common

  /** `deliveryCharge`. */
  const DeliveryCharge: int := 5

  /** A stored count: a number, or NaN once `undefined - 1` has been stored. */
  datatype Qty = Num(n: int) | NaN

  datatype Entry = Entry(id: string, qty: Qty)

  function Keys(cart: seq<Entry>): set<string>
  {
    set i | 0 <= i < |cart| :: cart[i].id
  }

  lemma KeysCons(e: Entry, rest: seq<Entry>)
    ensures Keys([e] + rest) == {e.id} + Keys(rest)
  {
    var s := [e] + rest;
    forall k | k in Keys(s) ensures k in {e.id} + Keys(rest) {
      var i :| 0 <= i < |s| && s[i].id == k;
      if i > 0 {
        assert rest[i - 1].id == k;
      }
    }
    forall k | k in Keys(rest) ensures k in Keys(s) {
      var i :| 0 <= i < |rest| && rest[i].id == k;
      assert s[i + 1].id == k;
    }
    assert s[0].id == e.id;
  }

  predicate DistinctKeys(cart: seq<Entry>)
  {
    forall i, j :: 0 <= i < j < |cart| ==> cart[i].id != cart[j].id
  }

  /** `cartItems[id]`: None stands for `undefined`. */
  function Lookup(cart: seq<Entry>, id: string): (r: Option<Qty>)
    ensures r.Some? <==> id in Keys(cart)
    ensures DistinctKeys(cart) ==> forall i :: 0 <= i < |cart| && cart[i].id == id ==> r == Some(cart[i].qty)
  {
    if cart == [] then None
    else if cart[0].id == id then Some(cart[0].qty)
    else
      KeysCons(cart[0], cart[1..]);
      assert [cart[0]] + cart[1..] == cart;
      Lookup(cart[1..], id)
  }

  /** `{ ...prev, [id]: q }`: the entry for `id` becomes `q`; an existing key
      keeps its place and a new one goes last; no other entry changes. */
  function SetQty(cart: seq<Entry>, id: string, q: Qty): (r: seq<Entry>)
    ensures Lookup(r, id) == Some(q)
    ensures forall k :: k != id ==> Lookup(r, k) == Lookup(cart, k)
    ensures Keys(r) == Keys(cart) + {id}
    ensures id !in Keys(cart) ==> r == cart + [Entry(id, q)]
    ensures id in Keys(cart) ==> |r| == |cart| && forall i :: 0 <= i < |r| ==> r[i].id == cart[i].id
    ensures DistinctKeys(cart) ==> DistinctKeys(r)
  {
    if cart == [] then [Entry(id, q)]
    else
      KeysCons(cart[0], cart[1..]);
      assert [cart[0]] + cart[1..] == cart;
      if cart[0].id == id then
        KeysCons(Entry(id, q), cart[1..]);
        [Entry(id, q)] + cart[1..]
      else
        var rest := SetQty(cart[1..], id, q);
        KeysCons(cart[0], rest);
        [cart[0]] + rest
  }

  /** The count `addToCart` stores: 1 when the current one is falsy (absent,
      0 or NaN), one more otherwise, a negative count included. */
  function Added(current: Option<Qty>): Qty
  {
    match current
    case None => Num(1)
    case Some(NaN) => Num(1)
    case Some(Num(n)) => if n == 0 then Num(1) else Num(n + 1)
  }

  /** The count `removeFromCart` stores: one less, with no lower bound;
      `undefined - 1` and `NaN - 1` are NaN. */
  function Removed(current: Option<Qty>): Qty
  {
    match current
    case None => NaN
    case Some(NaN) => NaN
    case Some(Num(n)) => Num(n - 1)
  }

  /** The count the cart code acts on: `count > 0` holds only for a positive number. */
  function PositiveCount(q: Option<Qty>): (n: nat)
    ensures n > 0 <==> q.Some? && q.value.Num? && q.value.n > 0
    ensures n > 0 ==> q == Some(Num(n))
  {
    if q.Some? && q.value.Num? && q.value.n > 0 then q.value.n else 0
  }

  /** A product of the fetched `food_list`. Its id and price are fixed; the
      `quantity` field is written by the cart page at checkout. */
  class FoodItem {
    const id: string
    const price: int
    var quantity: Option<int>

    constructor(id: string, price: int)
      ensures this.id == id && this.price == price && quantity.None?
    {
      this.id := id;
      this.price := price;
      quantity := None;
    }
  }

  /** `food_list.find((product) => product._id === id)`: the first item with that id. */
  function Find(foodList: seq<FoodItem>, id: string): (r: Option<FoodItem>)
    ensures r.None? <==> forall i :: 0 <= i < |foodList| ==> foodList[i].id != id
    ensures r.Some? ==> exists i :: 0 <= i < |foodList| && foodList[i] == r.value
                          && forall j :: 0 <= j < i ==> foodList[j].id != id
    ensures r.Some? ==> r.value.id == id
  {
    if foodList == [] then None
    else if foodList[0].id == id then Some(foodList[0])
    else
      var r := Find(foodList[1..], id);
      if r.Some? then
        assert exists i :: 0 < i < |foodList| && foodList[i] == r.value
                           && forall j :: 0 <= j < i ==> foodList[j].id != id by {
          var i :| 0 <= i < |foodList[1..]| && foodList[1..][i] == r.value
                   && forall j :: 0 <= j < i ==> foodList[1..][j].id != id;
          assert foodList[i + 1] == r.value;
          assert forall j :: 0 <= j < i + 1 ==> foodList[j].id != id by {
            forall j | 0 < j < i + 1 ensures foodList[j].id != id {
              assert foodList[j] == foodList[1..][j - 1];
            }
          }
        }
        r
      else r
  }

  /** What one cart entry adds to the total: nothing unless its count is
      positive, and nothing when no food item has that id (the TypeError
      thrown by `itemInfo.price` is caught and the entry skipped). */
  function Share(foodList: seq<FoodItem>, id: string, count: Option<Qty>): (s: int)
    ensures PositiveCount(count) == 0 ==> s == 0
    ensures Find(foodList, id).None? ==> s == 0
    ensures Find(foodList, id).Some? ==> s == Find(foodList, id).value.price * PositiveCount(count)
  {
    var n := PositiveCount(count);
    if n == 0 then 0
    else match Find(foodList, id)
      case None => 0
      case Some(item) => item.price * n
  }

  /** The value `getTotalCartAmount` computes, entry by entry in key order. */
  function TotalCartAmount(cart: seq<Entry>, foodList: seq<FoodItem>): int
  {
    if cart == [] then 0
    else Share(foodList, cart[0].id, Some(cart[0].qty)) + TotalCartAmount(cart[1..], foodList)
  }

  /** Writing one entry moves the total by that entry's new share minus its old one. */
  lemma {:induction false} TotalAfterSetQty(cart: seq<Entry>, foodList: seq<FoodItem>, id: string, q: Qty)
    requires DistinctKeys(cart)
    ensures TotalCartAmount(SetQty(cart, id, q), foodList)
         == TotalCartAmount(cart, foodList) - Share(foodList, id, Lookup(cart, id)) + Share(foodList, id, Some(q))
  {
    if cart == [] {
    } else if cart[0].id == id {
      assert SetQty(cart, id, q)[1..] == cart[1..];
    } else {
      assert SetQty(cart, id, q)[1..] == SetQty(cart[1..], id, q);
      TotalAfterSetQty(cart[1..], foodList, id, q);
    }
  }

  /** With non-negative prices, the total is never negative. */
  lemma {:induction false} TotalNonNegative(cart: seq<Entry>, foodList: seq<FoodItem>)
    requires forall i :: 0 <= i < |foodList| ==> foodList[i].price >= 0
    ensures TotalCartAmount(cart, foodList) >= 0
  {
    if cart != [] {
      TotalNonNegative(cart[1..], foodList);
    }
  }

  /** Holding only zero counts (the cart page's "cart is empty" test, true of
      an empty cart too), the cart totals 0. */
  lemma {:induction false} ZeroCountsTotalZero(cart: seq<Entry>, foodList: seq<FoodItem>)
    requires forall i :: 0 <= i < |cart| ==> cart[i].qty == Num(0)
    ensures TotalCartAmount(cart, foodList) == 0
  {
    if cart != [] {
      ZeroCountsTotalZero(cart[1..], foodList);
    }
  }

  class Context {
    var foodList: seq<FoodItem>
    var cartItems: seq<Entry>

    /** The keys of a JavaScript object are distinct. */
    ghost predicate Valid()
      reads this
    {
      DistinctKeys(cartItems)
    }

    constructor()
      ensures Valid() && foodList == [] && cartItems == []
    {
      foodList := [];
      cartItems := [];
    }

    /** `addToCart`: only the entry for `itemId` changes; it becomes 1 when
        it was absent, 0 or NaN, and one more otherwise. */
    method AddToCart(itemId: string)
      requires Valid()
      modifies this
      ensures Valid() && foodList == old(foodList)
      ensures var before := old(Lookup(cartItems, itemId));
        Lookup(cartItems, itemId) == Some(
          if before.None? || before == Some(NaN) || before == Some(Num(0)) then Num(1)
          else Num(before.value.n + 1))
      ensures forall k :: k != itemId ==> Lookup(cartItems, k) == old(Lookup(cartItems, k))
      ensures cartItems == SetQty(old(cartItems), itemId, Added(old(Lookup(cartItems, itemId))))
    {
      var current := Lookup(cartItems, itemId);
      if current.None? || current == Some(NaN) || current == Some(Num(0)) {
        cartItems := SetQty(cartItems, itemId, Num(1));
      } else {
        cartItems := SetQty(cartItems, itemId, Num(current.value.n + 1));
      }
    }

    /** `removeFromCart`: only the entry for `itemId` changes; a number
        drops by one with no lower bound, anything else becomes NaN. */
    method RemoveFromCart(itemId: string)
      requires Valid()
      modifies this
      ensures Valid() && foodList == old(foodList)
      ensures var before := old(Lookup(cartItems, itemId));
        Lookup(cartItems, itemId) == Some(
          if before.Some? && before.value.Num? then Num(before.value.n - 1) else NaN)
      ensures forall k :: k != itemId ==> Lookup(cartItems, k) == old(Lookup(cartItems, k))
      ensures cartItems == SetQty(old(cartItems), itemId, Removed(old(Lookup(cartItems, itemId))))
    {
      var current := Lookup(cartItems, itemId);
      cartItems := SetQty(cartItems, itemId, Removed(current));
    }

    /** `getTotalCartAmount`: the sum of price × count over the entries with
        a positive count and a matching food item; 0 for an empty cart. */
    method GetTotalCartAmount() returns (total: int)
      ensures total == TotalCartAmount(cartItems, foodList)
      ensures cartItems == [] ==> total == 0
    {
      total := 0;
      assert cartItems[0..] == cartItems;
      for i := 0 to |cartItems|
        invariant total + TotalCartAmount(cartItems[i..], foodList) == TotalCartAmount(cartItems, foodList)
      {
        var entry := cartItems[i];
        if entry.qty.Num? && entry.qty.n > 0 {
          var item := Find(foodList, entry.id);
          if item.Some? {
            total := total + item.value.price * entry.qty.n;
          }
        }
        assert cartItems[i..][1..] == cartItems[i + 1..];
      }
    }
  }

  /** One more of an item adds its price to its share, unless the count
      was negative (the share stays 0) or the item is not on the food list. */
  lemma ShareAfterAdd(foodList: seq<FoodItem>, id: string, before: Option<Qty>)
    ensures Share(foodList, id, Some(Added(before)))
         == Share(foodList, id, before)
            + (if Find(foodList, id).Some? && !(before.Some? && before.value.Num? && before.value.n < 0)
               then Find(foodList, id).value.price else 0)
  {
    var f := Find(foodList, id);
    if f.Some? && PositiveCount(before) > 0 {
      var n := PositiveCount(before);
      var p := f.value.price;
      assert Added(before) == Num(n + 1);
      assert p * (n + 1) == p * n + p;
    }
  }

  /** One less of an item with a positive count takes its price off its
      share; otherwise the share stays 0. */
  lemma ShareAfterRemove(foodList: seq<FoodItem>, id: string, before: Option<Qty>)
    ensures Share(foodList, id, Some(Removed(before)))
         == Share(foodList, id, before)
            - (if Find(foodList, id).Some? && PositiveCount(before) > 0 then Find(foodList, id).value.price else 0)
  {
    var f := Find(foodList, id);
    if f.Some? && PositiveCount(before) > 0 {
      var n := PositiveCount(before);
      var p := f.value.price;
      assert Removed(before) == Num(n - 1);
      assert p * (n - 1) == p * n - p;
    }
  }

  /** Adding an item that is on the food list raises the total by its price
      unless its count was negative (it then stays at or below zero); an
      item that is not on the list never changes the total. */
  lemma AddToCartMovesTotal(cart: seq<Entry>, foodList: seq<FoodItem>, id: string)
    requires DistinctKeys(cart)
    ensures var before := Lookup(cart, id);
      TotalCartAmount(SetQty(cart, id, Added(before)), foodList)
      == TotalCartAmount(cart, foodList)
         + (if Find(foodList, id).Some? && !(before.Some? && before.value.Num? && before.value.n < 0)
            then Find(foodList, id).value.price else 0)
  {
    TotalAfterSetQty(cart, foodList, id, Added(Lookup(cart, id)));
    ShareAfterAdd(foodList, id, Lookup(cart, id));
  }

  /** Removing an item with a positive count lowers the total by its price;
      removing one whose count is not positive leaves the total alone. */
  lemma RemoveFromCartMovesTotal(cart: seq<Entry>, foodList: seq<FoodItem>, id: string)
    requires DistinctKeys(cart)
    ensures var before := Lookup(cart, id);
      TotalCartAmount(SetQty(cart, id, Removed(before)), foodList)
      == TotalCartAmount(cart, foodList)
         - (if Find(foodList, id).Some? && PositiveCount(before) > 0 then Find(foodList, id).value.price else 0)
  {
    TotalAfterSetQty(cart, foodList, id, Removed(Lookup(cart, id)));
    ShareAfterRemove(foodList, id, Lookup(cart, id));
  }
}
