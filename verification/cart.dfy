/** The pharmacy cart screen: its own copy of the cart lines, the quantity
    buttons, the remove button, and the price summary. Prices are integer
    cents. */
module Cart {
  import opened Common

  /** One cart line; `price` is in cents. */
  datatype CartItem = CartItem(id: string, name: string, price: int, quantity: int, prescription: bool)

  /** The three lines shown when the cart is opened with no items. */
  const DefaultItems: seq<CartItem> := [
    CartItem("1", "Paracetamol 500mg", 1299, 2, false),
    CartItem("2", "Vitamin D3 1000IU", 1575, 1, false),
    CartItem("3", "Amoxicillin 250mg", 2850, 1, true)
  ]

  /** The initial state of the screen: the given items if there are any,
      otherwise the three default lines. */
  function InitialItems(items: seq<CartItem>): (r: seq<CartItem>)
    ensures items != [] ==> r == items
    ensures items == [] ==> r == DefaultItems
    ensures r != [] && AllPositive(r) <== AllPositive(items)
  {
    if |items| > 0 then items else DefaultItems
  }

  /** Every line has a quantity of at least one. */
  predicate AllPositive(items: seq<CartItem>) {
    forall i :: 0 <= i < |items| ==> items[i].quantity > 0
  }

  /** The `map` callback of `updateQuantity`: a matching line takes the new
      quantity when it stays positive, and every other line is returned as
      it is. */
  function Bumped(item: CartItem, id: string, change: int): (r: CartItem)
    ensures r.(quantity := item.quantity) == item
    ensures r != item ==> item.id == id && r.quantity == item.quantity + change
    ensures item.quantity > 0 ==> r.quantity > 0
  {
    if item.id == id && item.quantity + change > 0 then item.(quantity := item.quantity + change)
    else item
  }

  /** The `map` of `updateQuantity` over the whole list. */
  function BumpAll(items: seq<CartItem>, id: string, change: int): (r: seq<CartItem>)
    ensures |r| == |items|
    ensures forall i :: 0 <= i < |items| ==> r[i] == Bumped(items[i], id, change)
    decreases |items|
  {
    if items == [] then [] else [Bumped(items[0], id, change)] + BumpAll(items[1..], id, change)
  }

  predicate HasPositiveQuantity(item: CartItem) {
    item.quantity > 0
  }

  /** `updateQuantity(id, change)`: map, then keep the lines whose quantity is
      positive; whatever the cart held, every line left has a positive
      quantity. */
  function WithQuantityChange(items: seq<CartItem>, id: string, change: int): (r: seq<CartItem>)
    ensures |r| <= |items|
    ensures AllPositive(r)
  {
    var r := Filter(BumpAll(items, id, change), HasPositiveQuantity);
    assert forall i :: 0 <= i < |r| ==> r[i] in r;
    r
  }

  /** A change never drives a quantity to zero or below: on a cart whose
      quantities are positive the trailing filter removes nothing, so the
      cart keeps its length and order, lines with another id are untouched,
      and a matching line changes by exactly `change` or not at all. */
  lemma QuantityChangeOnPositiveCart(items: seq<CartItem>, id: string, change: int)
    requires AllPositive(items)
    ensures WithQuantityChange(items, id, change) == BumpAll(items, id, change)
    ensures AllPositive(WithQuantityChange(items, id, change))
    ensures |WithQuantityChange(items, id, change)| == |items|
    ensures forall i :: 0 <= i < |items| && items[i].id != id
              ==> WithQuantityChange(items, id, change)[i] == items[i]
    ensures forall i :: 0 <= i < |items| && items[i].id == id
              ==> var q := WithQuantityChange(items, id, change)[i].quantity;
                  (q == items[i].quantity + change && q > 0)
                  || (q == items[i].quantity && items[i].quantity + change <= 0)
  {
    var m := BumpAll(items, id, change);
    assert forall x :: x in m ==> HasPositiveQuantity(x) by {
      forall x | x in m
        ensures HasPositiveQuantity(x)
      {
        var i :| 0 <= i < |m| && m[i] == x;
      }
    }
    FilterKeepsAll(m, HasPositiveQuantity);
  }

  /** Whatever the quantities, `updateQuantity` only drops lines whose
      quantity was already zero or below, and keeps the survivors in order. */
  lemma QuantityChangeDropsOnlyNonPositive(items: seq<CartItem>, id: string, change: int)
    ensures forall x :: x in WithQuantityChange(items, id, change)
              <==> x in BumpAll(items, id, change) && x.quantity > 0
    ensures IsSubsequence(WithQuantityChange(items, id, change), BumpAll(items, id, change))
    ensures forall i :: 0 <= i < |items| && items[i].quantity > 0
              ==> BumpAll(items, id, change)[i] in WithQuantityChange(items, id, change)
  {
  }

  /** `removeItem(id)`: drop every line with that id. */
  function Without(items: seq<CartItem>, id: string): (r: seq<CartItem>)
    ensures forall x :: x in r <==> x in items && x.id != id
    ensures IsSubsequence(r, items)
    ensures forall x {:trigger multiset(r)[x]} :: multiset(r)[x] == if x.id != id then multiset(items)[x] else 0
  {
    Filter(items, (x: CartItem) => x.id != id)
  }

  /** Removing an id that no line carries changes nothing, and removing it
      twice is removing it once. */
  lemma RemoveAbsentOrTwice(items: seq<CartItem>, id: string)
    ensures (forall i :: 0 <= i < |items| ==> items[i].id != id) ==> Without(items, id) == items
    ensures Without(Without(items, id), id) == Without(items, id)
  {
    var p := (x: CartItem) => x.id != id;
    if forall i :: 0 <= i < |items| ==> items[i].id != id {
      FilterKeepsAll(items, p);
    }
    FilterIdempotent(items, p);
  }

  /** The ids of a list of lines, in order. */
  function Ids(items: seq<CartItem>): (r: seq<string>)
    ensures |r| == |items|
    ensures forall i :: 0 <= i < |items| ==> r[i] == items[i].id
    decreases |items|
  {
    if items == [] then [] else [items[0].id] + Ids(items[1..])
  }

  /** Keeping a subsequence of the lines keeps a subsequence of their ids. */
  lemma {:induction false} SubsequenceIds(a: seq<CartItem>, b: seq<CartItem>)
    requires IsSubsequence(a, b)
    ensures IsSubsequence(Ids(a), Ids(b))
    decreases |b|
  {
    if a != [] {
      assert Ids(a)[1..] == Ids(a[1..]) && Ids(b)[1..] == Ids(b[1..]);
      if a[0] == b[0] {
        SubsequenceIds(a[1..], b[1..]);
      } else {
        SubsequenceIds(a, b[1..]);
        if Ids(a)[0] == Ids(b)[0] {
          SubsequenceDropHead(Ids(a), Ids(b[1..]));
        }
      }
    }
  }

  /** Neither button adds a line or reorders the ones that stay: the ids
      after either operation are a subsequence of the ids before. */
  lemma CartOperationsKeepOrder(items: seq<CartItem>, id: string, change: int)
    ensures IsSubsequence(Ids(WithQuantityChange(items, id, change)), Ids(items))
    ensures IsSubsequence(Ids(Without(items, id)), Ids(items))
  {
    var m := BumpAll(items, id, change);
    assert Ids(m) == Ids(items);
    SubsequenceIds(WithQuantityChange(items, id, change), m);
    SubsequenceIds(Without(items, id), items);
  }

  /** No line has a negative price or quantity. */
  predicate NoNegatives(items: seq<CartItem>) {
    forall i :: 0 <= i < |items| ==> items[i].price >= 0 && items[i].quantity >= 0
  }

  /** `subtotal`: the sum of price × quantity over the lines. */
  function Subtotal(items: seq<CartItem>): int
    decreases |items|
  {
    if items == [] then 0 else items[0].price * items[0].quantity + Subtotal(items[1..])
  }

  /** With no negative price or quantity the subtotal is never negative. */
  lemma {:induction false} SubtotalNonNegative(items: seq<CartItem>)
    requires NoNegatives(items)
    ensures Subtotal(items) >= 0
    decreases |items|
  {
    if items != [] {
      SubtotalNonNegative(items[1..]);
    }
  }

  /** The subtotal of two lists put together is the sum of their subtotals. */
  lemma {:induction false} SubtotalAppend(a: seq<CartItem>, b: seq<CartItem>)
    ensures Subtotal(a + b) == Subtotal(a) + Subtotal(b)
    decreases |a|
  {
    if a == [] {
      assert a + b == b;
    } else {
      assert (a + b)[0] == a[0] && (a + b)[1..] == a[1..] + b;
      SubtotalAppend(a[1..], b);
    }
  }

  /** The prices of the lines that carry `id`, added up. */
  function PriceOfId(items: seq<CartItem>, id: string): int
    decreases |items|
  {
    if items == [] then 0
    else (if items[0].id == id then items[0].price else 0) + PriceOfId(items[1..], id)
  }

  /** On a cart with positive quantities the plus button raises the subtotal
      by the price of every line carrying that id, and by nothing when no
      line does. */
  lemma {:induction false} IncrementAddsPrice(items: seq<CartItem>, id: string)
    requires AllPositive(items)
    ensures Subtotal(WithQuantityChange(items, id, 1)) == Subtotal(items) + PriceOfId(items, id)
    decreases |items|
  {
    QuantityChangeOnPositiveCart(items, id, 1);
    BumpSubtotal(items, id);
  }

  lemma {:induction false} BumpSubtotal(items: seq<CartItem>, id: string)
    requires AllPositive(items)
    ensures Subtotal(BumpAll(items, id, 1)) == Subtotal(items) + PriceOfId(items, id)
    decreases |items|
  {
    if items != [] {
      var b := BumpAll(items, id, 1);
      assert b[1..] == BumpAll(items[1..], id, 1);
      BumpSubtotal(items[1..], id);
    }
  }

  /** `deliveryFee`: free above 50.00, 5.99 otherwise. */
  function DeliveryFee(subtotal: int): (fee: int)
    ensures fee == 0 <==> subtotal > 5000
    ensures fee == 0 || fee == 599
  {
    if subtotal > 5000 then 0 else 599
  }

  /** `total`: the subtotal plus the delivery fee. */
  function Total(items: seq<CartItem>): (t: int)
    ensures Subtotal(items) > 5000 ==> t == Subtotal(items)
    ensures Subtotal(items) <= 5000 ==> t == Subtotal(items) + 599
  {
    Subtotal(items) + DeliveryFee(Subtotal(items))
  }

  /** The cart screen. */
  class Cart {
    var cartItems: seq<CartItem>

    constructor (items: seq<CartItem>)
      ensures cartItems == InitialItems(items)
    {
      cartItems := if |items| > 0 then items else DefaultItems;
    }

    /** The minus and plus buttons. */
    method UpdateQuantity(id: string, change: int)
      modifies this
      ensures cartItems == WithQuantityChange(old(cartItems), id, change)
      ensures AllPositive(old(cartItems)) ==> AllPositive(cartItems) && |cartItems| == |old(cartItems)|
    {
      if AllPositive(cartItems) {
        QuantityChangeOnPositiveCart(cartItems, id, change);
      }
      cartItems := WithQuantityChange(cartItems, id, change);
    }

    /** The remove button. */
    method RemoveItem(id: string)
      modifies this
      ensures cartItems == Without(old(cartItems), id)
      ensures forall i :: 0 <= i < |cartItems| ==> cartItems[i].id != id
    {
      cartItems := Without(cartItems, id);
    }

    /** "Proceed to Checkout": hands the lines and the total over unchanged. */
    method HandleCheckout() returns (items: seq<CartItem>, total: int)
      ensures items == cartItems
      ensures total == Total(cartItems)
      ensures total - Subtotal(cartItems) == DeliveryFee(Subtotal(cartItems))
    {
      items := cartItems;
      total := Subtotal(cartItems) + DeliveryFee(Subtotal(cartItems));
    }
  }
}
