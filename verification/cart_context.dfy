/**
 * The shopping cart of the storefront (frontend/src/context/CartContext.jsx): the reducer,
 * the guest-cart operations, which rebuild the item list with `map`/`filter` and dispatch it,
 * and the two sums the cart displays.
 *
 * Prices are whole amounts. The browser's `localStorage` entry `guestCart` is the field
 * `guestStorage` of a `Cart`.
 */
module CartContext {
  import opened Wrappers

  datatype Product = Product(id: string, name: string, price: int, imageUrl: string)

  datatype CartItem = CartItem(productId: string, name: string, price: int, imageUrl: string, quantity: int)

  datatype CartState = CartState(items: seq<CartItem>, loading: bool)

  /** The actions `cartReducer` knows, and any other action type. */
  datatype CartAction =
    | SetLoading(isLoading: bool)
    | SetCart(cart: seq<CartItem>)
    | AddToCart(added: seq<CartItem>)
    | UpdateCart(updated: seq<CartItem>)
    | ClearCart
    | OtherAction(actionType: string)

  /** The state before anything is loaded: no items, loading. */
  const InitialState: CartState := CartState([], true)

  /** `cartReducer`. */
  function Reduce(s: CartState, a: CartAction): (r: CartState)
    ensures a.SetLoading? ==> r.items == s.items && r.loading == a.isLoading
    ensures a.SetCart? ==> r.items == a.cart && !r.loading
    ensures a.AddToCart? ==> r.items == a.added && r.loading == s.loading
    ensures a.UpdateCart? ==> r.items == a.updated && r.loading == s.loading
    ensures a.ClearCart? ==> r.items == [] && r.loading == s.loading
    ensures a.OtherAction? ==> r == s
  {
    match a
    case SetLoading(b) => s.(loading := b)
    case SetCart(items) => s.(items := items, loading := false)
    case AddToCart(items) => s.(items := items)
    case UpdateCart(items) => s.(items := items)
    case ClearCart => s.(items := [])
    case OtherAction(_) => s
  }

  /** Loading the guest cart: SET_LOADING, then SET_CART with the stored items or none. */
  lemma LoadEndsNotLoading(s: CartState, stored: Option<seq<CartItem>>)
    ensures var r := Reduce(Reduce(s, SetLoading(true)), SetCart(stored.GetOr([])));
      && !r.loading
      && r.items == (if stored.Some? then stored.value else [])
  {
  }

  // ---------------------------------------------------------------- the item list

  /** No two items share a product id. */
  predicate UniqueProductIds(items: seq<CartItem>) {
    forall i, j :: 0 <= i < j < |items| ==> items[i].productId != items[j].productId
  }

  /** Every item has a positive quantity. */
  predicate PositiveQuantities(items: seq<CartItem>) {
    forall i :: 0 <= i < |items| ==> items[i].quantity > 0
  }

  predicate Contains(items: seq<CartItem>, productId: string) {
    exists i :: 0 <= i < |items| && items[i].productId == productId
  }

  /** How many items carry `productId`. */
  function Occurrences(items: seq<CartItem>, productId: string): (n: nat)
    ensures n <= |items|
    ensures n == 0 <==> !Contains(items, productId)
  {
    if |items| == 0 then 0
    else
      var last := items[|items| - 1];
      assert forall i :: 0 <= i < |items| - 1 ==> items[..|items| - 1][i] == items[i];
      Occurrences(items[..|items| - 1], productId) + (if last.productId == productId then 1 else 0)
  }

  /** The quantities and line totals of the items carrying `productId`, summed. */
  function MatchingQuantity(items: seq<CartItem>, productId: string): int {
    if |items| == 0 then 0
    else
      var last := items[|items| - 1];
      MatchingQuantity(items[..|items| - 1], productId) + (if last.productId == productId then last.quantity else 0)
  }

  function MatchingPrice(items: seq<CartItem>, productId: string): int {
    if |items| == 0 then 0
    else
      var last := items[|items| - 1];
      MatchingPrice(items[..|items| - 1], productId) + (if last.productId == productId then last.price else 0)
  }

  function MatchingTotal(items: seq<CartItem>, productId: string): int {
    if |items| == 0 then 0
    else
      var last := items[|items| - 1];
      MatchingTotal(items[..|items| - 1], productId)
        + (if last.productId == productId then last.price * last.quantity else 0)
  }

  /** `getCartTotal`: the sum of price times quantity, folded from the left. */
  function Total(items: seq<CartItem>): int {
    if |items| == 0 then 0
    else
      var last := items[|items| - 1];
      Total(items[..|items| - 1]) + last.price * last.quantity
  }

  /** `getCartCount`: the sum of the quantities, folded from the left. */
  function Count(items: seq<CartItem>): int {
    if |items| == 0 then 0
    else Count(items[..|items| - 1]) + items[|items| - 1].quantity
  }

  /** With positive quantities there are at least as many units as lines. */
  lemma {:induction false} CountAtLeastLength(items: seq<CartItem>)
    requires PositiveQuantities(items)
    ensures Count(items) >= |items|
  {
    if |items| > 0 {
      CountAtLeastLength(items[..|items| - 1]);
    }
  }

  /** The cart line for a product: its id, name, price and image, quantity 1. */
  function NewItem(p: Product): (item: CartItem)
    ensures item.productId == p.id && item.quantity == 1 && item.price == p.price
  {
    CartItem(p.id, p.name, p.price, p.imageUrl, 1)
  }

  /** The map of the guest add: every item carrying `productId` gains one unit. */
  function IncrementMatching(items: seq<CartItem>, productId: string): (r: seq<CartItem>)
    ensures |r| == |items|
    ensures forall i :: 0 <= i < |items| ==>
      r[i] == (if items[i].productId == productId then items[i].(quantity := items[i].quantity + 1) else items[i])
  {
    if |items| == 0 then []
    else
      var last := items[|items| - 1];
      IncrementMatching(items[..|items| - 1], productId)
        + [if last.productId == productId then last.(quantity := last.quantity + 1) else last]
  }

  /** The guest `addToCart`: one more unit of a product already there, else a new line at the end. */
  function AddItem(items: seq<CartItem>, p: Product): (r: seq<CartItem>)
    ensures Contains(items, p.id) ==> r == IncrementMatching(items, p.id)
    ensures !Contains(items, p.id) ==> r == items + [NewItem(p)]
  {
    if Contains(items, p.id) then IncrementMatching(items, p.id) else items + [NewItem(p)]
  }

  /** The filter of the guest remove: the items not carrying `productId`, in their order. */
  function RemoveItem(items: seq<CartItem>, productId: string): (r: seq<CartItem>)
    ensures |r| == |items| - Occurrences(items, productId)
    ensures forall x {:trigger x in r} :: x in r <==> x in items && x.productId != productId
  {
    if |items| == 0 then []
    else
      var last := items[|items| - 1];
      var front := items[..|items| - 1];
      assert items == front + [last];
      RemoveItem(front, productId) + (if last.productId == productId then [] else [last])
  }

  /** The map of the guest quantity update: every item carrying `productId` gets quantity `q`. */
  function SetQuantity(items: seq<CartItem>, productId: string, q: int): (r: seq<CartItem>)
    ensures |r| == |items|
    ensures forall i :: 0 <= i < |items| ==>
      r[i] == (if items[i].productId == productId then items[i].(quantity := q) else items[i])
  {
    if |items| == 0 then []
    else
      var last := items[|items| - 1];
      SetQuantity(items[..|items| - 1], productId, q)
        + [if last.productId == productId then last.(quantity := q) else last]
  }

  /** The guest `updateQuantity`: a quantity of zero or less removes the product. */
  function UpdateQuantity(items: seq<CartItem>, productId: string, q: int): (r: seq<CartItem>)
    ensures q <= 0 ==> r == RemoveItem(items, productId)
    ensures q > 0 ==> r == SetQuantity(items, productId, q)
  {
    if q <= 0 then RemoveItem(items, productId) else SetQuantity(items, productId, q)
  }

  // ---------------------------------------------------------------- sums

  /** Unit counts over a list with one more line at the end. */
  lemma CountsOfAppend(items: seq<CartItem>, x: CartItem, productId: string)
    ensures Count(items + [x]) == Count(items) + x.quantity
    ensures Occurrences(items + [x], productId) == Occurrences(items, productId) + (if x.productId == productId then 1 else 0)
    ensures MatchingQuantity(items + [x], productId)
         == MatchingQuantity(items, productId) + (if x.productId == productId then x.quantity else 0)
  {
    assert (items + [x])[..|items|] == items;
  }

  /** Price sums over a list with one more line at the end. */
  lemma TotalsOfAppend(items: seq<CartItem>, x: CartItem, productId: string)
    ensures Total(items + [x]) == Total(items) + x.price * x.quantity
    ensures MatchingPrice(items + [x], productId)
         == MatchingPrice(items, productId) + (if x.productId == productId then x.price else 0)
    ensures MatchingTotal(items + [x], productId)
         == MatchingTotal(items, productId) + (if x.productId == productId then x.price * x.quantity else 0)
  {
    assert (items + [x])[..|items|] == items;
  }

  /** Incrementing the matching lines adds one unit per line to the count. */
  lemma {:induction false} IncrementCount(items: seq<CartItem>, productId: string)
    ensures Count(IncrementMatching(items, productId)) == Count(items) + Occurrences(items, productId)
  {
    if |items| > 0 {
      var front := items[..|items| - 1];
      var last := items[|items| - 1];
      IncrementCount(front, productId);
      assert items == front + [last];
      CountsOfAppend(front, last, productId);
      var bumped := if last.productId == productId then last.(quantity := last.quantity + 1) else last;
      assert IncrementMatching(items, productId) == IncrementMatching(front, productId) + [bumped];
      CountsOfAppend(IncrementMatching(front, productId), bumped, productId);
    }
  }

  /** One more unit of a line adds its price to the line total; `IncrementTotal` uses it for its one nonlinear step. */
  lemma LineTotalOfOneMore(price: int, quantity: int)
    ensures price * (quantity + 1) == price * quantity + price
  {
  }

  /** Incrementing the matching lines adds their prices to the total. */
  lemma {:induction false} IncrementTotal(items: seq<CartItem>, productId: string)
    ensures Total(IncrementMatching(items, productId)) == Total(items) + MatchingPrice(items, productId)
  {
    if |items| > 0 {
      var front := items[..|items| - 1];
      var last := items[|items| - 1];
      IncrementTotal(front, productId);
      assert items == front + [last];
      TotalsOfAppend(front, last, productId);
      var bumped := if last.productId == productId then last.(quantity := last.quantity + 1) else last;
      assert IncrementMatching(items, productId) == IncrementMatching(front, productId) + [bumped];
      TotalsOfAppend(IncrementMatching(front, productId), bumped, productId);
      LineTotalOfOneMore(last.price, last.quantity);
    }
  }

  /** Removing a product takes away exactly its units. */
  lemma {:induction false} RemoveCount(items: seq<CartItem>, productId: string)
    ensures Count(RemoveItem(items, productId)) == Count(items) - MatchingQuantity(items, productId)
  {
    if |items| > 0 {
      var front := items[..|items| - 1];
      var last := items[|items| - 1];
      RemoveCount(front, productId);
      assert items == front + [last];
      CountsOfAppend(front, last, productId);
      var rf := RemoveItem(front, productId);
      if last.productId != productId {
        assert RemoveItem(items, productId) == rf + [last];
        CountsOfAppend(rf, last, productId);
      } else {
        assert RemoveItem(items, productId) == rf + [];
        assert rf + [] == rf;
      }
    }
  }

  /** Removing a product takes away exactly its line totals. */
  lemma {:induction false} RemoveTotal(items: seq<CartItem>, productId: string)
    ensures Total(RemoveItem(items, productId)) == Total(items) - MatchingTotal(items, productId)
  {
    if |items| > 0 {
      var front := items[..|items| - 1];
      var last := items[|items| - 1];
      RemoveTotal(front, productId);
      assert items == front + [last];
      TotalsOfAppend(front, last, productId);
      var rf := RemoveItem(front, productId);
      if last.productId != productId {
        assert RemoveItem(items, productId) == rf + [last];
        TotalsOfAppend(rf, last, productId);
      } else {
        assert RemoveItem(items, productId) == rf + [];
        assert rf + [] == rf;
      }
    }
  }

  /** Setting the quantity of a product leaves the units of every other product alone. */
  lemma {:induction false} SetQuantityKeepsOthers(items: seq<CartItem>, productId: string, q: int)
    ensures Count(SetQuantity(items, productId, q)) - MatchingQuantity(SetQuantity(items, productId, q), productId)
         == Count(items) - MatchingQuantity(items, productId)
  {
    if |items| > 0 {
      var front := items[..|items| - 1];
      var last := items[|items| - 1];
      SetQuantityKeepsOthers(front, productId, q);
      assert items == front + [last];
      CountsOfAppend(front, last, productId);
      var changed := if last.productId == productId then last.(quantity := q) else last;
      assert SetQuantity(items, productId, q) == SetQuantity(front, productId, q) + [changed];
      CountsOfAppend(SetQuantity(front, productId, q), changed, productId);
    }
  }

  /** After setting the quantity of a product on at most one line, that line holds `q` units. */
  lemma {:induction false} SetQuantityMatching(items: seq<CartItem>, productId: string, q: int)
    requires Occurrences(items, productId) <= 1
    ensures MatchingQuantity(SetQuantity(items, productId, q), productId)
         == (if Occurrences(items, productId) == 1 then q else 0)
  {
    if |items| > 0 {
      var front := items[..|items| - 1];
      var last := items[|items| - 1];
      assert items == front + [last];
      CountsOfAppend(front, last, productId);
      SetQuantityMatching(front, productId, q);
      var changed := if last.productId == productId then last.(quantity := q) else last;
      assert SetQuantity(items, productId, q) == SetQuantity(front, productId, q) + [changed];
      CountsOfAppend(SetQuantity(front, productId, q), changed, productId);
    }
  }

  /** In a cart with unique product ids, a product in the cart occupies exactly one line. */
  lemma {:induction false} UniqueMatchesOne(items: seq<CartItem>, k: int)
    requires UniqueProductIds(items) && 0 <= k < |items|
    ensures Occurrences(items, items[k].productId) == 1
    ensures MatchingPrice(items, items[k].productId) == items[k].price
    ensures MatchingQuantity(items, items[k].productId) == items[k].quantity
  {
    var front := items[..|items| - 1];
    var last := items[|items| - 1];
    var id := items[k].productId;
    if k == |items| - 1 {
      forall i | 0 <= i < |front|
        ensures front[i].productId != id
      {
        assert front[i] == items[i];
      }
      NoMatchesSumToZero(front, id);
    } else {
      assert front[k] == items[k];
      UniqueMatchesOne(front, k);
    }
  }

  /** A product no line carries contributes nothing to the matching sums. */
  lemma {:induction false} NoMatchesSumToZero(items: seq<CartItem>, productId: string)
    requires !Contains(items, productId)
    ensures MatchingPrice(items, productId) == 0 && MatchingQuantity(items, productId) == 0
    ensures MatchingTotal(items, productId) == 0
  {
    if |items| > 0 {
      var front := items[..|items| - 1];
      forall i | 0 <= i < |front|
        ensures front[i].productId != productId
      {
        assert front[i] == items[i];
      }
      NoMatchesSumToZero(front, productId);
    }
  }

  /** A guest add puts exactly one more unit in the cart. */
  lemma AddCountsOne(items: seq<CartItem>, p: Product)
    requires UniqueProductIds(items)
    ensures Count(AddItem(items, p)) == Count(items) + 1
  {
    if Contains(items, p.id) {
      var k :| 0 <= k < |items| && items[k].productId == p.id;
      UniqueMatchesOne(items, k);
      IncrementCount(items, p.id);
    } else {
      CountsOfAppend(items, NewItem(p), p.id);
    }
  }

  /** A guest add raises the total by the price of one unit (the stored price when already there). */
  lemma AddRaisesTotal(items: seq<CartItem>, p: Product, k: int)
    requires UniqueProductIds(items)
    requires k == -1 ==> !Contains(items, p.id)
    requires k != -1 ==> 0 <= k < |items| && items[k].productId == p.id
    ensures Total(AddItem(items, p)) == Total(items) + (if k == -1 then p.price else items[k].price)
  {
    if k == -1 {
      TotalsOfAppend(items, NewItem(p), p.id);
    } else {
      UniqueMatchesOne(items, k);
      IncrementTotal(items, p.id);
    }
  }

  // ---------------------------------------------------------------- list shape

  /** A guest add of a product already in the cart changes only that line's quantity. */
  lemma AddExistingShape(items: seq<CartItem>, p: Product, k: int)
    requires UniqueProductIds(items) && 0 <= k < |items| && items[k].productId == p.id
    ensures var r := AddItem(items, p);
      && |r| == |items|
      && r[k] == items[k].(quantity := items[k].quantity + 1)
      && forall i :: 0 <= i < |items| && i != k ==> r[i] == items[i]
  {
  }

  /** A guest add keeps product ids unique and quantities positive. */
  lemma AddKeepsInvariants(items: seq<CartItem>, p: Product)
    requires UniqueProductIds(items) && PositiveQuantities(items)
    ensures UniqueProductIds(AddItem(items, p)) && PositiveQuantities(AddItem(items, p))
  {
    var r := AddItem(items, p);
    if !Contains(items, p.id) {
      forall i, j | 0 <= i < j < |r|
        ensures r[i].productId != r[j].productId
      {
        if j == |items| {
          assert r[i] == items[i];
        } else {
          assert r[i] == items[i] && r[j] == items[j];
        }
      }
    }
  }

  /** Removing a product the cart does not hold changes nothing. */
  lemma {:induction false} RemoveAbsent(items: seq<CartItem>, productId: string)
    requires !Contains(items, productId)
    ensures RemoveItem(items, productId) == items
  {
    if |items| > 0 {
      var front := items[..|items| - 1];
      forall i | 0 <= i < |front|
        ensures front[i].productId != productId
      {
        assert front[i] == items[i];
      }
      RemoveAbsent(front, productId);
      var last := items[|items| - 1];
      assert last.productId != productId;
      assert RemoveItem(items, productId) == RemoveItem(front, productId) + [last];
      assert items == front + [last];
    }
  }

  /** Removal distributes over concatenation, so the kept items keep their order. */
  lemma {:induction false} RemoveConcat(a: seq<CartItem>, b: seq<CartItem>, productId: string)
    ensures RemoveItem(a + b, productId) == RemoveItem(a, productId) + RemoveItem(b, productId)
  {
    if |b| == 0 {
      assert a + b == a;
    } else {
      var front := b[..|b| - 1];
      var last := b[|b| - 1];
      assert (a + b)[..|a + b| - 1] == a + front;
      assert (a + b)[|a + b| - 1] == last;
      RemoveConcat(a, front, productId);
    }
  }

  /** Adding a product the cart did not hold and then removing it gives back the cart. */
  lemma AddThenRemove(items: seq<CartItem>, p: Product)
    requires !Contains(items, p.id)
    ensures RemoveItem(AddItem(items, p), p.id) == items
  {
    RemoveConcat(items, [NewItem(p)], p.id);
    RemoveAbsent(items, p.id);
    assert RemoveItem([NewItem(p)], p.id) == [] by {
      assert [NewItem(p)][..0] == [];
    }
  }

  /** Removal is idempotent and leaves no line of the product. */
  lemma RemoveIdempotent(items: seq<CartItem>, productId: string)
    ensures !Contains(RemoveItem(items, productId), productId)
    ensures RemoveItem(RemoveItem(items, productId), productId) == RemoveItem(items, productId)
  {
    var r := RemoveItem(items, productId);
    forall i | 0 <= i < |r|
      ensures r[i].productId != productId
    {
      assert r[i] in r;
    }
    RemoveAbsent(r, productId);
  }

  /** Removal keeps product ids unique and quantities positive. */
  lemma {:induction false} RemoveKeepsInvariants(items: seq<CartItem>, productId: string)
    requires UniqueProductIds(items) && PositiveQuantities(items)
    ensures UniqueProductIds(RemoveItem(items, productId)) && PositiveQuantities(RemoveItem(items, productId))
  {
    if |items| > 0 {
      var front := items[..|items| - 1];
      var last := items[|items| - 1];
      RemoveKeepsInvariants(front, productId);
      var rf := RemoveItem(front, productId);
      if last.productId != productId {
        var r := rf + [last];
        forall i, j | 0 <= i < j < |r|
          ensures r[i].productId != r[j].productId
        {
          if j == |rf| {
            assert r[i] == rf[i] && rf[i] in rf;
            assert r[i] in front;
            var m :| 0 <= m < |front| && front[m] == r[i];
            assert items[m] == r[i];
          }
        }
        assert forall i :: 0 <= i < |rf| ==> rf[i] in rf && rf[i] in front;
      }
    }
  }

  /** The guest quantity update with a positive quantity changes only the product's lines. */
  lemma UpdateQuantityShape(items: seq<CartItem>, productId: string, q: int)
    requires q > 0
    ensures var r := UpdateQuantity(items, productId, q);
      && |r| == |items|
      && (forall i :: 0 <= i < |items| && items[i].productId == productId ==> r[i].quantity == q)
      && (forall i :: 0 <= i < |items| ==> r[i].productId == items[i].productId)
      && (forall i :: 0 <= i < |items| && items[i].productId != productId ==> r[i] == items[i])
  {
  }

  /** The guest quantity update keeps product ids unique and never leaves a non-positive quantity. */
  lemma UpdateQuantityKeepsInvariants(items: seq<CartItem>, productId: string, q: int)
    requires UniqueProductIds(items) && PositiveQuantities(items)
    ensures UniqueProductIds(UpdateQuantity(items, productId, q))
    ensures PositiveQuantities(UpdateQuantity(items, productId, q))
  {
    if q <= 0 {
      RemoveKeepsInvariants(items, productId);
    }
  }

  /** With unique ids, setting a held product's quantity moves the count from its old quantity to `q`. */
  lemma UpdateQuantityCount(items: seq<CartItem>, k: int, q: int)
    requires UniqueProductIds(items) && 0 <= k < |items|
    ensures Count(UpdateQuantity(items, items[k].productId, q))
         == Count(items) - items[k].quantity + (if q <= 0 then 0 else q)
  {
    UniqueMatchesOne(items, k);
    if q <= 0 {
      RemoveCount(items, items[k].productId);
    } else {
      SetQuantityKeepsOthers(items, items[k].productId, q);
      SetQuantityMatching(items, items[k].productId, q);
    }
  }

  // ---------------------------------------------------------------- the provider

  /** The cart provider for a guest: the reducer's state and the stored guest cart. */
  class Cart {
    var state: CartState
    var guestStorage: Option<seq<CartItem>>

    /** The displayed items and the stored guest cart agree. */
    predicate Synced()
      reads this
    {
      guestStorage == Some(state.items)
    }

    constructor(stored: Option<seq<CartItem>>)
      ensures state == InitialState && guestStorage == stored
    {
      state := InitialState;
      guestStorage := stored;
    }

    /** The load effect for a guest: the stored cart, or an empty one, and loading ends. */
    method LoadGuestCart()
      modifies this
      ensures state == CartState(old(guestStorage).GetOr([]), false)
      ensures guestStorage == old(guestStorage)
    {
      state := Reduce(state, SetLoading(true));
      state := Reduce(state, SetCart(guestStorage.GetOr([])));
    }

    /** The guest `addToCart`. */
    method AddToCart(p: Product)
      modifies this
      ensures state == old(state).(items := AddItem(old(state.items), p))
      ensures Synced()
    {
      var updatedItems := AddItem(state.items, p);
      state := Reduce(state, CartAction.AddToCart(updatedItems));
      guestStorage := Some(updatedItems);
    }

    /** The guest `removeFromCart`. */
    method RemoveFromCart(productId: string)
      modifies this
      ensures state == old(state).(items := RemoveItem(old(state.items), productId))
      ensures Synced()
    {
      var updatedItems := RemoveItem(state.items, productId);
      state := Reduce(state, UpdateCart(updatedItems));
      guestStorage := Some(updatedItems);
    }

    /** The guest `updateQuantity`. */
    method UpdateQuantityOf(productId: string, quantity: int)
      modifies this
      ensures state == old(state).(items := UpdateQuantity(old(state.items), productId, quantity))
      ensures Synced()
    {
      if quantity <= 0 {
        RemoveFromCart(productId);
        return;
      }
      var updatedItems := SetQuantity(state.items, productId, quantity);
      state := Reduce(state, UpdateCart(updatedItems));
      guestStorage := Some(updatedItems);
    }

    /** The guest `clearCart`: no items and no stored cart. */
    method ClearCart()
      modifies this
      ensures state == old(state).(items := [])
      ensures guestStorage == None
    {
      state := Reduce(state, CartAction.ClearCart);
      guestStorage := None;
    }

    /** `getCartTotal`, folding over the items from the left. */
    method GetCartTotal() returns (total: int)
      ensures total == Total(state.items)
    {
      total := 0;
      var i := 0;
      while i < |state.items|
        invariant 0 <= i <= |state.items|
        invariant total == Total(state.items[..i])
      {
        assert state.items[..i + 1][..i] == state.items[..i];
        total := total + state.items[i].price * state.items[i].quantity;
        i := i + 1;
      }
      assert state.items[..i] == state.items;
    }

    /** `getCartCount`, folding over the items from the left. */
    method GetCartCount() returns (count: int)
      ensures count == Count(state.items)
    {
      count := 0;
      var i := 0;
      while i < |state.items|
        invariant 0 <= i <= |state.items|
        invariant count == Count(state.items[..i])
      {
        assert state.items[..i + 1][..i] == state.items[..i];
        count := count + state.items[i].quantity;
        i := i + 1;
      }
      assert state.items[..i] == state.items;
    }
  }
}
