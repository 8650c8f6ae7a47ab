/**
  The shopping cart: a map from product identifier to quantity, replaced
  wholesale by every update (the storefront clones the cart object, edits the
  clone and installs it), so each operation is a pure function from the old
  cart to the new one.
 */
module Cart {
  import opened Catalog

  /** Quantities are whatever was stored: the raw cart setter and
      `UpdateCartQuantity` accept any integer, so zero and negative entries are
      representable. */
  type Cart = map<ProductId, int>

  /** The quantity of `id`, counting a missing entry as 0. */
  function Qty(cart: Cart, id: ProductId): int
  {
    if id in cart then cart[id] else 0
  }

  /** Every stored quantity is at least 1. `updateCartQuantity` removes a line
      whose quantity is set to 0 (context/AppContext.jsx:60-61) rather than
      keep it, which suggests carts of this shape are the ones meant. */
  ghost predicate WellFormed(cart: Cart)
  {
    forall id :: id in cart ==> cart[id] >= 1
  }

  /** `addToCart`: a present entry with a truthy (non-zero) quantity is
      incremented; a missing entry, or one holding 0, is set to 1. */
  function AddToCart(cart: Cart, id: ProductId): (r: Cart)
    ensures r.Keys == cart.Keys + {id}
    ensures r[id] == Qty(cart, id) + 1
    ensures id !in cart || cart[id] == 0 ==> r[id] == 1
    ensures forall k :: k in cart && k != id ==> r[k] == cart[k]
  {
    if id in cart && cart[id] != 0 then cart[id := cart[id] + 1]
    else cart[id := 1]
  }

  /** `updateCartQuantity`: a quantity of exactly 0 removes the line; any other
      value, negative ones included, is stored as given. */
  function UpdateCartQuantity(cart: Cart, id: ProductId, quantity: int): (r: Cart)
    ensures quantity == 0 ==> r.Keys == cart.Keys - {id}
    ensures quantity != 0 ==> r.Keys == cart.Keys + {id} && r[id] == quantity
    ensures forall k :: k in cart && k != id ==> k in r && r[k] == cart[k]
  {
    if quantity == 0 then cart - {id}
    else cart[id := quantity]
  }

  lemma AddToCartPreservesWellFormed(cart: Cart, id: ProductId)
    requires WellFormed(cart)
    ensures WellFormed(AddToCart(cart, id))
  {
  }

  /** Updates keep the invariant exactly when the new quantity is not negative
      (a negative quantity is stored as a negative line). */
  lemma UpdateCartQuantityWellFormed(cart: Cart, id: ProductId, quantity: int)
    requires WellFormed(cart)
    ensures WellFormed(UpdateCartQuantity(cart, id, quantity)) <==> quantity >= 0
  {
    if quantity < 0 {
      assert UpdateCartQuantity(cart, id, quantity)[id] < 1;
    }
  }

  /** A stored 0 can arise after all: setting a line to -1 and adding the same
      product once more leaves an entry of quantity 0 in the cart. */
  lemma ZeroLineReachable(id: ProductId)
    ensures AddToCart(UpdateCartQuantity(map[], id, -1), id) == map[id := 0]
  {
  }

  /** The cart after `n` consecutive `addToCart(id)` calls. */
  function AddTimes(cart: Cart, id: ProductId, n: nat): Cart
  {
    if n == 0 then cart else AddToCart(AddTimes(cart, id, n - 1), id)
  }

  /** `n` additions of a product raise its quantity by exactly `n` and touch no
      other line; from an empty cart the product ends with quantity `n`. */
  lemma {:induction false} AddTimesQuantity(cart: Cart, id: ProductId, n: nat)
    ensures AddTimes(cart, id, n) == if n == 0 then cart else cart[id := Qty(cart, id) + n]
  {
    if n > 0 {
      AddTimesQuantity(cart, id, n - 1);
    }
  }

  lemma AddTimesFromEmpty(id: ProductId, n: nat)
    requires n > 0
    ensures AddTimes(map[], id, n) == map[id := n]
  {
    AddTimesQuantity(map[], id, n);
  }

  /** The two cart mutators, as steps of the store's state machine. */
  datatype Action = Add(id: ProductId) | SetQuantity(id: ProductId, quantity: int)

  function Apply(cart: Cart, a: Action): Cart
  {
    match a
    case Add(id) => AddToCart(cart, id)
    case SetQuantity(id, q) => UpdateCartQuantity(cart, id, q)
  }

  /** The cart after performing `actions` in order. */
  function Run(cart: Cart, actions: seq<Action>): Cart
    decreases |actions|
  {
    if |actions| == 0 then cart else Run(Apply(cart, actions[0]), actions[1..])
  }

  /** No quantity update in `actions` asks for a negative value. */
  ghost predicate NoNegativeUpdates(actions: seq<Action>)
  {
    forall i :: 0 <= i < |actions| && actions[i].SetQuantity? ==> actions[i].quantity >= 0
  }

  /** Every sequence of additions and non-negative updates keeps a well-formed
      cart well-formed: no zero or negative line ever appears. */
  lemma {:induction false} RunPreservesWellFormed(cart: Cart, actions: seq<Action>)
    requires WellFormed(cart)
    requires NoNegativeUpdates(actions)
    ensures WellFormed(Run(cart, actions))
    decreases |actions|
  {
    if |actions| > 0 {
      match actions[0] {
        case Add(id) => AddToCartPreservesWellFormed(cart, id);
        case SetQuantity(id, q) => UpdateCartQuantityWellFormed(cart, id, q);
      }
      RunPreservesWellFormed(Apply(cart, actions[0]), actions[1..]);
    }
  }

  /** Only additions in `actions`. */
  ghost predicate AllAdds(actions: seq<Action>)
  {
    forall i :: 0 <= i < |actions| ==> actions[i].Add?
  }

  /** After any sequence of additions, each product's quantity has grown by the
      number of times it was added. */
  lemma {:induction false} RunAddsCountsOccurrences(cart: Cart, actions: seq<Action>, id: ProductId)
    requires AllAdds(actions)
    ensures Qty(Run(cart, actions), id) == Qty(cart, id) + multiset(actions)[Add(id)]
    decreases |actions|
  {
    if |actions| > 0 {
      var a := actions[0];
      assert actions == [a] + actions[1..];
      RunAddsCountsOccurrences(AddToCart(cart, a.id), actions[1..], id);
    }
  }

  /** After any sequence of additions, the cart's lines are the old lines plus
      every product added. */
  lemma {:induction false} RunAddsLines(cart: Cart, actions: seq<Action>)
    requires AllAdds(actions)
    ensures Run(cart, actions).Keys == cart.Keys + set i | 0 <= i < |actions| :: actions[i].id
    decreases |actions|
  {
    if |actions| > 0 {
      var a := actions[0];
      var rest := actions[1..];
      RunAddsLines(AddToCart(cart, a.id), rest);
      var added := set i | 0 <= i < |actions| :: actions[i].id;
      var restAdded := set i | 0 <= i < |rest| :: rest[i].id;
      assert added == {a.id} + restAdded by {
        forall x | x in added ensures x in {a.id} + restAdded {
          var i :| 0 <= i < |actions| && actions[i].id == x;
          if i > 0 { assert rest[i - 1].id == x; }
        }
        forall x | x in restAdded ensures x in added {
          var i :| 0 <= i < |rest| && rest[i].id == x;
          assert actions[i + 1].id == x;
        }
      }
    }
  }
}
