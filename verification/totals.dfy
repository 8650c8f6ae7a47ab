/**
  The two derived cart figures: the item count shown on the cart badge and the
  order amount. Both are sums over the cart's lines; the storefront visits the
  lines in an order this model does not fix, so each sum is defined over an
  arbitrarily chosen line and proved independent of that choice.
 */
module CartTotals {
  import opened Catalog
  import opened Cart

  /** Some line of a non-empty cart; every sum below peels off this one. */
  ghost function PickKey(cart: Cart): (k: ProductId)
    requires cart != map[]
    ensures k in cart
  {
    var k :| k in cart; k
  }

  /** What a line of quantity `q` adds to the item count. */
  function CountedQty(q: int): nat
  {
    if q > 0 then q else 0
  }

  /** The sum of the strictly positive quantities of `cart`. */
  ghost function PositiveTotal(cart: Cart): (r: int)
    ensures r >= 0
    ensures cart == map[] ==> r == 0
    decreases |cart|
  {
    if cart == map[] then 0
    else
      var k := PickKey(cart);
      CountedQty(cart[k]) + PositiveTotal(cart - {k})
  }

  /** Any line may be peeled off first: the count does not depend on the order
      in which the lines are visited. */
  lemma {:induction false} PositiveTotalRemove(cart: Cart, k: ProductId)
    requires k in cart
    ensures PositiveTotal(cart) == CountedQty(cart[k]) + PositiveTotal(cart - {k})
    decreases |cart|
  {
    var j := PickKey(cart);
    if j != k {
      PositiveTotalRemove(cart - {j}, k);
      PositiveTotalRemove(cart - {k}, j);
      assert cart - {j} - {k} == cart - {k} - {j};
    }
  }

  /** `getCartCount`: visits every line, in any order, and adds up the positive
      quantities. */
  method GetCartCount(cart: Cart) returns (total: int)
    ensures total == PositiveTotal(cart)
    ensures total >= 0
  {
    total := 0;
    var rest := cart;
    while rest != map[]
      invariant total + PositiveTotal(rest) == PositiveTotal(cart)
      decreases |rest|
    {
      var k :| k in rest;
      if rest[k] > 0 {
        total := total + rest[k];
      }
      PositiveTotalRemove(rest, k);
      rest := rest - {k};
    }
  }

  /** The count is 0 exactly when no line holds a positive quantity. */
  lemma {:induction false} PositiveTotalZero(cart: Cart)
    ensures PositiveTotal(cart) == 0 <==> forall k :: k in cart ==> cart[k] <= 0
    decreases |cart|
  {
    if cart != map[] {
      var k := PickKey(cart);
      PositiveTotalZero(cart - {k});
      if PositiveTotal(cart) == 0 {
        forall j | j in cart ensures cart[j] <= 0 {
          if j != k { assert j in cart - {k}; }
        }
      }
    }
  }

  /** In a well-formed cart every line contributes at least one item, so the
      count is at least the number of lines. */
  lemma {:induction false} PositiveTotalAtLeastLines(cart: Cart)
    requires WellFormed(cart)
    ensures PositiveTotal(cart) >= |cart|
    decreases |cart|
  {
    if cart != map[] {
      var k := PickKey(cart);
      PositiveTotalAtLeastLines(cart - {k});
    }
  }

  /** Adding a product raises the count by one, unless its line held a negative
      quantity (which the addition moves toward zero without counting). In
      particular, on a cart without negative lines the count grows by exactly
      one. */
  lemma AddToCartCount(cart: Cart, id: ProductId)
    ensures PositiveTotal(AddToCart(cart, id))
         == PositiveTotal(cart) + (if id in cart && cart[id] < 0 then 0 else 1)
  {
    var r := AddToCart(cart, id);
    PositiveTotalRemove(r, id);
    if id in cart {
      PositiveTotalRemove(cart, id);
      assert r - {id} == cart - {id};
    } else {
      assert r - {id} == cart;
    }
  }

  /** Setting a line's quantity replaces that line's contribution to the count
      and leaves the others alone. */
  lemma UpdateCartQuantityCount(cart: Cart, id: ProductId, quantity: int)
    ensures PositiveTotal(UpdateCartQuantity(cart, id, quantity))
         == PositiveTotal(cart) - CountedQty(Qty(cart, id)) + CountedQty(quantity)
  {
    var r := UpdateCartQuantity(cart, id, quantity);
    if id in cart {
      PositiveTotalRemove(cart, id);
    }
    if quantity != 0 {
      PositiveTotalRemove(r, id);
      if id in cart {
        assert r - {id} == cart - {id};
      } else {
        assert r - {id} == cart;
      }
    } else if id !in cart {
      assert r == cart;
    }
  }

  /** Floors an amount down to whole hundredths, toward minus infinity
      (`Math.floor(x * 100) / 100`). */
  function FloorToCents(x: real): (r: real)
    ensures r <= x < r + 0.01
    ensures ((r * 100.0).Floor as real) == r * 100.0
  {
    ((x * 100.0).Floor as real) / 100.0
  }

  lemma FloorToCentsNonNegative(x: real)
    requires x >= 0.0
    ensures FloorToCents(x) >= 0.0
  {
    var n := (x * 100.0).Floor;
    assert x * 100.0 < n as real + 1.0;
    assert n >= 0;
  }

  /** The price of `q` items of product `p` at its offer price. */
  function Subtotal(p: Product, q: int): real
  {
    p.offerPrice * q as real
  }

  /** Buying items never costs a negative amount when the offer price is not
      negative. */
  lemma SubtotalNonNegative(p: Product, q: int)
    requires p.offerPrice >= 0.0 && q > 0
    ensures Subtotal(p, q) >= 0.0
  {
  }

  /** What one cart line of quantity `q` adds to the amount, given the result
      `info` of looking its product up: offer price times quantity, or nothing
      when the quantity is not positive or no product matched. */
  function LineAmount(info: Option<Product>, q: int): real
  {
    match info
    case Some(p) => if q > 0 then Subtotal(p, q) else 0.0
    case None => 0.0
  }

  /** The unrounded amount: the sum of the line amounts of `cart`. */
  ghost function AmountTotal(catalog: seq<Product>, cart: Cart): real
    decreases |cart|
  {
    if cart == map[] then 0.0
    else
      var k := PickKey(cart);
      LineAmount(Find(catalog, k), cart[k]) + AmountTotal(catalog, cart - {k})
  }

  /** The amount, like the count, does not depend on the order of the lines. */
  lemma {:induction false} AmountTotalRemove(catalog: seq<Product>, cart: Cart, k: ProductId)
    requires k in cart
    ensures AmountTotal(catalog, cart) == LineAmount(Find(catalog, k), cart[k]) + AmountTotal(catalog, cart - {k})
    decreases |cart|
  {
    var j := PickKey(cart);
    if j != k {
      AmountTotalRemove(catalog, cart - {j}, k);
      AmountTotalRemove(catalog, cart - {k}, j);
      assert cart - {j} - {k} == cart - {k} - {j};
    }
  }

  /** `getCartAmount`: visits every line, in any order, looks its product up in
      the catalog, accumulates price times quantity for matched positive lines
      and floors the total to hundredths. */
  method GetCartAmount(catalog: seq<Product>, cart: Cart) returns (amount: real)
    ensures amount == FloorToCents(AmountTotal(catalog, cart))
  {
    var total := 0.0;
    var rest := cart;
    while rest != map[]
      invariant total + AmountTotal(catalog, rest) == AmountTotal(catalog, cart)
      decreases |rest|
    {
      var k :| k in rest;
      ghost var before := total;
      var info := Find(catalog, k);
      if rest[k] > 0 && info.Some? {
        total := total + Subtotal(info.value, rest[k]);
      }
      assert total == before + LineAmount(info, rest[k]);
      AmountTotalRemove(catalog, rest, k);
      rest := rest - {k};
    }
    amount := FloorToCents(total);
  }

  /** A line whose quantity is not positive, or whose product is not in the
      catalog, contributes nothing: the amount is the same without it. */
  lemma SkippedLineIgnored(catalog: seq<Product>, cart: Cart, id: ProductId)
    requires id in cart
    requires cart[id] <= 0 || Absent(catalog, id)
    ensures AmountTotal(catalog, cart) == AmountTotal(catalog, cart - {id})
  {
    AmountTotalRemove(catalog, cart, id);
  }

  /** Two catalogs that resolve every line of the cart to the same product give
      the same amount. */
  lemma {:induction false} AmountDependsOnlyOnCartLookups(c1: seq<Product>, c2: seq<Product>, cart: Cart)
    requires forall k :: k in cart ==> Find(c1, k) == Find(c2, k)
    ensures AmountTotal(c1, cart) == AmountTotal(c2, cart)
    decreases |cart|
  {
    if cart != map[] {
      var k := PickKey(cart);
      var rest := cart - {k};
      AmountDependsOnlyOnCartLookups(c1, c2, rest);
    }
  }

  /** A catalog product whose identifier is not in the cart has no effect on the
      amount, wherever it sits in the catalog. */
  lemma UnrelatedProductIgnored(before: seq<Product>, p: Product, after: seq<Product>, cart: Cart)
    requires p.id !in cart
    ensures AmountTotal(before + [p] + after, cart) == AmountTotal(before + after, cart)
  {
    forall k | k in cart ensures Find(before + [p] + after, k) == Find(before + after, k) {
      FindIgnoresOtherIds(before, p, after, k);
    }
    AmountDependsOnlyOnCartLookups(before + [p] + after, before + after, cart);
  }

  /** With duplicate identifiers in the catalog, a line is priced with the
      offer price of the first product carrying its identifier. */
  lemma FirstDuplicatePriced(catalog: seq<Product>, cart: Cart, i: nat)
    requires i < |catalog|
    requires forall j :: 0 <= j < i ==> catalog[j].id != catalog[i].id
    requires catalog[i].id in cart && cart[catalog[i].id] > 0
    ensures AmountTotal(catalog, cart)
         == Subtotal(catalog[i], cart[catalog[i].id]) + AmountTotal(catalog, cart - {catalog[i].id})
  {
    FindFirstOfDuplicates(catalog, i);
    AmountTotalRemove(catalog, cart, catalog[i].id);
  }

  /** No offer price of the catalog is negative. */
  ghost predicate NonNegativePrices(catalog: seq<Product>)
  {
    forall i :: 0 <= i < |catalog| ==> catalog[i].offerPrice >= 0.0
  }

  /** With non-negative offer prices the amount, before and after flooring to
      hundredths, is never negative. */
  lemma {:induction false} AmountNonNegative(catalog: seq<Product>, cart: Cart)
    requires NonNegativePrices(catalog)
    ensures AmountTotal(catalog, cart) >= 0.0
    ensures FloorToCents(AmountTotal(catalog, cart)) >= 0.0
    decreases |cart|
  {
    if cart != map[] {
      var k := PickKey(cart);
      AmountNonNegative(catalog, cart - {k});
      var info := Find(catalog, k);
      if info.Some? && cart[k] > 0 {
        var i := IndexOf(catalog, k).value;
        assert info.value == catalog[i];
        SubtotalNonNegative(catalog[i], cart[k]);
      }
    }
    FloorToCentsNonNegative(AmountTotal(catalog, cart));
  }
}
