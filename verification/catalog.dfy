/**
  The storefront's product catalog: an ordered list of product records, as
  loaded from the catalog source, and the lookup the cart total performs on it
  (`products.find(product => product._id === id)`).
 */
module Catalog {

  type ProductId = string

  datatype Option<+T> = None | Some(value: T)

  /** A catalog entry. Prices are exact reals; the storefront's floating-point
      arithmetic is not modelled. */
  datatype Product = Product(id: ProductId, price: real, offerPrice: real)

  /** True iff no product of `catalog` carries identifier `id`. */
  ghost predicate Absent(catalog: seq<Product>, id: ProductId)
  {
    forall j :: 0 <= j < |catalog| ==> catalog[j].id != id
  }

  /** True iff `i` is the position of the first product carrying `id`. */
  ghost predicate FirstMatch(catalog: seq<Product>, id: ProductId, i: int)
  {
    && 0 <= i < |catalog|
    && catalog[i].id == id
    && forall j :: 0 <= j < i ==> catalog[j].id != id
  }

  /** The position of the first product with identifier `id`, if any. */
  function IndexOf(catalog: seq<Product>, id: ProductId): (r: Option<nat>)
    ensures r.None? <==> Absent(catalog, id)
    ensures r.Some? ==> FirstMatch(catalog, id, r.value)
  {
    if |catalog| == 0 then None
    else if catalog[0].id == id then Some(0)
    else match IndexOf(catalog[1..], id)
      case None => None
      case Some(i) => Some(i + 1)
  }

  /** `Array.prototype.find` on the identifier: the first product whose
      identifier equals `id`, or nothing when none does. */
  function Find(catalog: seq<Product>, id: ProductId): (r: Option<Product>)
    ensures r.None? <==> Absent(catalog, id)
    ensures forall i :: FirstMatch(catalog, id, i) ==> r == Some(catalog[i])
  {
    match IndexOf(catalog, id)
    case None => None
    case Some(i) => Some(catalog[i])
  }

  /** Only the first product with a given identifier is ever found: later
      duplicates are shadowed. */
  lemma FindFirstOfDuplicates(catalog: seq<Product>, i: nat)
    requires i < |catalog|
    requires forall j :: 0 <= j < i ==> catalog[j].id != catalog[i].id
    ensures Find(catalog, catalog[i].id) == Some(catalog[i])
  {
    assert FirstMatch(catalog, catalog[i].id, i);
  }

  /** Inserting a product anywhere in the catalog does not change what a lookup
      of a different identifier finds. */
  lemma FindIgnoresOtherIds(before: seq<Product>, p: Product, after: seq<Product>, id: ProductId)
    requires p.id != id
    ensures Find(before + [p] + after, id) == Find(before + after, id)
  {
    var c1 := before + [p] + after;
    var c2 := before + after;
    // position in c1 of the product at position j of c2
    assert forall j :: 0 <= j < |before| ==> c1[j] == c2[j];
    assert forall j :: |before| <= j < |c2| ==> c1[j + 1] == c2[j];
    assert c1[|before|] == p;
    match IndexOf(c2, id)
    case None =>
      forall j | 0 <= j < |c1| ensures c1[j].id != id {
        if j > |before| { assert c1[j] == c2[j - 1]; }
      }
    case Some(i2) =>
      var m := if i2 < |before| then i2 else i2 + 1;
      forall j | 0 <= j < m ensures c1[j].id != id {
        if j > |before| { assert c1[j] == c2[j - 1]; }
      }
      assert FirstMatch(c1, id, m);
  }
}
