/**
  Worked cart scenarios: a product added twice, then removed again, and a
  product that the catalog does not know.
 */
module Scenarios {
  import opened Catalog
  import opened Cart
  import opened CartTotals

  /** A cart of one line holds as many items as that line's positive
      quantity. */
  lemma SingleLineCount(id: ProductId, q: int)
    ensures PositiveTotal(map[id := q]) == CountedQty(q)
  {
    PositiveTotalRemove(map[id := q], id);
    assert map[id := q] - {id} == map[];
  }

  /** A cart of one line costs that line's amount. */
  lemma SingleLineAmount(catalog: seq<Product>, id: ProductId, q: int)
    ensures AmountTotal(catalog, map[id := q]) == LineAmount(Find(catalog, id), q)
  {
    AmountTotalRemove(catalog, map[id := q], id);
    assert map[id := q] - {id} == map[];
  }

  const Catalog1: seq<Product> := [Product("p1", 25.0, 19.995)]

  /** Two additions of "p1": the cart holds {p1: 2}, the count is 2 and the
      amount 19.995 * 2 = 39.99 survives the flooring to hundredths. */
  lemma AddTwiceScenario()
    ensures AddToCart(AddToCart(map[], "p1"), "p1") == map["p1" := 2]
    ensures PositiveTotal(map["p1" := 2]) == 2
    ensures FloorToCents(AmountTotal(Catalog1, map["p1" := 2])) == 39.99
  {
    SingleLineCount("p1", 2);
    SingleLineAmount(Catalog1, "p1", 2);
    assert FirstMatch(Catalog1, "p1", 0);
  }

  /** Setting the quantity of the only line to 0 empties the cart, and with it
      the count and the amount. */
  lemma RemoveScenario()
    ensures UpdateCartQuantity(map["p1" := 2], "p1", 0) == map[]
    ensures PositiveTotal(map[]) == 0
    ensures FloorToCents(AmountTotal(Catalog1, map[])) == 0.0
  {
    assert map["p1" := 2] - {"p1"} == map[];
  }

  /** Adding a product the catalog does not list counts one item but costs
      nothing. */
  lemma UnknownProductScenario()
    ensures AddToCart(map[], "unknown") == map["unknown" := 1]
    ensures PositiveTotal(map["unknown" := 1]) == 1
    ensures FloorToCents(AmountTotal(Catalog1, map["unknown" := 1])) == 0.0
  {
    SingleLineCount("unknown", 1);
    SingleLineAmount(Catalog1, "unknown", 1);
    assert Absent(Catalog1, "unknown");
  }

  /** The amount is floored, not truncated toward zero: a negative total of
      half a cent becomes minus one cent. */
  lemma FloorRoundsDown()
    ensures FloorToCents(-0.005) == -0.01
  {
  }
}
