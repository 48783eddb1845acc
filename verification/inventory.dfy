/**
 * The inventory table's classifiers (components/Inventory.tsx): the
 * low-stock badge and the three-colour eco-score bar.
 */
module Inventory {
  import opened Types
  import Fixtures

  /** The orange stock badge. */
  predicate LowStock(p: Product) {
    p.stock < 20
  }

  datatype EcoBand = Green | Yellow | Red

  /** The eco bar's colour: above 80 green, else above 50 yellow, else red. */
  function Band(p: Product): (r: EcoBand)
    ensures r == Green <==> p.ecoScore > 80
    ensures r == Yellow <==> 50 < p.ecoScore <= 80
    ensures r == Red <==> p.ecoScore <= 50
  {
    if p.ecoScore > 80 then Green else if p.ecoScore > 50 then Yellow else Red
  }

  /** The band never gets worse as the score rises. */
  lemma BandMonotone(p: Product, q: Product)
    requires p.ecoScore <= q.ecoScore
    ensures Band(p) == Green ==> Band(q) == Green
    ensures Band(p) == Yellow ==> Band(q) != Red
  {
  }

  /**
   * The badge is antitone in stock: a product with no more units than a
   * badged one is badged too, and one with at least as many as an unbadged
   * one is not. It flips between 19 and 20 units.
   */
  lemma LowStockAntitone(p: Product, q: Product)
    requires p.stock <= q.stock
    ensures LowStock(q) ==> LowStock(p)
    ensures !LowStock(p) ==> !LowStock(q)
    ensures LowStock(p.(stock := 19)) && !LowStock(p.(stock := 20))
  {
  }

  /** None of the seed products (50, 25 and 40 units) carries the badge, and all three have green bars. */
  lemma SeedCatalogueHealthy()
    ensures forall i :: 0 <= i < |Fixtures.InitialProducts| ==>
      !LowStock(Fixtures.InitialProducts[i]) && Band(Fixtures.InitialProducts[i]) == Green
  {
  }
}
