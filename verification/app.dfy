/**
 * The application root (App.tsx): the state it holds (active view, role,
 * products, transactions) and the two handlers that change it, recording a
 * completed sale and switching role. The transaction id (`Math.random`) is
 * a parameter; the timestamp and the confirmation alert are not modelled.
 */
module App {
  import opened Wrappers
  import opened Types
  import opened Pos
  import Fixtures

  /** `total`: the sum of price times quantity over the submitted lines. */
  function SaleTotal(lines: seq<SaleLine>): real {
    if |lines| == 0 then 0.0 else lines[0].price * lines[0].quantity as real + SaleTotal(lines[1..])
  }

  /** The eco figure one line adds: its product's ecoScore times 0.01, whatever the quantity; 0 when the id is unknown. */
  function LineEcoImpact(line: SaleLine, products: seq<Product>): real {
    match FindProduct(products, line.productId)
    case Some(p) => p.ecoScore as real * 0.01
    case None => 0.0
  }

  /** `ecoImpactSaved`: the eco figures of the lines added up. */
  function SaleEcoImpact(lines: seq<SaleLine>, products: seq<Product>): real {
    if |lines| == 0 then 0.0 else LineEcoImpact(lines[0], products) + SaleEcoImpact(lines[1..], products)
  }

  const OffsetContribution: real := 1.00
  const ItemCarbon: real := 0.1

  /** The transaction `handleCompleteSale` builds. */
  function NewTransaction(id: string, lines: seq<SaleLine>, products: seq<Product>): (t: Transaction)
    ensures t.id == id && |t.items| == |lines|
    ensures forall i :: 0 <= i < |lines| ==>
      t.items[i] == TxItem(lines[i].productId, lines[i].quantity, lines[i].price, ItemCarbon)
    ensures t.total == SaleTotal(lines) && t.ecoImpactSaved == SaleEcoImpact(lines, products)
    ensures t.carbonOffsetContribution == 1.0 && t.isMatched
  {
    Transaction(
      id,
      seq(|lines|, i requires 0 <= i < |lines| => TxItem(lines[i].productId, lines[i].quantity, lines[i].price, ItemCarbon)),
      SaleTotal(lines),
      SaleEcoImpact(lines, products),
      OffsetContribution,
      true)
  }

  /** The recorded total is the cart's subtotal: checkout hands over exactly the priced lines. */
  lemma {:induction false} SaleTotalIsCartSubtotal(items: seq<CartItem>)
    ensures SaleTotal(CheckoutLines(items)) == Subtotal(items)
  {
    if |items| > 0 {
      assert CheckoutLines(items)[1..] == CheckoutLines(items[1..]);
      SaleTotalIsCartSubtotal(items[1..]);
    }
  }

  /** The recorded eco figure does not depend on the quantities. */
  lemma {:induction false} EcoImpactIgnoresQuantity(lines: seq<SaleLine>, products: seq<Product>, k: int, q: int)
    requires 0 <= k < |lines|
    ensures SaleEcoImpact(lines[k := lines[k].(quantity := q)], products) == SaleEcoImpact(lines, products)
  {
    if k > 0 {
      assert lines[k := lines[k].(quantity := q)][1..] == lines[1..][k - 1 := lines[k].(quantity := q)];
      EcoImpactIgnoresQuantity(lines[1..], products, k - 1, q);
    }
  }

  /** A line whose product id is not in the catalogue adds nothing to the eco figure. */
  lemma {:induction false} UnknownProductAddsNoEco(lines: seq<SaleLine>, products: seq<Product>, line: SaleLine)
    requires forall i :: 0 <= i < |products| ==> products[i].id != line.productId
    ensures SaleEcoImpact(lines + [line], products) == SaleEcoImpact(lines, products)
  {
    if |lines| == 0 {
      assert lines + [line] == [line];
    } else {
      assert (lines + [line])[1..] == lines[1..] + [line];
      UnknownProductAddsNoEco(lines[1..], products, line);
    }
  }

  /**
   * When every cart line has count one, the recorded eco figure is the
   * cart's eco figure; the two differ as soon as a count is larger.
   */
  lemma {:induction false} EcoImpactMatchesCartForSingleUnits(c: Cart, ps: seq<Product>)
    requires InCatalog(c, ps)
    requires forall i :: 0 <= i < |c| ==> c[i].quantity == 1
    ensures SaleEcoImpact(CheckoutLines(CartItems(c, ps)), ps) == EcoSavings(CartItems(c, ps))
  {
    if |c| > 0 {
      var items := CartItems(c, ps);
      assert items[1..] == CartItems(c[1..], ps);
      assert CheckoutLines(items)[1..] == CheckoutLines(items[1..]);
      EcoImpactMatchesCartForSingleUnits(c[1..], ps);
      assert FindProduct(ps, items[0].product.id) == Some(items[0].product);
    }
  }

  /** Two toothbrushes: the cart shows 1.90 of eco savings, the recorded sale 0.95. */
  lemma EcoImpactUndercountsQuantity()
    ensures var items := CartItems([CartEntry("1", 2)], Fixtures.InitialProducts);
      EcoSavings(items) == 1.90 &&
      SaleEcoImpact(CheckoutLines(items), Fixtures.InitialProducts) == 0.95
  {
    var ps := Fixtures.InitialProducts;
    assert FindProduct(ps, "1") == Some(ps[0]);
    var items := CartItems([CartEntry("1", 2)], ps);
    assert items == [CartItem(ps[0], 2)];
    assert CheckoutLines(items) == [SaleLine("1", 2, 4.50)];
  }

  /** The root component's state. */
  class App {
    var activeView: View
    var role: Role
    var products: seq<Product>
    var transactions: seq<Transaction>

    /** The initial state: dashboard, administrator, the seed catalogue, no sales. */
    constructor ()
      ensures activeView == Dashboard && role == AdminRole
      ensures products == Fixtures.InitialProducts && transactions == []
    {
      activeView := Dashboard;
      role := AdminRole;
      products := Fixtures.InitialProducts;
      transactions := [];
    }

    /**
     * `handleCompleteSale`: append one transaction for the submitted lines.
     * Nothing else changes; in particular stock is not decremented.
     */
    method CompleteSale(lines: seq<SaleLine>, id: string)
      modifies this
      ensures transactions == old(transactions) + [NewTransaction(id, lines, old(products))]
      ensures products == old(products) && activeView == old(activeView) && role == old(role)
    {
      var t := NewTransaction(id, lines, products);
      transactions := transactions + [t];
    }

    /** The role switch: set the role and always go back to the dashboard. */
    method ChangeRole(r: Role)
      modifies this
      ensures role == r && activeView == Dashboard
      ensures products == old(products) && transactions == old(transactions)
    {
      role := r;
      activeView := Dashboard;
    }

    /** Navigation: only the active view changes. */
    method SetActiveView(v: View)
      modifies this
      ensures activeView == v && role == old(role)
      ensures products == old(products) && transactions == old(transactions)
    {
      activeView := v;
    }
  }
}
