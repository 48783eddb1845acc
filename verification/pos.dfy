/**
 * The point-of-sale till (components/POS.tsx): a cart from product id to a
 * count of at least one, the lines it prices, the subtotal and eco figures,
 * the product search and the checkout that hands the lines to the sale
 * recorder and empties the cart.
 *
 * The cart object `Record<string, number>` is a sequence of entries with
 * distinct ids, in the order `Object.entries` lists them.
 */
module Pos {
  import opened Wrappers
  import opened Types

  datatype CartEntry = CartEntry(productId: string, quantity: int)

  type Cart = seq<CartEntry>

  /** A cart line as `cartItems` builds it: the product and its count. */
  datatype CartItem = CartItem(product: Product, quantity: int)

  /** What checkout passes to `onCompleteSale` for one line. */
  datatype SaleLine = SaleLine(productId: string, quantity: int, price: real)

  /** Every id at most once, every count at least one. */
  predicate ValidCart(c: Cart) {
    (forall i, j :: 0 <= i < j < |c| ==> c[i].productId != c[j].productId) &&
    (forall i :: 0 <= i < |c| ==> c[i].quantity >= 1)
  }

  /** The position of `id` in the cart, or -1. */
  function IndexOf(c: Cart, id: string): (r: int)
    ensures -1 <= r < |c|
    ensures r == -1 <==> forall i :: 0 <= i < |c| ==> c[i].productId != id
    ensures r >= 0 ==> c[r].productId == id && forall i :: 0 <= i < r ==> c[i].productId != id
  {
    if |c| == 0 then -1
    else if c[0].productId == id then 0
    else
      var k := IndexOf(c[1..], id);
      if k == -1 then -1 else k + 1
  }

  /** The count of `id`, 0 when absent. */
  function QtyOf(c: Cart, id: string): int {
    var k := IndexOf(c, id);
    if k == -1 then 0 else c[k].quantity
  }

  /** `addToCart`: one more of `id`; a new key goes last, an existing key keeps its place. */
  function Added(c: Cart, id: string): Cart {
    var k := IndexOf(c, id);
    if k == -1 then c + [CartEntry(id, 1)]
    else c[k := CartEntry(id, c[k].quantity + 1)]
  }

  /**
   * `removeFromCart`: decrement a count above one, otherwise delete the key.
   * For an absent key `undefined > 1` is false and deleting it changes nothing.
   */
  function Removed(c: Cart, id: string): Cart {
    var k := IndexOf(c, id);
    if k == -1 then c
    else if c[k].quantity > 1 then c[k := CartEntry(id, c[k].quantity - 1)]
    else c[..k] + c[k + 1..]
  }

  /** The first catalogue product with the id, if any. */
  function FindProduct(ps: seq<Product>, id: string): (r: Option<Product>)
    ensures r.None? <==> forall i :: 0 <= i < |ps| ==> ps[i].id != id
    ensures r.Some? ==> (r.value.id == id &&
      exists i :: 0 <= i < |ps| && ps[i] == r.value && forall j :: 0 <= j < i ==> ps[j].id != id)
  {
    if |ps| == 0 then None
    else if ps[0].id == id then Some(ps[0])
    else
      var r := FindProduct(ps[1..], id);
      if r.Some? then
        ghost var i :| 1 <= i + 1 < |ps| && ps[1..][i] == r.value && forall j :: 0 <= j < i ==> ps[1..][j].id != id;
        assert ps[i + 1] == r.value;
        r
      else r
  }

  /** Every id in the cart names a product: the `!` in `cartItems` takes this for granted. */
  predicate InCatalog(c: Cart, ps: seq<Product>) {
    forall i :: 0 <= i < |c| ==> FindProduct(ps, c[i].productId).Some?
  }

  /** `cartItems`: one line per cart entry, in cart order. */
  function CartItems(c: Cart, ps: seq<Product>): (r: seq<CartItem>)
    requires InCatalog(c, ps)
    ensures |r| == |c|
    ensures forall i :: 0 <= i < |c| ==> r[i].product.id == c[i].productId && r[i].quantity == c[i].quantity
    ensures forall i :: 0 <= i < |c| ==> r[i].product == FindProduct(ps, c[i].productId).value
  {
    seq(|c|, i requires 0 <= i < |c| => CartItem(FindProduct(ps, c[i].productId).value, c[i].quantity))
  }

  function LineTotal(it: CartItem): real {
    it.product.price * it.quantity as real
  }

  /** `subtotal`: the sum of price times count over the lines. */
  function Subtotal(items: seq<CartItem>): real {
    if |items| == 0 then 0.0 else LineTotal(items[0]) + Subtotal(items[1..])
  }

  function LineEco(it: CartItem): real {
    it.product.ecoScore as real * it.quantity as real * 0.01
  }

  /** `ecoSavings`: the sum of ecoScore times count times 0.01 over the lines. */
  function EcoSavings(items: seq<CartItem>): real {
    if |items| == 0 then 0.0 else LineEco(items[0]) + EcoSavings(items[1..])
  }

  /** The lines checkout hands over: id, count and unit price of each cart line. */
  function CheckoutLines(items: seq<CartItem>): (r: seq<SaleLine>)
    ensures |r| == |items|
    ensures forall i :: 0 <= i < |items| ==>
      r[i].productId == items[i].product.id && r[i].quantity == items[i].quantity && r[i].price == items[i].product.price
  {
    seq(|items|, i requires 0 <= i < |items| => SaleLine(items[i].product.id, items[i].quantity, items[i].product.price))
  }

  // ---------------------------------------------------------------------
  // Product search, on ASCII letters
  // ---------------------------------------------------------------------

  function LowerChar(ch: char): char {
    if 'A' <= ch <= 'Z' then (ch as int + 32) as char else ch
  }

  function Lower(s: string): (r: string)
    ensures |r| == |s| && forall i :: 0 <= i < |s| ==> r[i] == LowerChar(s[i])
  {
    seq(|s|, i requires 0 <= i < |s| => LowerChar(s[i]))
  }

  /** Lower-casing leaves no ASCII capital behind and a second pass changes nothing. */
  lemma LowerIsIdempotent(s: string)
    ensures forall i :: 0 <= i < |Lower(s)| ==> !('A' <= Lower(s)[i] <= 'Z')
    ensures Lower(Lower(s)) == Lower(s)
  {
  }

  /** The search ignores the case of the term and of the product name. */
  lemma SearchIgnoresCase(p: Product, term: string)
    ensures Matches(p, Lower(term)) == Matches(p, term)
    ensures Matches(p.(name := Lower(p.name)), term) == Matches(p, term)
  {
    LowerIsIdempotent(term);
    LowerIsIdempotent(p.name);
  }

  /** `sub` sits in `s` at position `k`. */
  predicate SliceAt(s: string, sub: string, k: int) {
    0 <= k && k + |sub| <= |s| && s[k..k + |sub|] == sub
  }

  /** `sub` sits somewhere in `s`. */
  predicate Includes(s: string, sub: string) {
    exists k :: 0 <= k <= |s| && SliceAt(s, sub, k)
  }

  predicate Matches(p: Product, term: string) {
    Includes(Lower(p.name), Lower(term))
  }

  /** `filteredProducts`: the products whose lower-cased name includes the lower-cased term. */
  function FilteredProducts(ps: seq<Product>, term: string): seq<Product> {
    if |ps| == 0 then []
    else (if Matches(ps[0], term) then [ps[0]] else []) + FilteredProducts(ps[1..], term)
  }

  /** The search keeps exactly the matching products. */
  lemma {:induction false} FilteredProductsMembers(ps: seq<Product>, term: string)
    ensures forall p :: p in FilteredProducts(ps, term) <==> p in ps && Matches(p, term)
  {
    if |ps| > 0 {
      FilteredProductsMembers(ps[1..], term);
      assert ps == [ps[0]] + ps[1..];
    }
  }

  /** An empty search shows every product, in catalogue order. */
  lemma {:induction false} EmptySearchShowsAll(ps: seq<Product>)
    ensures FilteredProducts(ps, "") == ps
  {
    if |ps| > 0 {
      assert SliceAt(Lower(ps[0].name), Lower(""), 0);
      EmptySearchShowsAll(ps[1..]);
      assert ps == [ps[0]] + ps[1..];
    }
  }

  // ---------------------------------------------------------------------
  // Cart operations
  // ---------------------------------------------------------------------

  lemma QtyAt(c: Cart, k: int)
    requires ValidCart(c) && 0 <= k < |c|
    ensures IndexOf(c, c[k].productId) == k && QtyOf(c, c[k].productId) == c[k].quantity
  {
  }

  /** `addToCart` adds one to the count of `id`, keeps the cart valid and leaves every other count alone. */
  lemma AddToCartCounts(c: Cart, id: string)
    requires ValidCart(c)
    ensures var r := Added(c, id);
      ValidCart(r) &&
      QtyOf(r, id) == QtyOf(c, id) + 1 &&
      forall other :: other != id ==> QtyOf(r, other) == QtyOf(c, other)
  {
    var r := Added(c, id);
    var k := IndexOf(c, id);
    forall other | other != id ensures QtyOf(r, other) == QtyOf(c, other) {
      var j := IndexOf(c, other);
      if j != -1 {
        QtyAt(r, j);
      } else {
        assert forall i :: 0 <= i < |r| ==> r[i].productId != other;
      }
    }
    if k == -1 {
      QtyAt(r, |c|);
    } else {
      QtyAt(r, k);
    }
  }

  /**
   * `removeFromCart` takes one from a count above one, deletes an entry whose
   * count is one, keeps the cart valid and leaves every other count alone.
   */
  lemma RemoveFromCartCounts(c: Cart, id: string)
    requires ValidCart(c)
    ensures var r := Removed(c, id);
      ValidCart(r) &&
      (QtyOf(c, id) > 1 ==> QtyOf(r, id) == QtyOf(c, id) - 1) &&
      (QtyOf(c, id) <= 1 ==> QtyOf(r, id) == 0 && forall i :: 0 <= i < |r| ==> r[i].productId != id) &&
      forall other :: other != id ==> QtyOf(r, other) == QtyOf(c, other)
  {
    var k := IndexOf(c, id);
    if k != -1 {
      if c[k].quantity > 1 {
        DecrementCounts(c, k);
      } else {
        DeleteCounts(c, k);
      }
    }
  }

  lemma DecrementCounts(c: Cart, k: int)
    requires ValidCart(c) && 0 <= k < |c| && c[k].quantity > 1
    ensures var id := c[k].productId;
      var r := c[k := CartEntry(id, c[k].quantity - 1)];
      ValidCart(r) && QtyOf(r, id) == c[k].quantity - 1 &&
      forall other :: other != id ==> QtyOf(r, other) == QtyOf(c, other)
  {
    var id := c[k].productId;
    var r := c[k := CartEntry(id, c[k].quantity - 1)];
    QtyAt(r, k);
    forall other | other != id ensures QtyOf(r, other) == QtyOf(c, other) {
      var j := IndexOf(c, other);
      if j != -1 {
        QtyAt(r, j);
      } else {
        assert forall i :: 0 <= i < |r| ==> r[i].productId != other;
      }
    }
  }

  lemma DeleteCounts(c: Cart, k: int)
    requires ValidCart(c) && 0 <= k < |c|
    ensures var id := c[k].productId;
      var r := c[..k] + c[k + 1..];
      ValidCart(r) && QtyOf(r, id) == 0 && (forall i :: 0 <= i < |r| ==> r[i].productId != id) &&
      forall other :: other != id ==> QtyOf(r, other) == QtyOf(c, other)
  {
    var id := c[k].productId;
    var r := c[..k] + c[k + 1..];
    assert forall i :: 0 <= i < |r| ==> r[i] == if i < k then c[i] else c[i + 1];
    forall other | other != id ensures QtyOf(r, other) == QtyOf(c, other) {
      var j := IndexOf(c, other);
      if j != -1 {
        QtyAt(r, if j < k then j else j - 1);
      } else {
        assert forall i :: 0 <= i < |r| ==> r[i].productId != other;
      }
    }
  }

  /** `removeFromCart` on an id not in the cart changes nothing. */
  lemma RemoveAbsentIsNoop(c: Cart, id: string)
    requires forall i :: 0 <= i < |c| ==> c[i].productId != id
    ensures Removed(c, id) == c
  {
  }

  /** Adding an id and then removing it gives back the cart exactly, entry order included. */
  lemma AddThenRemoveRestores(c: Cart, id: string)
    requires ValidCart(c)
    ensures Removed(Added(c, id), id) == c
  {
    var k := IndexOf(c, id);
    var a := Added(c, id);
    if k == -1 {
      assert a[|c|].productId == id;
      assert forall i :: 0 <= i < |c| ==> a[i] == c[i];
      assert IndexOf(a, id) == |c|;
      assert a[..|c|] == c;
    } else {
      QtyAt(a, k);
      assert a[k := CartEntry(id, a[k].quantity - 1)] == c;
    }
  }

  // ---------------------------------------------------------------------
  // Totals
  // ---------------------------------------------------------------------

  lemma {:induction false} SubtotalAppend(xs: seq<CartItem>, ys: seq<CartItem>)
    ensures Subtotal(xs + ys) == Subtotal(xs) + Subtotal(ys)
  {
    if |xs| == 0 {
      assert xs + ys == ys;
    } else {
      assert (xs + ys)[0] == xs[0] && (xs + ys)[1..] == xs[1..] + ys;
      SubtotalAppend(xs[1..], ys);
    }
  }

  lemma {:induction false} SubtotalUpdate(xs: seq<CartItem>, k: int, v: CartItem)
    requires 0 <= k < |xs|
    ensures Subtotal(xs[k := v]) == Subtotal(xs) - LineTotal(xs[k]) + LineTotal(v)
  {
    if k > 0 {
      assert xs[k := v][1..] == xs[1..][k - 1 := v];
      SubtotalUpdate(xs[1..], k - 1, v);
    }
  }

  /** Adding a catalogue product raises the subtotal by exactly its price. */
  lemma SubtotalAfterAdd(c: Cart, ps: seq<Product>, id: string)
    requires InCatalog(c, ps) && FindProduct(ps, id).Some?
    ensures InCatalog(Added(c, id), ps)
    ensures Subtotal(CartItems(Added(c, id), ps)) == Subtotal(CartItems(c, ps)) + FindProduct(ps, id).value.price
  {
    var k := IndexOf(c, id);
    if k == -1 {
      SubtotalAfterNewLine(c, ps, id);
    } else {
      SubtotalAfterBump(c, ps, k);
    }
  }

  lemma SubtotalAfterNewLine(c: Cart, ps: seq<Product>, id: string)
    requires InCatalog(c, ps) && FindProduct(ps, id).Some? && IndexOf(c, id) == -1
    ensures InCatalog(Added(c, id), ps)
    ensures Subtotal(CartItems(Added(c, id), ps)) == Subtotal(CartItems(c, ps)) + FindProduct(ps, id).value.price
  {
    var p := FindProduct(ps, id).value;
    CartItemsAppend(c, ps, id);
    SubtotalAppend(CartItems(c, ps), [CartItem(p, 1)]);
    assert Subtotal([CartItem(p, 1)]) == p.price;
  }

  lemma SubtotalAfterBump(c: Cart, ps: seq<Product>, k: int)
    requires InCatalog(c, ps) && 0 <= k < |c| && IndexOf(c, c[k].productId) == k
    ensures InCatalog(Added(c, c[k].productId), ps)
    ensures Subtotal(CartItems(Added(c, c[k].productId), ps))
         == Subtotal(CartItems(c, ps)) + FindProduct(ps, c[k].productId).value.price
  {
    var id := c[k].productId;
    var p := FindProduct(ps, id).value;
    var items := CartItems(c, ps);
    var v := CartItem(p, c[k].quantity + 1);
    assert Added(c, id) == c[k := CartEntry(id, c[k].quantity + 1)];
    CartItemsBump(c, ps, k);
    assert CartItems(Added(c, id), ps) == items[k := v];
    SubtotalUpdate(items, k, v);
    assert items[k] == CartItem(p, c[k].quantity);
    OneMoreLine(p, c[k].quantity);
  }

  lemma OneMoreLine(p: Product, q: int)
    ensures LineTotal(CartItem(p, q + 1)) == LineTotal(CartItem(p, q)) + p.price
  {
    assert (q + 1) as real == q as real + 1.0;
  }

  lemma CartItemsAppend(c: Cart, ps: seq<Product>, id: string)
    requires InCatalog(c, ps) && FindProduct(ps, id).Some? && IndexOf(c, id) == -1
    ensures InCatalog(Added(c, id), ps)
    ensures CartItems(Added(c, id), ps) == CartItems(c, ps) + [CartItem(FindProduct(ps, id).value, 1)]
  {
    var a := Added(c, id);
    assert forall i :: 0 <= i < |c| ==> a[i] == c[i];
  }

  lemma CartItemsBump(c: Cart, ps: seq<Product>, k: int)
    requires InCatalog(c, ps) && 0 <= k < |c|
    ensures var id := c[k].productId;
      var a := c[k := CartEntry(id, c[k].quantity + 1)];
      InCatalog(a, ps) &&
      CartItems(a, ps) == CartItems(c, ps)[k := CartItem(FindProduct(ps, id).value, c[k].quantity + 1)]
  {
  }

  /** An empty cart costs nothing and saves nothing. */
  lemma EmptyCartTotals(ps: seq<Product>)
    ensures Subtotal(CartItems([], ps)) == 0.0 && EcoSavings(CartItems([], ps)) == 0.0
  {
  }

  /** Counts are positive, so with non-negative prices and scores both sums are non-negative. */
  lemma {:induction false} TotalsNonNegative(items: seq<CartItem>)
    requires forall i :: 0 <= i < |items| ==>
      items[i].quantity >= 1 && items[i].product.price >= 0.0 && items[i].product.ecoScore >= 0
    ensures Subtotal(items) >= 0.0 && EcoSavings(items) >= 0.0
  {
    if |items| > 0 {
      TotalsNonNegative(items[1..]);
    }
  }

  // ---------------------------------------------------------------------
  // The till
  // ---------------------------------------------------------------------

  /** The POS screen's mutable state: the cart and the search term. */
  class Till {
    var cart: Cart
    var searchTerm: string

    predicate Valid()
      reads this
    {
      ValidCart(cart)
    }

    constructor ()
      ensures cart == [] && searchTerm == "" && Valid()
    {
      cart := [];
      searchTerm := "";
    }

    method AddToCart(id: string)
      requires Valid()
      modifies this
      ensures cart == Added(old(cart), id) && searchTerm == old(searchTerm) && Valid()
    {
      AddToCartCounts(cart, id);
      cart := Added(cart, id);
    }

    method RemoveFromCart(id: string)
      requires Valid()
      modifies this
      ensures cart == Removed(old(cart), id) && searchTerm == old(searchTerm) && Valid()
    {
      RemoveFromCartCounts(cart, id);
      var k := IndexOf(cart, id);
      if k != -1 {
        if cart[k].quantity > 1 {
          cart := cart[k := CartEntry(id, cart[k].quantity - 1)];
        } else {
          cart := cart[..k] + cart[k + 1..];
        }
      }
    }

    method SetSearchTerm(term: string)
      modifies this
      ensures searchTerm == term && cart == old(cart)
    {
      searchTerm := term;
    }

    /**
     * `handleCheckout`: nothing on an empty cart; otherwise hand over one line
     * per entry and empty the cart.
     */
    method Checkout(products: seq<Product>) returns (sale: Option<seq<SaleLine>>)
      requires Valid() && InCatalog(cart, products)
      modifies this
      ensures old(cart) == [] ==> sale.None? && cart == []
      ensures old(cart) != [] ==> sale == Some(CheckoutLines(CartItems(old(cart), products))) && cart == []
      ensures searchTerm == old(searchTerm) && Valid()
    {
      var items := CartItems(cart, products);
      if |items| == 0 {
        return None;
      }
      sale := Some(CheckoutLines(items));
      cart := [];
    }
  }
}
