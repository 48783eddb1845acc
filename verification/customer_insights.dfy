/**
 * The customer loyalty table (components/CustomerInsights.tsx): the shared
 * customer array sorted in place by visit count, most visits first, and
 * the per-row VIP label and visit bars.
 */
module CustomerInsights {
  import opened Types

  /** Visit counts never increase along the list. */
  predicate ByVisitsDescending(s: seq<Customer>) {
    forall i, j :: 0 <= i < j < |s| ==> s[i].visitCount >= s[j].visitCount
  }

  /**
   * The customer table's sort, most visits first, which reorders the shared
   * customer array itself. Written as an insertion sort that moves a customer
   * left only past customers with strictly fewer visits.
   */
  method SortByVisits(a: array<Customer>)
    modifies a
    ensures ByVisitsDescending(a[..])
    ensures multiset(a[..]) == multiset(old(a[..]))
  {
    var i := 0;
    while i < a.Length
      invariant 0 <= i <= a.Length
      invariant ByVisitsDescending(a[..i])
      invariant multiset(a[..]) == multiset(old(a[..]))
    {
      Insert(a, i);
      i := i + 1;
    }
    assert a[..a.Length] == a[..];
  }

  /** One pass: the customer at `i` moves left past every neighbour with fewer visits, keeping `a[..i + 1]` ordered. */
  method Insert(a: array<Customer>, i: int)
    requires 0 <= i < a.Length && ByVisitsDescending(a[..i])
    modifies a
    ensures ByVisitsDescending(a[..i + 1])
    ensures multiset(a[..]) == multiset(old(a[..]))
  {
    var j := i;
    while j > 0 && a[j - 1].visitCount < a[j].visitCount
      invariant 0 <= j <= i
      invariant forall k, m :: 0 <= k < m <= i && k != j && m != j ==> a[k].visitCount >= a[m].visitCount
      invariant forall m :: j < m <= i ==> a[j].visitCount > a[m].visitCount
      invariant multiset(a[..]) == multiset(old(a[..]))
    {
      Swap(a, j - 1, j);
      j := j - 1;
    }
  }

  /** Exchanging two neighbours keeps the same customers. */
  method Swap(a: array<Customer>, k: int, m: int)
    requires 0 <= k < m < a.Length
    modifies a
    ensures a[..] == old(a[..])[k := old(a[m])][m := old(a[k])]
    ensures multiset(a[..]) == multiset(old(a[..]))
  {
    a[k], a[m] := a[m], a[k];
  }

  /** The status badge: VIP above 15 visits. */
  predicate IsVip(c: Customer) {
    c.visitCount > 15
  }

  function StatusLabel(c: Customer): (r: string)
    ensures r == "VIP" || r == "Regular"
    ensures r == "VIP" <==> c.visitCount > 15
  {
    if IsVip(c) then "VIP" else "Regular"
  }

  /** Visit bar `i` of five is lit when `i` is below a fifth of the visit count, in real division. */
  predicate VisitBarLit(c: Customer, i: int) {
    (i as real) < (c.visitCount as real) / 5.0
  }

  /** A bar is lit exactly when five times its index is below the visit count. */
  lemma VisitBarRule(c: Customer, i: int)
    ensures VisitBarLit(c, i) <==> 5 * i < c.visitCount
  {
  }

  /** Exactly 15 visits is Regular and 16 is VIP; a VIP lights at least four bars, and all five only above 20 visits. */
  lemma VipBoundary(c: Customer, i: int)
    ensures c.visitCount == 15 ==> StatusLabel(c) == "Regular"
    ensures c.visitCount == 16 ==> StatusLabel(c) == "VIP"
    ensures IsVip(c) && 0 <= i < 4 ==> VisitBarLit(c, i)
    ensures (forall k :: 0 <= k < 5 ==> VisitBarLit(c, k)) <==> c.visitCount > 20
  {
    VisitBarRule(c, i);
    VisitBarRule(c, 4);
    forall k | 0 <= k < 5 && c.visitCount > 20
      ensures VisitBarLit(c, k)
    {
      VisitBarRule(c, k);
    }
  }
}
