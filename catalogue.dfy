/**
 * The catalogue listing: products in ascending order of price.
 */
module Catalogue {
  import opened Pricing

  /** Ascending by price. */
  predicate SortedByPrice(s: seq<Product>)
  {
    forall i, j :: 0 <= i < j < |s| ==> s[i].price <= s[j].price
  }

  /** Inserts a product into a sorted listing after every product that is not dearer. */
  function InsertByPrice(p: Product, s: seq<Product>): (r: seq<Product>)
    requires SortedByPrice(s)
    ensures SortedByPrice(r)
    ensures multiset(r) == multiset(s) + multiset{p}
    ensures forall x :: x in r ==> x == p || x in s
  {
    if s == [] then [p]
    else if s[|s| - 1].price <= p.price then s + [p]
    else
      var n := |s| - 1;
      assert s == s[..n] + [s[n]];
      var front := InsertByPrice(p, s[..n]);
      assert forall x :: x in front ==> x.price <= s[n].price;
      front + [s[n]]
  }

  /** The listing sorted ascending by price: a sorted permutation of its input. */
  function SortByPrice(s: seq<Product>): (r: seq<Product>)
    ensures SortedByPrice(r)
    ensures multiset(r) == multiset(s)
  {
    if s == [] then []
    else
      var n := |s| - 1;
      assert s == s[..n] + [s[n]];
      InsertByPrice(s[n], SortByPrice(s[..n]))
  }
}
