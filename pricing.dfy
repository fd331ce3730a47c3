/**
 * Products, their category tax rate, cart lines and the summed cart totals.
 * Money is an exact `real`.
 */
module Pricing {
  import opened JavaText

  /** A catalogue product; `category` decides its tax rate. */
  datatype Product = Product(id: string, name: string, price: real, category: string)

  /** A cart line: one product and the quantity requested for it. */
  datatype OrderItem = OrderItem(product: Product, quantity: int)

  /** The GST percentage of a product: 18 for "Electronics" in any letter case, 5 for every other category. */
  function TaxRate(p: Product): real
  {
    if EqualsIgnoreCase(p.category, "Electronics") then 18.0 else 5.0
  }

  /** Taxable.calculateTax: the tax on a price at the product's rate. */
  function CalculateTax(p: Product, price: real): real
  {
    price * (TaxRate(p) / 100.0)
  }

  /** OrderItem.getSubtotal. */
  function Subtotal(line: OrderItem): real
  {
    line.product.price * line.quantity as real
  }

  /** OrderItem.getTaxAmount. */
  function TaxAmount(line: OrderItem): real
  {
    CalculateTax(line.product, line.product.price) * line.quantity as real
  }

  /** The rate is 18 exactly when the category upper-cases to ELECTRONICS, and 5 otherwise. */
  lemma TaxRateByCategory(p: Product)
    ensures TaxRate(p) == 18.0 <==> UpperCase(p.category) == "ELECTRONICS"
    ensures TaxRate(p) == 5.0 <==> UpperCase(p.category) != "ELECTRONICS"
  {
    EqualsIgnoreCaseIsUpperEquality(p.category, "Electronics");
    assert UpperCase("Electronics") == "ELECTRONICS";
  }

  /** A line's tax is its subtotal at the product's rate: price × (rate/100) × qty. */
  lemma LineTaxIsRateOfSubtotal(line: OrderItem)
    ensures TaxAmount(line) == Subtotal(line) * TaxRate(line.product) / 100.0
    ensures TaxAmount(line) == line.product.price * (TaxRate(line.product) / 100.0) * line.quantity as real
  {
  }

  /** The sum of one per-line amount over a cart, in cart order. */
  function Total(lines: seq<OrderItem>, amount: OrderItem -> real): real
  {
    if lines == [] then 0.0 else Total(lines[..|lines| - 1], amount) + amount(lines[|lines| - 1])
  }

  /** Σ subtotals: the gross total of checkout. */
  function GrossTotal(lines: seq<OrderItem>): real
  {
    Total(lines, Subtotal)
  }

  /** Σ line taxes: the total tax of checkout. */
  function TaxTotal(lines: seq<OrderItem>): real
  {
    Total(lines, TaxAmount)
  }

  /** Totals split over a concatenation. */
  lemma {:induction false} TotalAppend(a: seq<OrderItem>, b: seq<OrderItem>, amount: OrderItem -> real)
    ensures Total(a + b, amount) == Total(a, amount) + Total(b, amount)
  {
    if b == [] {
      assert a + b == a;
    } else {
      var n := |b| - 1;
      assert (a + b)[..|a + b| - 1] == a + b[..n];
      TotalAppend(a, b[..n], amount);
    }
  }

  /** The total of a single line is that line's amount. */
  lemma TotalSingleton(x: OrderItem, amount: OrderItem -> real)
    ensures Total([x], amount) == amount(x)
  {
    assert [x][..0] == [];
  }

  /** Totals do not depend on the order of the cart lines. */
  lemma {:induction false} TotalPermutation(a: seq<OrderItem>, b: seq<OrderItem>, amount: OrderItem -> real)
    requires multiset(a) == multiset(b)
    ensures Total(a, amount) == Total(b, amount)
    decreases |a|
  {
    if a == [] {
      assert |b| == |multiset(b)| == 0;
    } else {
      var n := |a| - 1;
      var x := a[n];
      assert a == a[..n] + [x];
      assert x in multiset(b);
      var j :| 0 <= j < |b| && b[j] == x;
      var rest := b[..j] + b[j + 1..];
      assert b == b[..j] + [x] + b[j + 1..];
      assert multiset(rest) == multiset(b[..j]) + multiset(b[j + 1..]);
      assert multiset(b) == multiset(b[..j]) + multiset{x} + multiset(b[j + 1..]);
      assert multiset(a) == multiset(a[..n]) + multiset{x};
      assert multiset(a[..n]) + multiset{x} == multiset(rest) + multiset{x};
      assert multiset(a[..n]) == multiset(a[..n]) + multiset{x} - multiset{x};
      assert multiset(a[..n]) == multiset(rest);
      TotalPermutation(a[..n], rest, amount);
      TotalAppend(b[..j] + [x], b[j + 1..], amount);
      TotalAppend(b[..j], [x], amount);
      TotalAppend(b[..j], b[j + 1..], amount);
      TotalSingleton(x, amount);
    }
  }

  /** With a non-negative price and quantity, a line's subtotal and tax are non-negative. */
  lemma LineAmountsNonNegative(line: OrderItem)
    requires line.product.price >= 0.0 && line.quantity >= 0
    ensures Subtotal(line) >= 0.0 && TaxAmount(line) >= 0.0
  {
    LineTaxIsRateOfSubtotal(line);
    var s := Subtotal(line);
    assert s >= 0.0 by {
      assert line.product.price * line.quantity as real >= 0.0;
    }
  }

  /** A cart whose every line has a non-negative price and quantity has non-negative totals. */
  lemma {:induction false} TotalsNonNegative(lines: seq<OrderItem>)
    requires forall i :: 0 <= i < |lines| ==> lines[i].product.price >= 0.0 && lines[i].quantity >= 0
    ensures GrossTotal(lines) >= 0.0 && TaxTotal(lines) >= 0.0
  {
    if lines != [] {
      var n := |lines| - 1;
      TotalsNonNegative(lines[..n]);
      LineAmountsNonNegative(lines[n]);
    }
  }
}
