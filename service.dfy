/**
 * EcommerceService: the inventory, the cart it fills, and checkout.
 * Console input (coupon text, payment method) arrives as parameters; what
 * checkout would print, pay and write is returned as a value.
 */
module Service {
  import opened JavaText
  import opened Pricing
  import opened Promotions
  import opened Coupons
  import opened Payments
  import opened Catalogue

  /** The largest quantity addToCart accepts for one request. */
  const StockLimit: int := 10

  /** How an addToCart request ended: appended, unknown id (reported, not thrown), or OutOfStockException. */
  datatype AddResult = Added | ProductNotFound | OutOfStock

  /** The invoice snapshot: the cart lines at checkout, the total tax and the grand total.
      The order id and timestamp are not modelled. */
  datatype Invoice = Invoice(lines: seq<OrderItem>, totalTax: real, grandTotal: real)

  /** What a checkout did. */
  datatype CheckoutResult =
    | EmptyCart
    | Completed(grossTotal: real, totalTax: real, promotion: Promotion, payment: Payment, invoice: Invoice)

  /** The loadProducts mock catalogue, keyed by product id. */
  function MockInventory(): (m: map<string, Product>)
    ensures forall id :: id in m ==> m[id].id == id
  {
    map[
      "P101" := Product("P101", "Laptop", 1200.0, "Electronics"),
      "P102" := Product("P102", "Java Book", 45.0, "Books"),
      "P103" := Product("P103", "Headphones", 150.0, "Electronics"),
      "P104" := Product("P104", "Desk Lamp", 30.0, "Home")
    ]
  }

  /** The products of an inventory in the given key order. */
  function ValuesInOrder(inventory: map<string, Product>, keys: seq<string>): (r: seq<Product>)
    requires forall i :: 0 <= i < |keys| ==> keys[i] in inventory
    ensures |r| == |keys|
    ensures forall i :: 0 <= i < |keys| ==> r[i] == inventory[keys[i]]
  {
    if keys == [] then [] else ValuesInOrder(inventory, keys[..|keys| - 1]) + [inventory[keys[|keys| - 1]]]
  }

  /** `keys` lists every key of the inventory exactly once. */
  ghost predicate EnumeratesKeys(keys: seq<string>, inventory: map<string, Product>)
  {
    && (forall i, j :: 0 <= i < j < |keys| ==> keys[i] != keys[j])
    && (forall i :: 0 <= i < |keys| ==> keys[i] in inventory)
    && (forall k :: k in inventory ==> k in keys)
  }

  /** The products listed in an enumeration of the keys are exactly the inventory's products. */
  lemma EnumeratedValues(inventory: map<string, Product>, keys: seq<string>)
    requires EnumeratesKeys(keys, inventory)
    ensures forall id :: id in inventory ==> inventory[id] in ValuesInOrder(inventory, keys)
    ensures forall p :: p in ValuesInOrder(inventory, keys) ==> p in inventory.Values
  {
    var values := ValuesInOrder(inventory, keys);
    forall id | id in inventory
      ensures inventory[id] in values
    {
      var i :| 0 <= i < |keys| && keys[i] == id;
      assert values[i] == inventory[id];
    }
    forall p | p in values
      ensures p in inventory.Values
    {
      var i :| 0 <= i < |values| && values[i] == p;
      assert keys[i] in inventory;
    }
  }

  class EcommerceService {
    const inventory: map<string, Product>
    var cart: seq<OrderItem>

    /** Every cart line holds a product taken from the inventory. */
    ghost predicate Valid()
      reads this
    {
      forall i :: 0 <= i < |cart| ==> cart[i].product in inventory.Values
    }

    constructor (inventory: map<string, Product>)
      ensures Valid()
      ensures this.inventory == inventory && cart == []
    {
      this.inventory := inventory;
      cart := [];
    }

    /** getAllProducts: every product of the inventory once per key, ascending by price.
        `order` is the key order in which the map was traversed. */
    method GetAllProducts() returns (listing: seq<Product>, ghost order: seq<string>)
      ensures EnumeratesKeys(order, inventory)
      ensures multiset(listing) == multiset(ValuesInOrder(inventory, order))
      ensures SortedByPrice(listing)
      ensures |listing| == |inventory|
      ensures forall id :: id in inventory ==> inventory[id] in listing
      ensures forall p :: p in listing ==> p in inventory.Values
    {
      var values;
      values, order := InventoryValues();
      listing := SortByPrice(values);
      assert |listing| == |inventory| by {
        assert |multiset(listing)| == |multiset(values)|;
      }
      forall p
        ensures p in listing <==> p in values
      {
        assert p in multiset(listing) <==> p in multiset(values);
      }
    }

    /** inventory.values(): one product per key, in the map's traversal order `order`. */
    method InventoryValues() returns (values: seq<Product>, ghost order: seq<string>)
      ensures EnumeratesKeys(order, inventory)
      ensures |order| == |inventory|
      ensures values == ValuesInOrder(inventory, order)
      ensures |values| == |inventory|
      ensures forall id :: id in inventory ==> inventory[id] in values
      ensures forall p :: p in values ==> p in inventory.Values
    {
      var rest := inventory.Keys;
      values, order := [], [];
      while rest != {}
        invariant rest <= inventory.Keys
        invariant forall i :: 0 <= i < |order| ==> order[i] in inventory && order[i] !in rest
        invariant forall i, j :: 0 <= i < j < |order| ==> order[i] != order[j]
        invariant forall k :: k in inventory ==> k in rest || k in order
        invariant |order| + |rest| == |inventory|
        invariant values == ValuesInOrder(inventory, order)
        decreases rest
      {
        var k :| k in rest;
        values := values + [inventory[k]];
        order := order + [k];
        rest := rest - {k};
      }
      EnumeratedValues(inventory, order);
    }

    /** addToCart: an unknown id leaves the cart unchanged; a quantity above the stock
        limit raises OutOfStock and leaves it unchanged; otherwise exactly one line is appended. */
    method AddToCart(productId: string, qty: int) returns (result: AddResult)
      requires Valid()
      modifies this
      ensures Valid()
      ensures result == (if productId !in inventory then ProductNotFound
                         else if qty > StockLimit then OutOfStock
                         else Added)
      ensures result == Added ==> cart == old(cart) + [OrderItem(inventory[productId], qty)]
      ensures result != Added ==> cart == old(cart)
    {
      if productId !in inventory {
        return ProductNotFound;
      }
      if qty > StockLimit {
        return OutOfStock;
      }
      cart := cart + [OrderItem(inventory[productId], qty)];
      result := Added;
    }

    /** The gross total and total tax of the cart, summed line by line in cart order. */
    method CartTotals() returns (gross: real, tax: real)
      ensures gross == GrossTotal(cart) && tax == TaxTotal(cart)
    {
      gross, tax := 0.0, 0.0;
      var i := 0;
      while i < |cart|
        invariant 0 <= i <= |cart|
        invariant gross == GrossTotal(cart[..i]) && tax == TaxTotal(cart[..i])
      {
        assert cart[..i + 1][..i] == cart[..i];
        gross := gross + Subtotal(cart[i]);
        tax := tax + TaxAmount(cart[i]);
        i := i + 1;
      }
      assert cart[..i] == cart;
    }

    /** checkout: an empty cart is a no-op. Otherwise the base is gross plus tax, the
        coupon picks the promotion, the chosen processor is charged the promotion's cost,
        an invoice of the cart is taken, and the cart is emptied. */
    method Checkout(coupon: string, paymentMethod: string) returns (result: CheckoutResult)
      requires Valid()
      modifies this
      ensures Valid() && cart == []
      ensures old(cart) == [] ==> result == EmptyCart
      ensures old(cart) != [] ==> result.Completed?
      ensures result.Completed? ==>
        && result.grossTotal == GrossTotal(old(cart))
        && result.totalTax == TaxTotal(old(cart))
        && result.promotion == ApplyCoupon(result.grossTotal + result.totalTax, coupon)
        && result.payment == Payment(GetProcessor(paymentMethod), Cost(result.promotion.order))
        && result.invoice == Invoice(old(cart), result.totalTax, result.payment.amount)
      ensures result.Completed? ==>
        forall i :: 0 <= i < |result.invoice.lines| ==> result.invoice.lines[i].product in inventory.Values
    {
      if cart == [] {
        return EmptyCart;
      }
      var gross, tax := CartTotals();
      var promotion := ApplyCoupon(gross + tax, coupon);
      var finalAmount := Cost(promotion.order);
      var payment := Payment(GetProcessor(paymentMethod), finalAmount);
      var invoice := Invoice(cart, tax, finalAmount);
      cart := [];
      result := Completed(gross, tax, promotion, payment, invoice);
    }
  }

  /** For a cart of non-negative prices and quantities, whatever the coupon, the
      amount charged lies between 0 and the tax-inclusive base. */
  lemma {:induction false} ChargeWithinBase(lines: seq<OrderItem>, coupon: string)
    requires forall i :: 0 <= i < |lines| ==> lines[i].product.price >= 0.0 && lines[i].quantity >= 0
    ensures var base := GrossTotal(lines) + TaxTotal(lines);
      0.0 <= Cost(ApplyCoupon(base, coupon).order) <= base
  {
    TotalsNonNegative(lines);
    CouponWithinBase(GrossTotal(lines) + TaxTotal(lines), coupon);
  }

  /** addToCart accepts a quantity of -1; such a line makes the base negative,
      and SAVE10 keeps the payable amount negative. */
  lemma NegativeQuantityCharge()
    ensures var line := OrderItem(MockInventory()["P101"], -1);
      && GrossTotal([line]) + TaxTotal([line]) == -1416.0
      && Cost(ApplyCoupon(-1416.0, "SAVE10").order) == -1274.4
  {
    var laptop := MockInventory()["P101"];
    assert TaxRate(laptop) == 18.0 by {
      TaxRateByCategory(laptop);
      assert UpperCase("Electronics") == "ELECTRONICS";
    }
    TotalSingleton(OrderItem(laptop, -1), Subtotal);
    TotalSingleton(OrderItem(laptop, -1), TaxAmount);
    TrimUnpadded("SAVE10");
    assert UpperCase("SAVE10") == "SAVE10";
    CouponOutcome(-1416.0, "SAVE10");
  }

  /** FLAT50 on that negative base gives max(0, -1466), so the payable amount is raised to 0. */
  lemma NegativeBaseFlat50()
    ensures Cost(ApplyCoupon(-1416.0, "FLAT50").order) == 0.0
  {
    TrimUnpadded("FLAT50");
    assert UpperCase("FLAT50") == "FLAT50";
    CouponOutcome(-1416.0, "FLAT50");
  }

  /** The example order: one laptop at 1200 in "Electronics" has gross 1200 and tax 216. */
  lemma LaptopTotals()
    ensures var line := OrderItem(MockInventory()["P101"], 1);
      GrossTotal([line]) == 1200.0 && TaxTotal([line]) == 216.0
  {
    var laptop := MockInventory()["P101"];
    assert TaxRate(laptop) == 18.0 by {
      TaxRateByCategory(laptop);
      assert UpperCase("Electronics") == "ELECTRONICS";
    }
    TotalSingleton(OrderItem(laptop, 1), Subtotal);
    TotalSingleton(OrderItem(laptop, 1), TaxAmount);
  }

  /** With SAVE10 the base 1416 becomes 1274.4, and "CARD" selects the card processor. */
  lemma LaptopPayment()
    ensures Cost(ApplyCoupon(1416.0, "SAVE10").order) == 1274.4
    ensures GetProcessor("CARD") == CreditCardProcessor
  {
    assert Cost(ApplyCoupon(1416.0, "SAVE10").order) == 1274.4 by {
      TrimUnpadded("SAVE10");
      assert UpperCase("SAVE10") == "SAVE10";
      CouponOutcome(1416.0, "SAVE10");
    }
    assert GetProcessor("CARD") == CreditCardProcessor by {
      ProcessorSelection("CARD");
      assert UpperCase("CARD") == "CARD";
    }
  }

  lemma MockInventoryKeys()
    ensures "P101" in MockInventory() && "P102" in MockInventory() && "P999" !in MockInventory()
    ensures MockInventory()["P101"] == Product("P101", "Laptop", 1200.0, "Electronics")
  {
  }

  /** A client scenario: an over-limit request and an unknown id leave the cart as it was. */
  method RejectedRequests()
  {
    var service := new EcommerceService(MockInventory());
    MockInventoryKeys();
    var tooMany := service.AddToCart("P102", 11);
    assert tooMany == OutOfStock;
    var unknown := service.AddToCart("P999", 1);
    assert unknown == ProductNotFound;
    assert service.cart == [];
  }

  /** A client scenario: one laptop bought with SAVE10 and paid by card; a second checkout
      finds the cart empty. */
  method LaptopCheckout()
  {
    var service := new EcommerceService(MockInventory());
    MockInventoryKeys();
    var laptop := MockInventory()["P101"];
    var added := service.AddToCart("P101", 1);
    assert added == Added && service.cart == [OrderItem(laptop, 1)];
    var result := service.Checkout("SAVE10", "CARD");
    assert result.grossTotal + result.totalTax == 1416.0 && result.totalTax == 216.0 by {
      LaptopTotals();
    }
    assert result.payment == Payment(CreditCardProcessor, 1274.4) by {
      LaptopPayment();
    }
    assert result.invoice == Invoice([OrderItem(laptop, 1)], 216.0, 1274.4);
    var again := service.Checkout("", "UPI");
    assert again == EmptyCart;
  }
}
