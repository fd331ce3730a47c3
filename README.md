# Ecommerce checkout: a Dafny model

This project models the pricing and checkout core of the `Ecommerce` command-line shop
(`src/Ecommerce/EcommerceSystem.java`) and proves properties of it:

- **Tax.** `Product.getTaxRate` charges 18% GST for the category "Electronics", compared ignoring case, and 5% for every other category. `Taxable.calculateTax` turns that rate into a tax amount.
- **Cart lines.** An `OrderItem` gives its subtotal and its tax amount.
- **Promotion chain.** `BaseOrderCost`, `PercentageDiscount` and `FlatDiscount` form a decorator chain. The model represents it as the datatype `CostNode`, with recursive `Cost` and `Description`. Chains of any depth are supported. Each chain is also tied to a reference view: a list of rules folded left to right.
- **Coupons.** Checkout trims the coupon text and matches it ignoring case. `SAVE10` gives 10% off and `FLAT50` gives 50 off. An empty code gives no adjustment. Any other code gives a warning, and checkout continues.
- **Payment.** `PaymentFactory.getProcessor` picks the card or the UPI processor. Anything unrecognised falls back to the card processor.
- **Service.** The class `EcommerceService` holds the inventory and the cart. `AddToCart` appends to the cart, with its guards. `Checkout` sums the cart, applies the coupon, pays, takes an invoice snapshot and clears the cart. `GetAllProducts` lists the inventory sorted by price.

Money is an exact `real`. The console inputs read by `checkout` (the coupon and the payment method) are method parameters. What checkout would print, charge and write is returned as a `CheckoutResult` value.

Modules, one file each: `JavaText` (text.dfy), `Pricing` (pricing.dfy), `Promotions` (promotions.dfy), `Coupons` (coupons.dfy), `Payments` (payments.dfy), `Catalogue` (catalogue.dfy), `Service` (service.dfy).

`addToCart` (lines 201-211) rejects only unknown ids and quantities above 10. A quantity of 0 or below is appended to the cart, and it can make the payable amount negative (`Service.NegativeQuantityCharge`).

## Model

| member | source | states |
|---|---|---|
| `JavaText.EqualsIgnoreCase` | src/Ecommerce/EcommerceSystem.java:174-175 | no contract of its own: String.equalsIgnoreCase, characterised by `JavaText.EqualsIgnoreCaseIsUpperEquality` and `JavaText.EqualsIgnoreCaseIsEquivalence` |
| `JavaText.EqualsIgnoreCaseIsUpperEquality` | src/Ecommerce/EcommerceSystem.java:174-175 | equalsIgnoreCase, as the per-character upper/lower comparison of regionMatches, holds exactly when the upper-case forms are equal (both directions) |
| `JavaText.EqualsIgnoreCaseIsEquivalence` | src/Ecommerce/EcommerceSystem.java:247-249 | equalsIgnoreCase is reflexive, symmetric and transitive |
| `JavaText.TrimLeading` | src/Ecommerce/EcommerceSystem.java:242 | the result is a suffix of the input; every dropped character is at most U+0020; the result does not start with one |
| `JavaText.TrimTrailing` | src/Ecommerce/EcommerceSystem.java:242 | the result is a prefix of the input; every dropped character is at most U+0020; the result does not end with one |
| `JavaText.Trim` | src/Ecommerce/EcommerceSystem.java:242 | String.trim gives a contiguous slice of the input; everything before and after it is at most U+0020; the slice is empty or starts and ends above U+0020 |
| `JavaText.TrimPadded` | src/Ecommerce/EcommerceSystem.java:242 | the converse: blank padding around a core that starts and ends above U+0020 trims to exactly that core |
| `JavaText.TrimUnpadded` | src/Ecommerce/EcommerceSystem.java:242 | a string with no blank at either end is its own trim |
| `JavaText.TrimIdempotent` | src/Ecommerce/EcommerceSystem.java:242 | trimming twice equals trimming once |
| `Pricing.TaxRate` | src/Ecommerce/EcommerceSystem.java:66-70 | no contract of its own: getTaxRate, characterised by `Pricing.TaxRateByCategory` |
| `Pricing.CalculateTax` | src/Ecommerce/EcommerceSystem.java:25-27 | no contract of its own: calculateTax, the price times the rate over 100; used by `Pricing.TaxAmount` and characterised through `Pricing.LineTaxIsRateOfSubtotal` |
| `Pricing.Subtotal` | src/Ecommerce/EcommerceSystem.java:82 | no contract of its own: getSubtotal, characterised by `Pricing.LineTaxIsRateOfSubtotal` and `Pricing.LineAmountsNonNegative` |
| `Pricing.TaxAmount` | src/Ecommerce/EcommerceSystem.java:83 | no contract of its own: getTaxAmount, characterised by `Pricing.LineTaxIsRateOfSubtotal` and `Pricing.LineAmountsNonNegative` |
| `Pricing.Total` | src/Ecommerce/EcommerceSystem.java:230-231 | no contract of its own: the stream sum of one per-line amount, characterised by `Pricing.TotalSingleton`, `Pricing.TotalAppend` and `Pricing.TotalPermutation` |
| `Pricing.GrossTotal` | src/Ecommerce/EcommerceSystem.java:230 | no contract of its own: the gross total; `Service.EcommerceService.CartTotals` is proved to compute it, and `Pricing.TotalsNonNegative` bounds it |
| `Pricing.TaxTotal` | src/Ecommerce/EcommerceSystem.java:231 | no contract of its own: the total tax; `Service.EcommerceService.CartTotals` is proved to compute it, and `Pricing.TotalsNonNegative` bounds it |
| `Pricing.TaxRateByCategory` | src/Ecommerce/EcommerceSystem.java:66-70 | the rate is 18 exactly when the category upper-cases to ELECTRONICS, and 5 exactly otherwise |
| `Pricing.LineTaxIsRateOfSubtotal` | src/Ecommerce/EcommerceSystem.java:82-83 | a line's tax is price × (rate/100) × qty, that is, its subtotal at the product's rate |
| `Pricing.LineAmountsNonNegative` | src/Ecommerce/EcommerceSystem.java:82-83 | a non-negative price and quantity give a non-negative subtotal and tax |
| `Pricing.TotalSingleton` | src/Ecommerce/EcommerceSystem.java:230-231 | the total of a one-line cart is that line's amount |
| `Pricing.TotalAppend` | src/Ecommerce/EcommerceSystem.java:230-231 | cart totals add up over a concatenation of carts |
| `Pricing.TotalPermutation` | src/Ecommerce/EcommerceSystem.java:230-231 | cart totals do not depend on the order of the lines: any permutation of the cart has the same gross and tax |
| `Pricing.TotalsNonNegative` | src/Ecommerce/EcommerceSystem.java:230-232 | a cart of non-negative prices and quantities has non-negative gross and tax totals |
| `Promotions.Cost` | src/Ecommerce/EcommerceSystem.java:104 | no contract of its own: getTotalCost of the chain (also lines 130 and 150), characterised by `Promotions.CostIsFold`, `Promotions.PercentageWithinInner`, `Promotions.FlatWithinInner` and `Promotions.ChainWithinBase` |
| `Promotions.Description` | src/Ecommerce/EcommerceSystem.java:107 | no contract of its own: getDescription of the chain (also lines 135 and 155), characterised by `Promotions.DescriptionIsTrail` and `Promotions.InnerDescriptionIsPrefix` |
| `Promotions.BuildFromParts` | src/Ecommerce/EcommerceSystem.java:111-117 | every decorator chain is rebuilt exactly from its base amount and its rules in application order |
| `Promotions.PartsOfBuild` | src/Ecommerce/EcommerceSystem.java:111-117 | building a chain from a base amount and rules keeps both, rules in order: the round trip in the other direction |
| `Promotions.DecorateParts` | src/Ecommerce/EcommerceSystem.java:114-116 | wrapping a node keeps its base amount and appends the new rule last |
| `Promotions.CostIsFold` | src/Ecommerce/EcommerceSystem.java:103-151 | getTotalCost of any chain equals folding its rules left to right over its base amount |
| `Promotions.DescriptionIsTrail` | src/Ecommerce/EcommerceSystem.java:106-156 | getDescription is "Subtotal" followed by each decorator's suffix in application order |
| `Promotions.InnerDescriptionIsPrefix` | src/Ecommerce/EcommerceSystem.java:133-156 | a decorator's description starts with the wrapped description, and what follows is exactly its own suffix |
| `Promotions.PercentageWithinInner` | src/Ecommerce/EcommerceSystem.java:129-131 | a non-negative inner cost with percent in [0,100] gives a cost in [0, inner cost] |
| `Promotions.FlatWithinInner` | src/Ecommerce/EcommerceSystem.java:149-151 | a flat discount costs max(0, inner − amount): never negative; with amount ≥ 0 and a non-negative inner cost, never above the inner cost |
| `Promotions.ChainWithinBase` | src/Ecommerce/EcommerceSystem.java:128-151 | a chain of any depth with percents in [0,100] and non-negative flat amounts, over a non-negative base, costs between 0 and the base |
| `Promotions.DiscountExamples` | src/Ecommerce/EcommerceSystem.java:129-151 | base 100 with 10% off costs 90; base 30 with 50 flat off costs 0, not −20 |
| `Coupons.Classify` | src/Ecommerce/EcommerceSystem.java:242-253 | no contract of its own: the coupon branch on the trimmed text, characterised by `Coupons.ClassifyByUpperCase` |
| `Coupons.ClassifyCode` | src/Ecommerce/EcommerceSystem.java:247-253 | no contract of its own: the branch on the already trimmed code, characterised by `Coupons.ClassifyCodeByUpperCase` |
| `Coupons.ApplyCoupon` | src/Ecommerce/EcommerceSystem.java:244-256 | no contract of its own: the promotion chosen and the warning raised, characterised by `Coupons.CouponOutcome`, `Coupons.PromotionShape` and `Coupons.CouponWithinBase` |
| `Coupons.ClassifyCodeByUpperCase` | src/Ecommerce/EcommerceSystem.java:247-253 | on the trimmed code, the branch taken is SAVE10, FLAT50, empty or invalid exactly according to its upper-case form, both directions |
| `Coupons.ClassifyByUpperCase` | src/Ecommerce/EcommerceSystem.java:242-253 | the same, for the raw coupon text after trimming |
| `Coupons.CouponOutcome` | src/Ecommerce/EcommerceSystem.java:244-258 | SAVE10 leaves base × 0.9; FLAT50 leaves max(0, base − 50); an empty code leaves the base; a warning is raised exactly for other non-empty codes, and the base then stands |
| `Coupons.PromotionShape` | src/Ecommerce/EcommerceSystem.java:244-250 | the chosen chain has the base amount at its root, at most one rule, and valid rule parameters |
| `Coupons.CouponWithinBase` | src/Ecommerce/EcommerceSystem.java:244-258 | for a non-negative base, every coupon gives a payable amount between 0 and the base |
| `Coupons.PaddedCouponExample` | src/Ecommerce/EcommerceSystem.java:242-248 | "  save10 " resolves to SAVE10 |
| `Coupons.UnknownCouponExample` | src/Ecommerce/EcommerceSystem.java:251-253 | "SAVE20" is an unrecognised coupon; the empty text is no coupon |
| `Payments.GetProcessor` | src/Ecommerce/EcommerceSystem.java:173-177 | no contract of its own: PaymentFactory.getProcessor, characterised by `Payments.ProcessorSelection` |
| `Payments.ProcessorSelection` | src/Ecommerce/EcommerceSystem.java:173-177 | UPI is chosen exactly when the untrimmed text upper-cases to UPI; CARD and every other text choose the card processor |
| `Payments.ProcessorExamples` | src/Ecommerce/EcommerceSystem.java:173-177 | "upi" gives UPI; "Card", " upi" and "cash" give the card processor |
| `Catalogue.InsertByPrice` | src/Ecommerce/EcommerceSystem.java:196-198 | inserting into a price-sorted listing keeps it sorted and adds exactly that product |
| `Catalogue.SortByPrice` | src/Ecommerce/EcommerceSystem.java:196-198 | the result is sorted ascending by price and is a permutation of the input |
| `Service.MockInventory` | src/Ecommerce/EcommerceSystem.java:186-192 | the mock catalogue keys every product by its own id |
| `Service.ValuesInOrder` | src/Ecommerce/EcommerceSystem.java:196 | the products of the inventory, one per key in the given key order |
| `Service.EnumeratedValues` | src/Ecommerce/EcommerceSystem.java:196 | listing the products along an enumeration of the keys yields every inventory product and nothing else |
| `Service.EcommerceService.constructor` | src/Ecommerce/EcommerceSystem.java:182-183 | a service over the given inventory starts with an empty cart |
| `Service.EcommerceService.InventoryValues` | src/Ecommerce/EcommerceSystem.java:196 | the traversal visits every key exactly once and yields the product of each key: one value per key, every inventory product present, nothing else |
| `Service.EcommerceService.GetAllProducts` | src/Ecommerce/EcommerceSystem.java:194-199 | the listing is sorted ascending by price and is a permutation of the inventory's products, one entry per key |
| `Service.EcommerceService.AddToCart` | src/Ecommerce/EcommerceSystem.java:201-211 | an unknown id leaves the cart unchanged and is checked first; a quantity above 10 raises OutOfStock and leaves the cart unchanged; otherwise exactly (product, qty) is appended at the end, earlier lines unchanged, repeated ids not merged, quantities ≤ 0 accepted; cart lines always come from the inventory |
| `Service.EcommerceService.CartTotals` | src/Ecommerce/EcommerceSystem.java:230-231 | the loop's sums are Σ subtotals and Σ line taxes of the cart |
| `Service.EcommerceService.Checkout` | src/Ecommerce/EcommerceSystem.java:226-272 | an empty cart is a no-op with no payment. Otherwise the base is gross + tax, the coupon picks the promotion, the chosen processor is charged the promotion's cost, and the invoice records the old cart, the total tax and that amount; every invoiced line holds an inventory product (the invariant `Valid`). The cart is empty afterwards |
| `Service.ChargeWithinBase` | src/Ecommerce/EcommerceSystem.java:229-258 | for non-negative prices and quantities, the amount charged under any coupon lies in [0, gross + tax] |
| `Service.NegativeQuantityCharge` | src/Ecommerce/EcommerceSystem.java:207-209 | a line of quantity −1, which addToCart accepts, gives a base of −1416 and, with SAVE10, a payable amount of −1274.4 |
| `Service.NegativeBaseFlat50` | src/Ecommerce/EcommerceSystem.java:149-151 | on the base −1416 of that line, FLAT50 raises the payable amount to 0 (Math.max against 0) |
| `Service.LaptopTotals` | src/Ecommerce/EcommerceSystem.java:230-232 | one laptop (1200, Electronics) has gross 1200 and tax 216 |
| `Service.LaptopPayment` | src/Ecommerce/EcommerceSystem.java:247-258 | SAVE10 turns the base 1416 into 1274.4 |

## Left out

- Console I/O is not modelled: the `Scanner` reads, all `System.out`/`System.err` output, `viewCart`, and the `main` menu loop with its `Integer.parseInt` handling. `Checkout` takes the coupon and the payment method as parameters.
- The checkout `Scanner` is closed at the end of its try-with-resources block, which also closes `System.in`. The console reads, and any exception they throw before `cart.clear()`, are not modelled.
- `generateInvoice` is not modelled as file output. The file writing, the time-derived order id, the timestamp and the `IOException` path are left out. The model keeps only the snapshot the invoice is written from: the lines, the total tax and the grand total.
- `processPayment` only prints, so it is not modelled. The model records which processor is chosen and the amount it is handed.
- `double` arithmetic is not modelled. There is no rounding, no Kahan compensation in `DoubleStream.sum`, and no `%.2f` formatting. All amounts are exact reals.
- `Double.toString` is not modelled. `Description` takes the rendering of a number as a parameter `show`.
- Case-insensitive comparison maps ASCII letters only. Java's `equalsIgnoreCase` also matches some non-ASCII letters, for example a dotless ı against I, or a long ſ against S. The model does not.
- HashMap iteration order is not modelled. `GetAllProducts` traverses the keys in an arbitrary order. Its ghost out-parameter `order` records that order, and the listing is stated to be a permutation of it. The relative order of products with equal prices is not stated.
- `loadProducts` ignores its file name and loads four mock products. The inventory is therefore a constructor argument. `MockInventory` is those four products, used only as the fixture of the example lemmas and of the client methods `RejectedRequests` and `LaptopCheckout`.
- Quantities are unbounded integers. Java's 32-bit `int` limit is not modelled. The code does no integer arithmetic on a quantity, so the limit would only matter to the input parser.
- `Item.toString` and the table formatting of the product listing are not modelled.
