# Shopping cart domain model in Dafny

This project models the domain core of a PHP shopping cart (Marascon/Shopping-cart) and proves its rules.

- **Product.** An immutable value with an article number, description, price, category and quantity. Construction validates price > 0 and quantity ≥ 0. `withQuantity` derives a copy.
- **ProductCategory.** A string-backed enumeration of four categories.
- **PercentageDiscount.** The only implementation of the discount interface. Construction refuses a negative and an over-100 percentage with different errors. `apply` takes the percentage off a total and never goes below zero.
- **Config.** A currency label and a VAT rate in [0, 100].
- **SessionStorage.** Saves, loads, clears and deletes entries of a session key-value table. The cart snapshot lives under the key "cart".
- **Cart.** The aggregate. It keeps a product table keyed by article number. Adding an existing article number merges quantities. Remove and update fail with not-found on unknown keys. It holds at most one discount. Totals are Σ price × quantity, then the discount, then VAT. Every change to the table is saved to storage before the listeners are called, in registration order.

Files and modules:

| file | module | models |
|---|---|---|
| outcomes.dfy | `Outcomes` | the exceptions as `CartError` variants; `Option`, `Result`, `Outcome` |
| product_category.dfy | `Categories` | `ProductCategory` |
| product.dfy | `Products` | `Product` |
| percentage_discount.dfy | `Discounts` | `DiscountInterface` and `PercentageDiscount` |
| config.dfy | `Configs` | `Config` |
| product_table.dfy | `ProductTable` | the cart's `$products` array: lookup, assignment, unset, the sum |
| session_storage.dfy | `Storage` | `SessionStorage` |
| cart.dfy | `ShoppingCart` | `Cart`, its events and the trace of its side effects |

Modelling choices:

- Product, PercentageDiscount and Config are immutable values in PHP. Here each is a datatype restricted by a subset type (`Product`, `PercentageDiscount`, `Config`), so an invalid instance cannot exist, just as the PHP constructors throw before one exists. Each constructor is a function returning `Result`: `NewProduct`, `NewPercentageDiscount`, `NewConfig`. The getters are the datatype fields. A value cannot change after construction, so `withQuantity` returning a copy leaves the original as it was.
- The discount interface is the datatype `Discount`. Its one variant, `Percentage`, is the percentage implementation.
- The product table is a PHP array, which keeps insertion order. It is modelled as a `seq<Product>` whose article numbers are pairwise distinct (`Table`). `Assign` is `$t[$k] = $p`: an existing key keeps its position, a new key is appended. `Unset` is `unset($t[$k])`.
- `Cart` and `SessionStorage` update their fields in place, so they are classes. Their methods carry `modifies` clauses and state the whole new state.
- The cart holds a `SessionStorage`, the only implementation of the storage interface.
- `$_SESSION` is a `map<string, Table>`. `serialize` and `unserialize` are treated as an exact round trip, so the map holds snapshots directly.
- Listeners are counted, not stored. Each call of a listener is appended to a ghost trace as `Notified(listener index, event)`, and each save as `Saved(snapshot)`. The ordering rules are stated on this trace. `Fanout(n, e)` specifies the `foreach` loop of `dispatchEvent`. `SaveBeforeNotify` proves that every listener, when called, finds the new snapshot as the latest save.
- Prices, percentages and VAT use exact `real` arithmetic.
- Quantities are PHP ints (`PhpInt`, 64 bits wide). In addProduct, when the existing quantity plus the incoming one passes PHP_INT_MAX, PHP turns the sum into a float. Under `strict_types`, `withQuantity(int)` then raises a TypeError before anything is stored. The model returns `QuantityNotInt(sum)` and leaves the cart as it was.

## Model

| member | source | states |
|---|---|---|
| Categories.CategoriesAreFour | src/Product/ProductCategory.php:6-12 | every category is one of the four cases, and there are exactly four |
| Categories.ValueInjective | src/Product/ProductCategory.php:6-12 | two categories with the same backing value are the same case |
| Categories.BackingValues | src/Product/ProductCategory.php:8-11 | the backing values are "electronics", "furniture", "groceries" and "homeappliances" |
| Products.NewProduct | src/Product/Product.php:8-21 | construction succeeds iff price > 0 and quantity ≥ 0; price is checked first; quantity 0 is accepted; on success every field equals its argument; the quantity is a 64-bit PHP int |
| Products.DefaultQuantityIsOne | src/Product/Product.php:13 | leaving the quantity out gives a valid product of quantity 1 |
| Products.WithQuantity | src/Product/Product.php:67-76 | fails with the negative-quantity error iff q < 0; otherwise the copy equals the receiver in every field except quantity, which is q |
| Products.UcFirst | src/Product/Product.php:102 | same length; the first character is upper-cased (ASCII) and the rest are unchanged |
| Products.CategoryName | src/Product/Product.php:100-103 | the backing value with its first letter ASCII-upper-cased (so a capital A-Z) and the rest unchanged |
| Products.CategoryNames | src/Product/Product.php:100-103 | the four display names; the last one is "Homeappliances" |
| Discounts.NewPercentageDiscount | src/Cart/Discount/PercentageDiscount.php:18-40 | fails with NegativeDiscount iff p < 0 and with ExcessiveDiscount iff p > 100; both bounds are inclusive; on success the stored percentage is p |
| Discounts.Apply | src/Cart/Discount/PercentageDiscount.php:48-58 | result ≥ 0; for a total t ≥ 0 it is t·(1 − p/100); for t ≤ 0 it is 0 |
| Discounts.ApplyBounded | src/Cart/Discount/PercentageDiscount.php:43-58 | for t ≥ 0, 0 ≤ apply(t) ≤ t |
| Discounts.ZeroPercentIsIdentity | tests/Cart/Discount/PercentageDiscountTest.php:80-91 | 0% leaves every total t ≥ 0 unchanged |
| Discounts.HundredPercentIsFree | tests/Cart/Discount/PercentageDiscountTest.php:114-125 | 100% gives 0 for every total |
| Discounts.ApplyMonotonic | src/Cart/Discount/PercentageDiscount.php:48-58 | a larger total never gives a smaller discounted price |
| Discounts.ApplyCommutesWithScaling | src/Cart/Discount/PercentageDiscount.php:48-58 | scaling the total by a positive factor before or after the discount gives the same result |
| Configs.NewConfig | src/Config/Config.php:20-48 | construction succeeds iff 0 ≤ VAT ≤ 100, else fails with InvalidVat; on success currency and VAT rate equal the arguments |
| Configs.WithVat | src/Cart/Cart.php:148 | the price plus its VAT amount, price + price·VAT/100; for a non-negative price this lies between the price and twice the price |
| ProductTable.Find | src/Cart/Cart.php:173-176 | returns a position holding the article number, or none only when no entry has it |
| ProductTable.GetProduct | src/Cart/Cart.php:173-176 | returns a product iff the key is present, and it is the entry stored under that key |
| ProductTable.Assign | src/Cart/Cart.php:56-58 | afterwards the key maps to the new product; other keys are unchanged; a new key is appended; an existing key is replaced in place |
| ProductTable.Unset | src/Cart/Cart.php:86 | afterwards the key is absent; other keys are unchanged; the rest keep their order; an absent key leaves the table as it was |
| ProductTable.Line | src/Cart/Cart.php:136 | price × quantity of a valid product is non-negative |
| ProductTable.Subtotal | src/Cart/Cart.php:136 | the sum of price × quantity is non-negative, and for one entry it is that entry's line |
| ProductTable.SubtotalAppend | src/Cart/Cart.php:136 | the sum over a concatenation is the sum of the two sums |
| ProductTable.SubtotalPermutation | src/Cart/Cart.php:136 | tables holding the same entries in any order have the same sum |
| ProductTable.SubtotalAssign | src/Cart/Cart.php:56-58 | assigning an entry changes the sum by the new line minus the line it replaces |
| ProductTable.SubtotalUnset | src/Cart/Cart.php:86 | unsetting an entry takes exactly its line off the sum |
| Storage.Stored | src/Storage/SessionStorage.php:40-55 | what load reads from a session: the "cart" snapshot when the key is set, else the empty table |
| Storage.StoredIgnoresOtherKeys | src/Storage/SessionStorage.php:22-55 | writing or deleting a key other than "cart" does not change what load reads |
| Storage.LoadAfterSave | src/Storage/SessionStorage.php:22-50 | loading after saving d gives d |
| Storage.LoadAfterClear | src/Storage/SessionStorage.php:40-67 | loading after clearing gives the empty table |
| Storage.SessionStorage.constructor | src/Storage/SessionStorage.php:10-15 | attaching to a session keeps whatever it holds |
| Storage.SessionStorage.Save | src/Storage/SessionStorage.php:22-34 | the snapshot is stored under "cart", replacing any earlier one; other keys are unchanged |
| Storage.SessionStorage.Load | src/Storage/SessionStorage.php:40-55 | returns Stored(session): the "cart" snapshot, or the empty table when there is none; the session is not changed |
| Storage.SessionStorage.Clear | src/Storage/SessionStorage.php:60-67 | removes "cart" and leaves every other key unchanged |
| Storage.SessionStorage.Delete | src/Storage/SessionStorage.php:72-81 | removes the key and leaves every other key unchanged; an absent key is a no-op |
| ShoppingCart.EventNames | src/Cart/Cart.php:60-125 | each event name passed to the listeners ("product.added", "product.removed", "product.updated", "cart.cleared", "discount.set") belongs to exactly one kind of event, in both directions |
| ShoppingCart.Fanout | src/Cart/Cart.php:30-36 | one dispatch calls every listener exactly once, the i-th call going to the i-th registered listener |
| ShoppingCart.LastSavedAfterFanout | src/Cart/Cart.php:30-36 | calling listeners saves nothing, so the latest saved snapshot is unchanged |
| ShoppingCart.SaveBeforeNotify | src/Cart/Cart.php:195-199 | after save-then-dispatch, the k-th call goes to listener k, and the latest save it can see is the new snapshot |
| ShoppingCart.Merged | src/Cart/Cart.php:55-58 | a new article number stores the incoming product; an existing one stores the existing entry with quantity old + incoming, and with its own description, price and category; fails with the int type error iff old + incoming exceeds PHP_INT_MAX |
| ShoppingCart.Added | src/Cart/Cart.php:55-58 | the table after addProduct: the key set gains the article number, that key maps to the merged entry, other keys are unchanged; fails exactly when the merge fails |
| ShoppingCart.AddNewProduct | src/Cart/Cart.php:55-58 | an unseen article number is appended unchanged and the entry count grows by one |
| ShoppingCart.AddExistingProduct | src/Cart/Cart.php:55-58 | an existing article number keeps one entry, and the entry count and key set stay the same; its quantity is old + incoming; other entries are untouched; past PHP_INT_MAX it fails instead |
| ShoppingCart.AddTwiceMerges | src/Cart/Cart.php:53-61 | adding the same article number twice to an empty table gives one entry carrying q1 + q2, or the int type error when q1 + q2 exceeds PHP_INT_MAX |
| ShoppingCart.SubtotalAdded | src/Cart/Cart.php:55-58 | a successful add raises the sum by the incoming quantity × the price of the entry it lands in |
| ShoppingCart.ApplyDiscountToTotalPrice | src/Cart/Cart.php:184-187 | without a discount the total is kept; with one it is the discount's apply: t·(1 − p/100) for t ≥ 0 and 0 for t ≤ 0; for a non-negative total it lies between 0 and the total |
| ShoppingCart.DiscountCommutesWithVat | tests/Cart/CartTest.php:76-92 | applying the discount and then VAT equals applying VAT and then the discount |
| ShoppingCart.Cart.constructor | src/Cart/Cart.php:20-24 | a new cart has an empty table, no listeners, no discount, and the given config and storage |
| ShoppingCart.Cart.DispatchEvent | src/Cart/Cart.php:30-36 | the loop appends one call per registered listener, in order (the trace grows by Fanout) |
| ShoppingCart.Cart.AddListener | src/Cart/Cart.php:43-46 | one more listener, called after those already registered |
| ShoppingCart.Cart.Save | src/Cart/Cart.php:154-157 | the current table is stored under "cart" and the save is recorded |
| ShoppingCart.Cart.SaveAndDispatchEvent | src/Cart/Cart.php:195-199 | the save is recorded before all listener calls |
| ShoppingCart.Cart.AddProduct | src/Cart/Cart.php:53-61 | when the merge fails (quantity past PHP_INT_MAX) it fails with that error and nothing changes; otherwise the table becomes Added(old, p), the new table is saved, then every listener receives "product.added" with the incoming product |
| ShoppingCart.Cart.GetProducts | src/Cart/Cart.php:68-71 | returns the table |
| ShoppingCart.Cart.RemoveProduct | src/Cart/Cart.php:79-88 | an absent key fails with NotFound(key) and nothing changes; otherwise the entry is unset, the table saved, then "product.removed" is sent with the key |
| ShoppingCart.Cart.UpdateQuantity | src/Cart/Cart.php:97-106 | an absent key fails with NotFound(key); a negative quantity fails with the product's error; in both cases nothing changes; otherwise only that entry's quantity changes, in place, then save, then "product.updated" with the new entry |
| ShoppingCart.Cart.ClearCart | src/Cart/Cart.php:111-115 | the table is empty, the empty snapshot is saved, then each listener gets one "cart.cleared" |
| ShoppingCart.Cart.SetDiscount | src/Cart/Cart.php:122-126 | the discount is replaced and listeners get "discount.set"; nothing is saved |
| ShoppingCart.Cart.Load | src/Cart/Cart.php:162-165 | the table becomes storage's snapshot (empty if none); no listener is called and storage is not changed |
| ShoppingCart.Cart.CalculateTotalPriceWithoutVat | src/Cart/Cart.php:133-138 | the sum without a discount; with one, sum × (1 − p/100); always between 0 and the sum |
| ShoppingCart.Cart.CalculateTotalPriceWithVat | src/Cart/Cart.php:145-149 | the total without VAT × (1 + VAT/100), which equals adding VAT first and discounting afterwards; never below the total without VAT |

## Examples

These members replay the PHPUnit set-up and scenarios of tests/Cart/CartTest.php with the model. They show how the contracts combine and are not part of the modelled source:

- `ShoppingCart.ExampleTotals` gives the tests' totals: 3100, then 3751 with 21% VAT, then 3375.9 with 10% off.
- `ShoppingCart.SetUpCart` builds the tests' cart (tests/Cart/CartTest.php:18-33).
- `ShoppingCart.ClientScenario` covers the totals, a failed removal and a reload.
- `ShoppingCart.DiscountScenario` covers a refused negative discount and the totals after 10% off.

## Left out

- Storage failures are not modelled. This covers the failure branches of `serialize` and `unserialize`, the `StorageException` wrapping, and the operation tag it carries. As a result, the model does not show that the cart keeps its changed table when saving fails; the source does no rollback.
- The `session_start` call in the `SessionStorage` constructor is left out: the session is a parameter.
- Session entries other than cart snapshots are not modelled: every value in the session map is a table. `Delete` works on any key.
- The storage interface and other storage implementations are not modelled. The cart holds a `SessionStorage` directly.
- Listener callbacks are arbitrary PHP code. A call is recorded as a trace entry and nothing else. A listener that throws, or one that changes the cart, is not modelled.
- Floating-point rounding is not modelled. The PHP code uses floats and its tests compare within 0.01; the model uses exact reals.
- The exception classes' messages, codes and `__toString` are not modelled. Only the error kind and the article number of a not-found error are kept.
- `Product::__toString` and `Config::__toString` (`sprintf` formatting) are not modelled.
- Integer width is modelled only where a result can leave PHP's int range: quantities are 64-bit PHP ints, and the merge in addProduct fails past PHP_INT_MAX. Nothing else in the core adds integers.
- PHP's conversion of numeric-string array keys to integers is not modelled. Article numbers stay strings.
- The demo script (`example.php`) is not part of this model.
