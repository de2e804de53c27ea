/** Failure-carrying result types and the error kinds the cart domain raises.

    Each PHP exception the core throws becomes one variant of CartError:
    - the InvalidArgumentException of the Product constructor and of withQuantity,
    - the InvalidDiscountException of PercentageDiscount (negative vs. excessive),
    - the InvalidArgumentException of Config (VAT rate out of range),
    - the ProductNotFoundException of Cart, carrying the article number,
    - the TypeError raised when a merged quantity no longer fits PHP's int. */
module Outcomes {

  /** PHP's int is 64 bits wide; an integer sum past the largest one becomes
      a float. */
  const PhpIntMax: int := 0x7fff_ffff_ffff_ffff

  type PhpInt = x: int | -PhpIntMax - 1 <= x <= PhpIntMax

  /** Why a product could not be built (the two messages of the Product checks). */
  datatype ProductFault = NonPositivePrice | NegativeQuantity

  datatype CartError =
    | InvalidProduct(fault: ProductFault)
    | NegativeDiscount(percentage: real)
    | ExcessiveDiscount(percentage: real)
    | InvalidVat(vatRate: real)
    | NotFound(articleNumber: string)
    | QuantityNotInt(quantity: int)

  datatype Option<+T> = None | Some(value: T)

  /** The value of an operation that may throw. */
  datatype Result<+T> = Ok(value: T) | Err(error: CartError)

  /** The outcome of a `void` operation that may throw. */
  datatype Outcome = Pass | Fail(error: CartError)
}
