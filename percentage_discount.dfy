/** The discount strategy. Its interface has one implementation, a percentage
    off the total; the interface is the datatype, the implementation its variant. */
module Discounts {
  import opened Outcomes

  datatype Discount = Percentage(percentage: real)

  /** Only discounts that passed the constructor's bounds checks exist. */
  type PercentageDiscount = d: Discount | 0.0 <= d.percentage <= 100.0
    witness Percentage(0.0)

  /** The validating constructor: a negative and an excessive percentage fail
      with different errors; both bounds are inclusive. */
  function NewPercentageDiscount(percentage: real): (r: Result<PercentageDiscount>)
    ensures r.Ok? <==> 0.0 <= percentage <= 100.0
    ensures percentage < 0.0 ==> r == Err(NegativeDiscount(percentage))
    ensures percentage > 100.0 ==> r == Err(ExcessiveDiscount(percentage))
    ensures r.Ok? ==> r.value.percentage == percentage
  {
    if percentage < 0.0 then Err(NegativeDiscount(percentage))
    else if percentage > 100.0 then Err(ExcessiveDiscount(percentage))
    else Ok(Percentage(percentage))
  }

  function Max(a: real, b: real): real
  {
    if a >= b then a else b
  }

  /** The discounted total, never below zero. */
  function Apply(d: PercentageDiscount, totalPrice: real): (r: real)
    ensures r >= 0.0
    ensures totalPrice >= 0.0 ==> r == totalPrice * (1.0 - d.percentage / 100.0)
    ensures totalPrice <= 0.0 ==> r == 0.0
  {
    var discountAmount := totalPrice * (d.percentage / 100.0);
    var newTotalPrice := totalPrice - discountAmount;
    Max(0.0, newTotalPrice)
  }

  /** On a non-negative total the discount never increases the price. */
  lemma ApplyBounded(d: PercentageDiscount, totalPrice: real)
    requires totalPrice >= 0.0
    ensures 0.0 <= Apply(d, totalPrice) <= totalPrice
  {
    assert totalPrice * (d.percentage / 100.0) >= 0.0;
  }

  /** 0% leaves a non-negative total unchanged. */
  lemma ZeroPercentIsIdentity(totalPrice: real)
    requires totalPrice >= 0.0
    ensures Apply(Percentage(0.0), totalPrice) == totalPrice
  {
  }

  /** 100% makes every total free. */
  lemma HundredPercentIsFree(totalPrice: real)
    ensures Apply(Percentage(100.0), totalPrice) == 0.0
  {
  }

  /** A larger total never gets a smaller discounted price. */
  lemma ApplyMonotonic(d: PercentageDiscount, t1: real, t2: real)
    requires t1 <= t2
    ensures Apply(d, t1) <= Apply(d, t2)
  {
    var k := 1.0 - d.percentage / 100.0;
    assert 0.0 <= k;
    assert (t2 - t1) * k >= 0.0;
    assert t1 * k <= t2 * k by {
      assert t2 * k - t1 * k == (t2 - t1) * k;
    }
  }

  /** Scaling a total by a positive factor (VAT) before or after the discount
      gives the same result. */
  lemma ApplyCommutesWithScaling(d: PercentageDiscount, totalPrice: real, factor: real)
    requires factor > 0.0
    ensures Apply(d, totalPrice * factor) == Apply(d, totalPrice) * factor
  {
    var x := totalPrice * factor;
    assert x - x * (d.percentage / 100.0) == (totalPrice - totalPrice * (d.percentage / 100.0)) * factor;
    var n := totalPrice - totalPrice * (d.percentage / 100.0);
    if n >= 0.0 {
      assert n * factor >= 0.0;
    } else {
      assert n * factor < 0.0;
    }
  }
}
