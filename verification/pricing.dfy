/** Customer price of services/pricingUtils.js: a 50% urgency surcharge, then a volume discount
    capped at 30%, rounded to cents and floored at 1.0. */
module Pricing {
  import opened Common

  const URGENCY_SURCHARGE: real := 1.5
  const MAX_DISCOUNT: real := 0.3
  const MIN_PRICE: real := 1.0

  /** The price before rounding: surcharge first, then the capped discount (ignored when <= 0). */
  function UnroundedPrice(basePrice: real, urgencia: bool, descontoVolume: real): real
  {
    var surcharged := if urgencia then basePrice * URGENCY_SURCHARGE else basePrice;
    if descontoVolume > 0.0 then surcharged * (1.0 - MinReal(descontoVolume, MAX_DISCOUNT)) else surcharged
  }

  /** `aplicarPricing(basePrice, urgencia, descontoVolume)`; an absent discount is 0. */
  function AplicarPricing(basePrice: real, urgencia: bool, descontoVolume: real): (price: real)
    ensures price >= MIN_PRICE
    ensures IsCents(price)
    ensures UnroundedPrice(basePrice, urgencia, descontoVolume) >= MIN_PRICE ==>
              UnroundedPrice(basePrice, urgencia, descontoVolume) - 0.005 < price
              <= UnroundedPrice(basePrice, urgencia, descontoVolume) + 0.005
    ensures UnroundedPrice(basePrice, urgencia, descontoVolume) < MIN_PRICE ==> price == MIN_PRICE
  {
    var rounded := ToFixed2(UnroundedPrice(basePrice, urgencia, descontoVolume));
    if rounded >= MIN_PRICE then rounded
    else
      assert MIN_PRICE * 100.0 == 100.0;
      MIN_PRICE
  }

  /** The examples the project's tests fix: no change, +50% for urgency, 20% discount, a 50%
      discount capped at 30%, and the 1.0 floor. */
  lemma PricingExamples()
    ensures AplicarPricing(100.0, false, 0.0) == 100.0
    ensures AplicarPricing(100.0, true, 0.0) == 150.0
    ensures AplicarPricing(100.0, false, 0.2) == 80.0
    ensures AplicarPricing(100.0, false, 0.5) == 70.0
    ensures AplicarPricing(0.3, false, 0.0) == 1.0
  {
    assert MathRound(10000.0) == 10000;
    assert MathRound(15000.0) == 15000;
    assert MathRound(8000.0) == 8000;
    assert MathRound(7000.0) == 7000;
    assert MathRound(30.0) == 30;
  }

  /** Every discount of 30% or more gives the same price as exactly 30%. */
  lemma DiscountIsCapped(basePrice: real, urgencia: bool, d: real)
    requires d >= MAX_DISCOUNT
    ensures AplicarPricing(basePrice, urgencia, d) == AplicarPricing(basePrice, urgencia, MAX_DISCOUNT)
  {
  }

  /** A discount that is not positive is ignored. */
  lemma NonPositiveDiscountIgnored(basePrice: real, urgencia: bool, d: real)
    requires d <= 0.0
    ensures AplicarPricing(basePrice, urgencia, d) == AplicarPricing(basePrice, urgencia, 0.0)
  {
  }

  /** Before rounding, the price is the base times 1.5 (when urgent) times the kept fraction. */
  lemma SurchargeThenDiscount(basePrice: real, urgencia: bool, d: real)
    requires d > 0.0
    ensures UnroundedPrice(basePrice, urgencia, d)
            == basePrice * (if urgencia then 1.5 else 1.0) * (1.0 - MinReal(d, 0.3))
  {
  }

  /** Scaling by a non-negative factor keeps order. */
  lemma ScaleMonotone(x: real, y: real, f: real)
    requires x <= y && f >= 0.0
    ensures x * f <= y * f
  {
    assert y * f - x * f == (y - x) * f;
  }

  /** Before rounding, a dearer cost gives a dearer price. */
  lemma UnroundedMonotone(a: real, b: real, urgencia: bool, d: real)
    requires a <= b
    ensures UnroundedPrice(a, urgencia, d) <= UnroundedPrice(b, urgencia, d)
  {
    var sa := if urgencia then a * URGENCY_SURCHARGE else a;
    var sb := if urgencia then b * URGENCY_SURCHARGE else b;
    assert sa <= sb;
    if d > 0.0 {
      var f := 1.0 - MinReal(d, MAX_DISCOUNT);
      assert f >= 0.7;
      ScaleMonotone(sa, sb, f);
      assert UnroundedPrice(a, urgencia, d) == sa * f;
      assert UnroundedPrice(b, urgencia, d) == sb * f;
    } else {
      assert UnroundedPrice(a, urgencia, d) == sa;
      assert UnroundedPrice(b, urgencia, d) == sb;
    }
  }

  /** A dearer cost is never priced lower. */
  lemma PriceMonotoneInCost(a: real, b: real, urgencia: bool, d: real)
    requires a <= b
    ensures AplicarPricing(a, urgencia, d) <= AplicarPricing(b, urgencia, d)
  {
    UnroundedMonotone(a, b, urgencia, d);
    ToFixed2Monotone(UnroundedPrice(a, urgencia, d), UnroundedPrice(b, urgencia, d));
  }
}
