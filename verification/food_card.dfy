/** The price shown on a menu card (src/components/FoodCard.tsx). */
module FoodCard {

  /** Whether the card shows the "% OFF" badge and the struck-through base price. */
  predicate HasDiscount(discountPercent: real) {
    discountPercent > 0.0
  }

  /** The per-unit price after the item's percentage discount. */
  function DiscountedPrice(basePrice: real, discountPercent: real): (r: real)
    ensures 0.0 <= basePrice && 0.0 <= discountPercent <= 100.0 ==> 0.0 <= r <= basePrice
    ensures discountPercent == 0.0 ==> r == basePrice
    ensures discountPercent == 100.0 ==> r == 0.0
  {
    basePrice - (basePrice * discountPercent) / 100.0
  }

  /** For a priced item, the badge and the struck-through base price appear exactly
      when the card shows a price below the base price. */
  lemma DiscountMarkersIffCheaper(basePrice: real, discountPercent: real)
    requires basePrice > 0.0
    ensures HasDiscount(discountPercent) <==> DiscountedPrice(basePrice, discountPercent) < basePrice
  {
    if HasDiscount(discountPercent) {
      assert basePrice * discountPercent > 0.0;
    } else {
      assert basePrice * discountPercent <= 0.0;
    }
  }

  /** A larger discount never gives a higher price. */
  lemma DiscountedPriceAntitone(basePrice: real, d1: real, d2: real)
    requires 0.0 <= basePrice && d1 <= d2
    ensures DiscountedPrice(basePrice, d2) <= DiscountedPrice(basePrice, d1)
  {
    assert DiscountedPrice(basePrice, d1) == basePrice - (basePrice * d1) / 100.0;
    assert DiscountedPrice(basePrice, d2) == basePrice - (basePrice * d2) / 100.0;
    var e := d2 - d1;
    assert 0.0 <= basePrice * e;
    assert basePrice * d2 == basePrice * d1 + basePrice * e;
  }
}
