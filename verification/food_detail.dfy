/** The item-detail modal (src/components/FoodDetailModal.tsx): the price breakdown
    of one food at the chosen quantity, and the quantity counter. */
module FoodDetail {
  import opened Js
  import opened Catalog
  import opened Seqs
  import FoodCard
  import Cart

  /** The breakdown the modal shows. `discount` is per unit, `cardDiscount` for the
      whole quantity; `gst` uses the food's own rate. */
  datatype Breakdown = Breakdown(
    discount: real,
    cardDiscount: real,
    subtotal: real,
    gst: real,
    deliveryCharge: Nullable<real>,
    total: real)

  /** The pricing block of the modal for `food` at `quantity`. */
  function DetailPricing(food: FoodItem, quantity: int): (b: Breakdown)
    ensures b.discount == food.basePrice * food.discountPercent / 100.0
    ensures b.cardDiscount == quantity as real * food.basePrice * food.discountPercent / 100.0
    ensures b.subtotal == FoodCard.DiscountedPrice(food.basePrice, food.discountPercent) * quantity as real
    ensures b.gst == b.subtotal * food.gstPercent / 100.0
    ensures b.deliveryCharge == food.deliveryCharge
    ensures b.total == b.subtotal + b.gst + ToNumber(food.deliveryCharge)
    ensures b.total == b.subtotal * (1.0 + food.gstPercent / 100.0) + ToNumber(food.deliveryCharge)
  {
    var basePrice := food.basePrice;
    var discount := (basePrice * food.discountPercent) / 100.0;
    var cardDiscount := quantity as real * discount;
    var subtotal := quantity as real * basePrice - cardDiscount;
    var gst := (subtotal * food.gstPercent) / 100.0;
    var deliveryCharge := food.deliveryCharge;
    Breakdown(discount, cardDiscount, subtotal, gst, deliveryCharge, subtotal + gst + ToNumber(deliveryCharge))
  }

  /** With a non-negative price and quantity and a discount in [0,100], the subtotal
      lies between 0 and the undiscounted price of the quantity; with a non-negative
      rate and charge, the total is at least the subtotal. */
  lemma DetailBounds(food: FoodItem, quantity: int)
    requires WellPriced(food) && 0 <= quantity
    ensures var b := DetailPricing(food, quantity);
      && 0.0 <= b.subtotal <= quantity as real * food.basePrice
      && 0.0 <= b.gst
      && b.subtotal <= b.total
  {
    var q := quantity as real;
    var dp := FoodCard.DiscountedPrice(food.basePrice, food.discountPercent);
    assert 0.0 <= dp <= food.basePrice;
    assert 0.0 <= dp * q <= food.basePrice * q;
    assert 0.0 <= dp * q * food.gstPercent;
  }

  /** The worked example: base 200, 10% off, 5% gst, delivery 40, quantity 2. */
  lemma WorkedExample(food: FoodItem)
    requires food.basePrice == 200.0 && food.discountPercent == 10.0
    requires food.gstPercent == 5.0 && food.deliveryCharge == Val(40.0)
    ensures DetailPricing(food, 2) == Breakdown(20.0, 40.0, 360.0, 18.0, Val(40.0), 418.0)
  {
  }

  /** The modal's subtotal for one food equals the discounted subtotal of a one-line
      cart holding that food at the same quantity. */
  lemma DetailSubtotalMatchesCart(line: Cart.CartLine)
    ensures DetailPricing(line.food, line.quantity).subtotal ==
            Cart.CartTotals([line]).subtotal - Cart.CartTotals([line]).discount
  {
    assert [line][..0] == [];
    assert SumOf([line], Cart.ItemPrice) == Cart.ItemPrice(line);
    assert SumOf([line], Cart.ItemDiscount) == Cart.ItemDiscount(line);
    assert Cart.LineAmount(line) == Cart.ItemPrice(line) - Cart.ItemDiscount(line);
  }

  /** The modal's gst agrees with the cart's 5% for the same single line exactly
      when the food's own rate is 5% or there is nothing to tax. */
  lemma DetailGstAgreesWithCartIff(line: Cart.CartLine)
    ensures DetailPricing(line.food, line.quantity).gst == Cart.CartTotals([line]).gst
        <==> line.food.gstPercent == Cart.AggregateGstPercent || DetailPricing(line.food, line.quantity).subtotal == 0.0
  {
    DetailSubtotalMatchesCart(line);
    var s := DetailPricing(line.food, line.quantity).subtotal;
    assert DetailPricing(line.food, line.quantity).gst == s * line.food.gstPercent / 100.0;
    assert Cart.CartTotals([line]).gst == s * Cart.AggregateGstPercent / 100.0;
    if s != 0.0 && s * line.food.gstPercent / 100.0 == s * Cart.AggregateGstPercent / 100.0 {
      assert s * (line.food.gstPercent - Cart.AggregateGstPercent) == 0.0;
    }
  }

  /** The quantity the modal opens with. */
  const InitialQuantity: int := 1

  /** The "minus" button: `Math.max(1, quantity - 1)`. */
  function Decrement(quantity: int): (r: int)
    ensures r >= 1
    ensures quantity >= 2 ==> r == quantity - 1
    ensures quantity <= 2 ==> r == 1
  {
    if 1 > quantity - 1 then 1 else quantity - 1
  }

  /** The "plus" button; "minus" undoes it from any quantity of at least 1. */
  function Increment(quantity: int): (r: int)
    ensures r > quantity
    ensures quantity >= 1 ==> Decrement(r) == quantity
  {
    quantity + 1
  }

  datatype Press = Minus | Plus

  /** The quantity after a sequence of button presses, starting from `InitialQuantity`. */
  function QuantityAfter(presses: seq<Press>): int
  {
    if |presses| == 0 then InitialQuantity
    else
      var q := QuantityAfter(presses[..|presses| - 1]);
      match presses[|presses| - 1]
      case Minus => Decrement(q)
      case Plus => Increment(q)
  }

  /** Whatever the user presses, the quantity stays at least 1. */
  lemma {:induction false} QuantityAtLeastOne(presses: seq<Press>)
    ensures QuantityAfter(presses) >= 1
  {
    if |presses| > 0 {
      QuantityAtLeastOne(presses[..|presses| - 1]);
    }
  }
}
