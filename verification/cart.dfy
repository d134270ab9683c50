/** The cart page (src/pages/Cart.tsx): aggregate pricing of the cart lines,
    the per-line amounts it displays, and the two list updates it performs after
    the data service reports the outcome of an update or a delete. */
module Cart {
  import opened Js
  import opened Seqs
  import opened Catalog
  import FoodCard

  /** A `cart_items` row joined with its `foods` row. */
  datatype CartLine = CartLine(id: string, userId: string, foodId: string, quantity: int, food: FoodItem)

  /** The record both the cart and the checkout pages compute. */
  datatype Totals = Totals(subtotal: real, discount: real, gst: real, deliveryCharge: Nullable<real>, total: real)

  /** The tax rate of the aggregate path, in percent; no line's own rate is used. */
  const AggregateGstPercent: real := 5.0

  /** `base_price * quantity` of one line. */
  function ItemPrice(line: CartLine): real {
    line.food.basePrice * line.quantity as real
  }

  /** The discount of one line, a percentage of its item price. */
  function ItemDiscount(line: CartLine): real {
    ItemPrice(line) * line.food.discountPercent / 100.0
  }

  /** The delivery charge of the cart: the first line's food's, or 0 for an empty cart. */
  function FirstDeliveryCharge(lines: seq<CartLine>): Nullable<real> {
    if |lines| > 0 then lines[0].food.deliveryCharge else Val(0.0)
  }

  /** The cart's totals, as a function of its lines. */
  function CartTotals(lines: seq<CartLine>): Totals {
    var subtotal := SumOf(lines, ItemPrice);
    var discount := SumOf(lines, ItemDiscount);
    var discountedSubtotal := subtotal - discount;
    var gst := discountedSubtotal * AggregateGstPercent / 100.0;
    var deliveryCharge := FirstDeliveryCharge(lines);
    Totals(subtotal, discount, gst, deliveryCharge, discountedSubtotal + gst + ToNumber(deliveryCharge))
  }

  /** `calculateTotals`: one pass over the lines, accumulating item prices and discounts. */
  method CalculateTotals(lines: seq<CartLine>) returns (t: Totals)
    ensures t == CartTotals(lines)
  {
    var subtotal := 0.0;
    var discount := 0.0;
    var deliveryCharge := if |lines| > 0 then lines[0].food.deliveryCharge else Val(0.0);
    var i := 0;
    while i < |lines|
      invariant 0 <= i <= |lines|
      invariant subtotal == SumOf(lines[..i], ItemPrice)
      invariant discount == SumOf(lines[..i], ItemDiscount)
    {
      var itemPrice := lines[i].food.basePrice * lines[i].quantity as real;
      var itemDiscount := (itemPrice * lines[i].food.discountPercent) / 100.0;
      subtotal := subtotal + itemPrice;
      discount := discount + itemDiscount;
      assert lines[..i + 1][..i] == lines[..i];
      i := i + 1;
    }
    assert lines[..i] == lines;
    var discountedSubtotal := subtotal - discount;
    var gst := (discountedSubtotal * AggregateGstPercent) / 100.0;
    var total := discountedSubtotal + gst + ToNumber(deliveryCharge);
    t := Totals(subtotal, discount, gst, deliveryCharge, total);
  }

  /** An empty cart prices to zero in every field. */
  lemma EmptyCartTotals()
    ensures CartTotals([]) == Totals(0.0, 0.0, 0.0, Val(0.0), 0.0)
  {
  }

  /** The total is the discounted subtotal, plus 5% of it, plus the delivery charge;
      the gst is never negative when the discount does not exceed the subtotal. */
  lemma TotalDecomposition(lines: seq<CartLine>)
    ensures var t := CartTotals(lines);
      && t.gst == (t.subtotal - t.discount) / 20.0
      && t.total == (t.subtotal - t.discount) * 21.0 / 20.0 + ToNumber(t.deliveryCharge)
      && (t.discount <= t.subtotal ==> 0.0 <= t.gst)
  {
  }

  /** Two distinct items, A (100, no discount, 1 unit) and B (250, 20% off, 2 units):
      subtotal 600, discount 100, gst 25, and the delivery charge of whichever comes first. */
  lemma TwoItemScenario(a: CartLine, b: CartLine)
    requires a.food.basePrice == 100.0 && a.food.discountPercent == 0.0 && a.quantity == 1
    requires b.food.basePrice == 250.0 && b.food.discountPercent == 20.0 && b.quantity == 2
    ensures var t := CartTotals([a, b]);
      && t.subtotal == 600.0 && t.discount == 100.0 && t.gst == 25.0
      && t.deliveryCharge == a.food.deliveryCharge
      && t.total == 525.0 + ToNumber(a.food.deliveryCharge)
    ensures CartTotals([b, a]).total == 525.0 + ToNumber(b.food.deliveryCharge)
  {
    assert [a, b][..1] == [a] && [b, a][..1] == [b];
    assert [a][..0] == [] && [b][..0] == [];
    assert ItemPrice(a) == 100.0 && ItemDiscount(a) == 0.0;
    assert ItemPrice(b) == 500.0 && ItemDiscount(b) == 100.0;
    assert SumOf([a], ItemPrice) == 100.0;
    assert SumOf([b], ItemPrice) == SumOf([], ItemPrice) + ItemPrice(b) == 500.0;
    assert SumOf([a], ItemDiscount) == 0.0 && SumOf([b], ItemDiscount) == 100.0;
    assert SumOf([a, b], ItemPrice) == 600.0 && SumOf([b, a], ItemPrice) == 600.0;
    assert SumOf([a, b], ItemDiscount) == 100.0 && SumOf([b, a], ItemDiscount) == 100.0;
  }

  /** The amount shown beside a line: the card price times the quantity. */
  function LineAmount(line: CartLine): (r: real)
    ensures r == FoodCard.DiscountedPrice(line.food.basePrice, line.food.discountPercent) * line.quantity as real
    ensures r == ItemPrice(line) - ItemDiscount(line)
  {
    (line.food.basePrice - (line.food.basePrice * line.food.discountPercent / 100.0)) * line.quantity as real
  }

  /** The struck-through amount is shown beside a line exactly when its food is discounted;
      it is the amount shown next to it plus that line's discount. */
  function StruckAmount(line: CartLine): (r: Nullable<real>)
    ensures r.Val? <==> FoodCard.HasDiscount(line.food.discountPercent)
    ensures r.Val? ==> r.value == LineAmount(line) + ItemDiscount(line)
  {
    if line.food.discountPercent > 0.0 then Val(line.food.basePrice * line.quantity as real) else Null
  }

  /** For a positive price and quantity, a struck-through amount appears exactly when
      the amount shown beside the line is below the undiscounted line price. */
  lemma StruckAmountIffCheaper(line: CartLine)
    requires 0.0 < line.food.basePrice && 0 < line.quantity
    ensures StruckAmount(line).Val? <==> LineAmount(line) < ItemPrice(line)
  {
    var base, d := line.food.basePrice, line.food.discountPercent;
    var q := line.quantity as real;
    FoodCard.DiscountMarkersIffCheaper(base, d);
    assert LineAmount(line) == FoodCard.DiscountedPrice(base, d) * q;
    assert ItemPrice(line) == base * q;
    assert FoodCard.DiscountedPrice(base, d) < base <==> FoodCard.DiscountedPrice(base, d) * q < base * q;
  }

  /** The displayed line amounts add up to the discounted subtotal. */
  lemma {:induction false} LineAmountsSumToDiscountedSubtotal(lines: seq<CartLine>)
    ensures SumOf(lines, LineAmount) == CartTotals(lines).subtotal - CartTotals(lines).discount
  {
    SumOfDifference(lines, ItemPrice, ItemDiscount, LineAmount);
  }

  lemma ItemDiscountBetween(line: CartLine)
    requires 0 <= line.quantity && 0.0 <= line.food.basePrice
    requires 0.0 <= line.food.discountPercent <= 100.0
    ensures 0.0 <= ItemDiscount(line) <= ItemPrice(line)
  {
    var p, d := ItemPrice(line), line.food.discountPercent;
    assert 0.0 <= p by {
      assert 0.0 <= line.quantity as real;
    }
    assert 0.0 <= p * d;
    assert 0.0 <= p * (100.0 - d);
    assert p * d <= p * 100.0;
  }

  /** With non-negative prices and quantities and every discount in [0,100],
      the discount lies between 0 and the subtotal and the gst is non-negative. */
  lemma {:induction false} TotalsBounds(lines: seq<CartLine>)
    requires forall i :: 0 <= i < |lines| ==> 0 <= lines[i].quantity
    requires forall i :: 0 <= i < |lines| ==> 0.0 <= lines[i].food.basePrice
    requires forall i :: 0 <= i < |lines| ==> 0.0 <= lines[i].food.discountPercent <= 100.0
    ensures var t := CartTotals(lines);
      0.0 <= t.discount <= t.subtotal && 0.0 <= t.gst
  {
    forall i | 0 <= i < |lines| ensures 0.0 <= ItemDiscount(lines[i]) <= ItemPrice(lines[i]) {
      ItemDiscountBetween(lines[i]);
    }
    SumOfBetween(lines, ItemDiscount, ItemPrice);
  }

  /** The totals read only quantity, base price and discount of every line and the
      delivery charge of the first: no line's `gstPercent` (nor any other field) is consulted. */
  lemma TotalsIgnoreOtherFields(a: seq<CartLine>, b: seq<CartLine>)
    requires |a| == |b|
    requires forall i :: 0 <= i < |a| ==>
      && a[i].quantity == b[i].quantity
      && a[i].food.basePrice == b[i].food.basePrice
      && a[i].food.discountPercent == b[i].food.discountPercent
    requires FirstDeliveryCharge(a) == FirstDeliveryCharge(b)
    ensures CartTotals(a) == CartTotals(b)
  {
    SumOfPointwise(a, ItemPrice, b, ItemPrice);
    SumOfPointwise(a, ItemDiscount, b, ItemDiscount);
  }

  /** Reordering the lines keeps subtotal and discount; the delivery charge follows
      whichever line comes first. */
  lemma ReorderKeepsAmounts(a: seq<CartLine>, b: seq<CartLine>)
    requires multiset(a) == multiset(b)
    ensures CartTotals(a).subtotal == CartTotals(b).subtotal
    ensures CartTotals(a).discount == CartTotals(b).discount
    ensures CartTotals(a).gst == CartTotals(b).gst
    ensures |a| > 0 ==> CartTotals(a).deliveryCharge == a[0].food.deliveryCharge
  {
    SumOfPermutation(a, b, ItemPrice);
    SumOfPermutation(a, b, ItemDiscount);
  }

  /** Swapping the first two lines changes the delivery charge whenever their foods' charges differ. */
  lemma SwapChangesDeliveryCharge(x: CartLine, y: CartLine, rest: seq<CartLine>)
    requires x.food.deliveryCharge != y.food.deliveryCharge
    ensures CartTotals([x, y] + rest).deliveryCharge != CartTotals([y, x] + rest).deliveryCharge
    ensures CartTotals([x, y] + rest).subtotal == CartTotals([y, x] + rest).subtotal
  {
    assert multiset([x, y] + rest) == multiset([y, x] + rest);
    ReorderKeepsAmounts([x, y] + rest, [y, x] + rest);
  }

  /** `updateQuantity`: a quantity below 1 is rejected before any request; otherwise,
      when the data service accepts the update, every line with the given id takes the
      new quantity. A failed update leaves the list as it was. */
  function UpdateQuantity(lines: seq<CartLine>, itemId: string, newQuantity: int, updateOk: bool): (r: seq<CartLine>)
    ensures newQuantity < 1 || !updateOk ==> r == lines
    ensures |r| == |lines|
    ensures forall i :: 0 <= i < |lines| ==> r[i].(quantity := lines[i].quantity) == lines[i]
    ensures forall i :: 0 <= i < |lines| && lines[i].id != itemId ==> r[i] == lines[i]
    ensures newQuantity >= 1 && updateOk ==>
      forall i :: 0 <= i < |lines| && lines[i].id == itemId ==> r[i].quantity == newQuantity
  {
    if newQuantity < 1 || !updateOk then lines
    else seq(|lines|, i requires 0 <= i < |lines| => WithQuantityIfMatches(lines[i], itemId, newQuantity))
  }

  function WithQuantityIfMatches(line: CartLine, itemId: string, newQuantity: int): CartLine {
    if line.id == itemId then line.(quantity := newQuantity) else line
  }

  /** Accepting a new quantity for the one line with the given id moves the subtotal
      by that line's base price times the change in quantity. */
  lemma UpdateShiftsSubtotal(lines: seq<CartLine>, k: int, newQuantity: int)
    requires 0 <= k < |lines| && newQuantity >= 1
    requires forall i :: 0 <= i < |lines| && i != k ==> lines[i].id != lines[k].id
    ensures CartTotals(UpdateQuantity(lines, lines[k].id, newQuantity, true)).subtotal ==
            CartTotals(lines).subtotal + lines[k].food.basePrice * (newQuantity - lines[k].quantity) as real
  {
    var r := UpdateQuantity(lines, lines[k].id, newQuantity, true);
    assert r == lines[k := r[k]];
    SumOfUpdate(lines, k, r[k], ItemPrice);
    assert ItemPrice(r[k]) - ItemPrice(lines[k]) ==
      lines[k].food.basePrice * (newQuantity - lines[k].quantity) as real;
  }

  /** Pressing "minus" on a line at quantity 1 changes nothing. */
  lemma DecrementAtOneIsNoOp(lines: seq<CartLine>, k: int, updateOk: bool)
    requires 0 <= k < |lines| && lines[k].quantity == 1
    ensures UpdateQuantity(lines, lines[k].id, lines[k].quantity - 1, updateOk) == lines
  {
  }

  /** No sequence of quantity updates brings a line below 1. */
  lemma UpdateKeepsQuantitiesPositive(lines: seq<CartLine>, itemId: string, newQuantity: int, updateOk: bool)
    requires forall i :: 0 <= i < |lines| ==> lines[i].quantity >= 1
    ensures var r := UpdateQuantity(lines, itemId, newQuantity, updateOk);
      forall i :: 0 <= i < |r| ==> r[i].quantity >= 1
  {
  }

  predicate IsOtherLine(itemId: string, line: CartLine) {
    line.id != itemId
  }

  /** `removeItem`: on a successful delete, exactly the lines with the given id are
      dropped and the rest keep their order; a failed delete leaves the list as it was. */
  function RemoveItem(lines: seq<CartLine>, itemId: string, deleteOk: bool): (r: seq<CartLine>)
    ensures !deleteOk ==> r == lines
    ensures deleteOk ==> forall i :: 0 <= i < |r| ==> r[i].id != itemId
    ensures deleteOk ==> forall l: CartLine :: l.id != itemId ==> multiset(r)[l] == multiset(lines)[l]
    ensures IsSubsequence(r, lines)
  {
    if deleteOk then Filter(lines, l => IsOtherLine(itemId, l))
    else
      IsSubsequenceReflexive(lines);
      lines
  }

  predicate IsLine(itemId: string, line: CartLine) {
    line.id == itemId
  }

  /** A successful removal takes exactly the removed lines' amounts off the subtotal and the discount. */
  lemma RemoveSubtractsRemovedLines(lines: seq<CartLine>, itemId: string)
    ensures var removed := Filter(lines, l => IsLine(itemId, l));
      var t, u := CartTotals(lines), CartTotals(RemoveItem(lines, itemId, true));
      && u.subtotal == t.subtotal - SumOf(removed, ItemPrice)
      && u.discount == t.discount - SumOf(removed, ItemDiscount)
  {
    SumOfFilterSplit(lines, l => IsOtherLine(itemId, l), l => IsLine(itemId, l), ItemPrice);
    SumOfFilterSplit(lines, l => IsOtherLine(itemId, l), l => IsLine(itemId, l), ItemDiscount);
  }
}
