/** The checkout page (src/pages/Checkout.tsx): its copy of the totals computation,
    the item snapshot and order record it inserts, and what placing an order does
    depending on the outcomes the data service reports. */
module Checkout {
  import opened Js
  import opened Seqs
  import Cart

  /** Checkout's `calculateTotals`: as the cart's, except that the first line's delivery
      charge passes through `|| 0`, so a missing or zero charge (or an empty cart) gives 0. */
  function CheckoutTotals(lines: seq<Cart.CartLine>): (t: Cart.Totals)
    ensures t.deliveryCharge.Val?
    ensures t.deliveryCharge == Val(0.0) <==>
      |lines| == 0 || lines[0].food.deliveryCharge == Null || lines[0].food.deliveryCharge == Val(0.0)
    ensures t.gst == (t.subtotal - t.discount) * Cart.AggregateGstPercent / 100.0
    ensures t.total == t.subtotal - t.discount + t.gst + t.deliveryCharge.value
  {
    var subtotal := SumOf(lines, Cart.ItemPrice);
    var discount := SumOf(lines, Cart.ItemDiscount);
    var deliveryCharge := OrZero(if |lines| > 0 then lines[0].food.deliveryCharge else Null);
    var discountedSubtotal := subtotal - discount;
    var gst := (discountedSubtotal * Cart.AggregateGstPercent) / 100.0;
    Cart.Totals(subtotal, discount, gst, Val(deliveryCharge), discountedSubtotal + gst + deliveryCharge)
  }

  /** The two copies of `calculateTotals` differ only in the delivery charge, which
      checkout reads through `|| 0`. They return the same record exactly when the cart
      is empty or its first line's delivery charge is a number; otherwise the cart's
      `calculateTotals` returns `null` where checkout returns 0, and the totals agree. */
  lemma CheckoutAgreesWithCartIff(lines: seq<Cart.CartLine>)
    ensures CheckoutTotals(lines) ==
      Cart.CartTotals(lines).(deliveryCharge := Val(ToNumber(Cart.FirstDeliveryCharge(lines))))
    ensures CheckoutTotals(lines) == Cart.CartTotals(lines) <==>
      |lines| == 0 || lines[0].food.deliveryCharge.Val?
    ensures CheckoutTotals(lines).total == Cart.CartTotals(lines).total
  {
  }

  /** The order summary's line amounts add up to the discounted subtotal. */
  lemma {:induction false} SummaryLinesSumToDiscountedSubtotal(lines: seq<Cart.CartLine>)
    ensures SumOf(lines, Cart.LineAmount) == CheckoutTotals(lines).subtotal - CheckoutTotals(lines).discount
  {
    Cart.LineAmountsSumToDiscountedSubtotal(lines);
  }

  /** One entry of the order's item snapshot. */
  datatype OrderItem = OrderItem(foodId: string, name: string, quantity: int, price: real, discountPercent: real)

  /** The snapshot of one cart line. */
  function SnapshotOf(line: Cart.CartLine): OrderItem {
    OrderItem(line.foodId, line.food.name, line.quantity, line.food.basePrice, line.food.discountPercent)
  }

  /** `orderItems`: one snapshot per cart line, in cart order. */
  function Snapshot(lines: seq<Cart.CartLine>): (items: seq<OrderItem>)
    ensures |items| == |lines|
    ensures forall i :: 0 <= i < |lines| ==>
      && items[i].foodId == lines[i].foodId
      && items[i].name == lines[i].food.name
      && items[i].quantity == lines[i].quantity
      && items[i].price == lines[i].food.basePrice
      && items[i].discountPercent == lines[i].food.discountPercent
  {
    seq(|lines|, i requires 0 <= i < |lines| => SnapshotOf(lines[i]))
  }

  /** The undiscounted price of a snapshot entry. */
  function SnapshotPrice(item: OrderItem): real {
    item.price * item.quantity as real
  }

  function SnapshotDiscount(item: OrderItem): real {
    SnapshotPrice(item) * item.discountPercent / 100.0
  }

  /** The delivery details typed into the checkout form. */
  datatype DeliveryForm = DeliveryForm(fullName: string, phone: string, address: string, paymentMode: string)

  /** The row inserted into `orders`. */
  datatype Order = Order(
    userId: string,
    items: seq<OrderItem>,
    subtotal: real,
    discount: real,
    gst: real,
    deliveryCharge: real,
    total: real,
    deliveryAddress: string,
    paymentMode: string,
    status: string)

  /** The row upserted into `profiles` after the order is stored. */
  datatype Profile = Profile(id: string, fullName: string, phone: string, address: string)

  const PendingStatus: string := "pending"

  /** The order row built from the cart and the form. */
  function BuildOrder(userId: string, lines: seq<Cart.CartLine>, form: DeliveryForm): (o: Order)
    ensures o.userId == userId && o.items == Snapshot(lines)
    ensures o.status == PendingStatus
    ensures o.deliveryAddress == form.address && o.paymentMode == form.paymentMode
    ensures var t := CheckoutTotals(lines);
      && o.subtotal == t.subtotal && o.discount == t.discount && o.gst == t.gst
      && Val(o.deliveryCharge) == t.deliveryCharge && o.total == t.total
  {
    var t := CheckoutTotals(lines);
    Order(userId, Snapshot(lines), t.subtotal, t.discount, t.gst, t.deliveryCharge.value, t.total,
          form.address, form.paymentMode, PendingStatus)
  }

  /** A stored order is self-consistent: its subtotal and discount can be recomputed
      from its own item snapshot, and its total from those and its delivery charge. */
  lemma OrderRecomputableFromSnapshot(userId: string, lines: seq<Cart.CartLine>, form: DeliveryForm)
    ensures var o := BuildOrder(userId, lines, form);
      && o.subtotal == SumOf(o.items, SnapshotPrice)
      && o.discount == SumOf(o.items, SnapshotDiscount)
      && o.gst == (o.subtotal - o.discount) * Cart.AggregateGstPercent / 100.0
      && o.total == o.subtotal - o.discount + o.gst + o.deliveryCharge
  {
    var items := Snapshot(lines);
    SumOfPointwise(lines, Cart.ItemPrice, items, SnapshotPrice);
    SumOfPointwise(lines, Cart.ItemDiscount, items, SnapshotDiscount);
  }

  /** What `handlePlaceOrder` leaves behind: the order row sent (if any), the profile
      row sent (if any), the cart rows still stored, and the page's two flags. */
  datatype PlaceResult = PlaceResult(
    orderSent: Nullable<Order>,
    profileSent: Nullable<Profile>,
    cartAfter: seq<Cart.CartLine>,
    orderPlaced: bool,
    placing: bool)

  /** `handlePlaceOrder`. `user` is the signed-in user's id, if any; `insertOk`,
      `profileOk` and `clearOk` are the outcomes the data service reports for the
      order insert, the profile upsert and the cart delete. */
  function PlaceOrder(user: Nullable<string>, lines: seq<Cart.CartLine>, form: DeliveryForm,
                      insertOk: bool, profileOk: bool, clearOk: bool): (r: PlaceResult)
    // no session: nothing is sent and the page stays in its "placing" state
    ensures user.Null? ==>
      r.orderSent.Null? && r.profileSent.Null? && r.cartAfter == lines && !r.orderPlaced && r.placing
    // with a session the order row is always sent, carrying the checkout totals
    ensures user.Val? ==> r.orderSent == Val(BuildOrder(user.value, lines, form)) && !r.placing
    // a failed insert leaves the cart as it was and the order unplaced
    ensures user.Val? && !insertOk ==>
      r.profileSent.Null? && r.cartAfter == lines && !r.orderPlaced
    // a stored order is placed whatever the profile upsert and the cart delete report;
    // a failed delete leaves the stored cart rows as they were
    ensures user.Val? && insertOk ==>
      && r.orderPlaced
      && r.profileSent == Val(Profile(user.value, form.fullName, form.phone, form.address))
      && r.cartAfter == (if clearOk then [] else lines)
  {
    match user
    case Null => PlaceResult(Null, Null, lines, false, true)
    case Val(userId) =>
      var order := BuildOrder(userId, lines, form);
      if !insertOk then
        PlaceResult(Val(order), Null, lines, false, false)
      else
        var profile := Profile(userId, form.fullName, form.phone, form.address);
        PlaceResult(Val(order), Val(profile), if clearOk then [] else lines, true, false)
  }

  /** The cart is cleared only after the order has been stored. */
  lemma CartClearedOnlyAfterInsert(user: Nullable<string>, lines: seq<Cart.CartLine>, form: DeliveryForm,
                                   insertOk: bool, profileOk: bool, clearOk: bool)
    requires lines != []
    ensures var r := PlaceOrder(user, lines, form, insertOk, profileOk, clearOk);
      r.cartAfter == [] ==> user.Val? && insertOk && r.orderPlaced
    ensures var r := PlaceOrder(user, lines, form, insertOk, profileOk, clearOk);
      r.orderPlaced <==> user.Val? && insertOk
  {
  }
}
