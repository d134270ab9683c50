# Foodie Bites storefront: pricing and menu model

This project is a Dafny model of the logic inside the storefront's React pages and
components. The rest of those files is rendering and calls to the hosted data service.
The model covers:

- **Cart pricing** (`src/pages/Cart.tsx`). The cart folds its lines into subtotal,
  discount, GST, delivery charge and total. GST is a fixed 5% of the discounted
  subtotal. The delivery charge is the *first* line's food's. The page shows a
  discounted amount beside each line, and a struck-through full amount when the food
  is discounted.
- **Cart list updates** (`src/pages/Cart.tsx`). A quantity below 1 is rejected before
  any request. When the data service accepts an update, every line with the id takes
  the new quantity. A delete removes the lines with the id. When the service reports
  an error, the list is left as it was.
- **Checkout** (`src/pages/Checkout.tsx`). Checkout has its own copy of the totals
  computation, which passes the delivery charge through `|| 0`. It also builds the
  item snapshot and the `orders` row, and `handlePlaceOrder` decides what happens for
  each outcome the data service reports.
- **Item detail** (`src/components/FoodDetailModal.tsx`). The modal prices one food
  at a chosen quantity, using the food's *own* GST rate. Its quantity counter starts
  at 1 and never goes below 1.
- **Card price** (`src/components/FoodCard.tsx`). The card shows the discounted unit
  price. The "% OFF" badge and the struck-through base price appear when the discount
  is positive.
- **Menu** (`src/pages/Index.tsx`). The bundled image, when the name maps to a non-empty
  one, replaces the stored URL. The category buttons are `"All"` followed by the distinct categories.
  The category filter treats `"All"` as "everything". The search box matches a
  case-insensitive substring of name, category or description.

Money, percentages and ratings are exact `real`s, so every proof is about exact
arithmetic. Quantities are `int`. The model allows a food's `delivery_charge` to be
`null` (`Js.Nullable<real>`), which checkout guards with `|| 0`
(src/pages/Checkout.tsx:77); whether the column can hold `null` is not visible in the
source, and the item-detail modal types the field as a plain number. JavaScript `+`
turns `null` into 0 (`Js.ToNumber`), and `|| 0` turns `null` and `0` into 0
(`Js.OrZero`). So for a `null` charge the two `calculateTotals` copies return
different delivery charges, though equal totals.

Modules, one per source component plus shared support:
`Js` (the JavaScript built-ins the code relies on), `Seqs` (sum, filter, first-occurrence
dedup), `Catalog` (the `foods` row), `FoodCard`, `FoodDetail`, `Cart`, `Checkout`, `Menu`.

Nothing in the storefront validates prices, discounts or quantities. The operations
accept any values, and the bounds lemmas take `Catalog.WellPriced` and non-negative
quantities as hypotheses. Cart quantities are whatever the data service returns; only
`updateQuantity` keeps them at 1 or more (`Cart.UpdateKeepsQuantitiesPositive`).

## Model

| member | source | states |
|---|---|---|
| Js.OrZero | src/pages/Checkout.tsx:77 | the or-zero fallback gives 0 exactly when the charge is missing or zero, and always agrees with the value `+` gives the charge (`null` as 0) |
| Js.Trim | src/pages/Index.tsx:90 | `trim` returns a contiguous slice of the query such that everything dropped before and after it is white space, and the slice neither starts nor ends with white space |
| Js.BlankIffAllWhiteSpace | src/pages/Index.tsx:90 | the trimmed query is empty if and only if every character of the query is white space |
| Js.LowerChar | src/pages/Index.tsx:96-98 | lower-casing leaves no ASCII capital; it changes only ASCII capitals, each to its own lower-case letter |
| Js.IncludesIff | src/pages/Index.tsx:96-98 | `includes` holds if and only if the needle occurs at some position of the haystack |
| Seqs.Filter | src/pages/Index.tsx:95-99 | `filter` keeps every element satisfying the predicate, with its multiplicity, in the original order, and nothing else |
| Seqs.Distinct | src/pages/Index.tsx:65 | `Array.from(new Set(...))` has no repeats, has the same elements as its input, and lists them in order of first occurrence |
| FoodCard.DiscountedPrice | src/components/FoodCard.tsx:28 | with base ≥ 0 and discount in [0,100] the card price lies in [0, base]; it equals base at 0% and 0 at 100% |
| FoodCard.DiscountMarkersIffCheaper | src/components/FoodCard.tsx:41-83 | for a positive base price, the "% OFF" badge and the struck-through price appear exactly when the card price is below the base price |
| FoodCard.DiscountedPriceAntitone | src/components/FoodCard.tsx:28 | a larger discount percentage never raises the card price |
| Cart.CalculateTotals | src/pages/Cart.tsx:83-101 | the `forEach` accumulation returns exactly the cart's totals: sums of `base*q` and `base*q*d/100`, 5% GST, first line's delivery charge |
| Cart.EmptyCartTotals | src/pages/Cart.tsx:84-87 | an empty cart prices to zero in every field, including a delivery charge of 0 |
| Cart.TotalDecomposition | src/pages/Cart.tsx:96-98 | gst is 1/20 of (subtotal − discount), and total is 21/20 of it plus the delivery charge |
| Cart.TotalsBounds | src/pages/Cart.tsx:89-97 | with non-negative prices and quantities and discounts in [0,100], 0 ≤ discount ≤ subtotal and gst ≥ 0 |
| Cart.TotalsIgnoreOtherFields | src/pages/Cart.tsx:87-98 | carts that agree on quantities, base prices, discounts and the first delivery charge price alike, so no line's `gst_percent` is consulted |
| Cart.ReorderKeepsAmounts | src/pages/Cart.tsx:87-94 | any reordering of the lines keeps subtotal, discount and gst; the delivery charge is always the first line's |
| Cart.SwapChangesDeliveryCharge | src/pages/Cart.tsx:87 | swapping the first two lines changes the delivery charge whenever their foods' charges differ, and leaves the subtotal as it is |
| Cart.TwoItemScenario | src/pages/Cart.tsx:83-101 | A (100, 0%, ×1) and B (250, 20%, ×2) give subtotal 600, discount 100, gst 25, and total 525 plus the first line's delivery charge |
| Cart.LineAmount | src/pages/Cart.tsx:184 | the amount beside a line is the card price times the quantity, which is the line's price minus its discount |
| Cart.StruckAmount | src/pages/Cart.tsx:186-190 | a struck-through amount is shown exactly when the food's discount is positive, and it equals the amount shown beside the line plus that line's discount |
| Cart.StruckAmountIffCheaper | src/pages/Cart.tsx:184-190 | for a positive price and quantity, the struck-through amount appears exactly when the amount shown beside the line is below the undiscounted line price |
| Cart.LineAmountsSumToDiscountedSubtotal | src/pages/Cart.tsx:89-96 | the amounts shown beside the lines add up to subtotal − discount |
| Cart.UpdateQuantity | src/pages/Cart.tsx:50-66 | a quantity below 1 or a failed update leaves the list unchanged; otherwise length, order and every field except the quantity of matching lines are kept, and matching lines take the new quantity |
| Cart.UpdateShiftsSubtotal | src/pages/Cart.tsx:63-65 | accepting a new quantity for the one line with that id moves the subtotal by base price × change in quantity |
| Cart.DecrementAtOneIsNoOp | src/pages/Cart.tsx:51 | pressing "minus" on a line at quantity 1 leaves the cart unchanged, whatever the service would report |
| Cart.UpdateKeepsQuantitiesPositive | src/pages/Cart.tsx:51-65 | if every quantity is at least 1 before an update, every quantity is at least 1 after it |
| Cart.RemoveItem | src/pages/Cart.tsx:68-81 | a failed delete leaves the list unchanged; a successful one drops every line with the id, keeps every other line with its multiplicity, and keeps their order |
| Cart.RemoveSubtractsRemovedLines | src/pages/Cart.tsx:79 | after a removal, subtotal and discount are the old ones minus those of exactly the removed lines |
| FoodDetail.DetailPricing | src/components/FoodDetailModal.tsx:39-45 | the per-unit discount is base·d/100 and cardDiscount is q times it; the subtotal is the card price times q; gst is the food's own rate applied to the subtotal; total = subtotal + gst + delivery (`null` as 0), which is subtotal·(1 + own gst%/100) + delivery |
| FoodDetail.DetailBounds | src/components/FoodDetailModal.tsx:42-45 | for a well-priced food and q ≥ 0 the subtotal lies in [0, q·base], gst ≥ 0, and total ≥ subtotal |
| FoodDetail.WorkedExample | src/components/FoodDetailModal.tsx:39-45 | base 200, 10% off, 5% gst, delivery 40, q = 2 gives discount 20, card discount 40, subtotal 360, gst 18, total 418 |
| FoodDetail.DetailSubtotalMatchesCart | src/components/FoodDetailModal.tsx:42 | the modal subtotal equals the cart's subtotal − discount for a one-line cart with the same food and quantity |
| FoodDetail.DetailGstAgreesWithCartIff | src/components/FoodDetailModal.tsx:43 | for the same single line, the modal's gst equals the cart's 5% gst if and only if the food's own rate is 5 or the subtotal is 0 |
| FoodDetail.Decrement | src/components/FoodDetailModal.tsx:150 | "minus" never goes below 1: it subtracts one from 2 or more and gives 1 otherwise |
| FoodDetail.Increment | src/components/FoodDetailModal.tsx:158 | "plus" raises the quantity, and "minus" undoes it from any quantity of at least 1 |
| FoodDetail.QuantityAtLeastOne | src/components/FoodDetailModal.tsx:35 | starting from 1, any sequence of presses leaves a quantity of at least 1 |
| Checkout.CheckoutTotals | src/pages/Checkout.tsx:74-91 | the delivery charge is always a number, and it is 0 exactly when the cart is empty or its first charge is missing or zero; gst is 5% of the discounted subtotal and total = discounted subtotal + gst + delivery |
| Checkout.CheckoutAgreesWithCartIff | src/pages/Checkout.tsx:77 | the checkout copy is the cart copy with the delivery charge read as a number (`null` as 0), so subtotal, discount, gst and total always agree; the two records are equal if and only if the cart is empty or its first delivery charge is a number |
| Checkout.SummaryLinesSumToDiscountedSubtotal | src/pages/Checkout.tsx:256-265 | the order summary's per-line amounts add up to the checkout subtotal − discount |
| Checkout.Snapshot | src/pages/Checkout.tsx:102-108 | the snapshot has one entry per cart line, in order, copying food id, name, quantity, base price (as price) and discount percent |
| Checkout.BuildOrder | src/pages/Checkout.tsx:110-123 | the inserted order carries the snapshot, the checkout totals, the form's address and payment mode, and status "pending" |
| Checkout.OrderRecomputableFromSnapshot | src/pages/Checkout.tsx:102-119 | an order's subtotal and discount can be recomputed from its own item snapshot, and its gst and total from those and its delivery charge |
| Checkout.PlaceOrder | src/pages/Checkout.tsx:93-147 | with no session nothing is sent and `placing` stays set; a failed insert leaves the cart and `orderPlaced` false; a stored order sets `orderPlaced` whatever the profile upsert and the cart delete report, and the stored cart is empty after a successful delete and unchanged after a failed one |
| Checkout.CartClearedOnlyAfterInsert | src/pages/Checkout.tsx:125-145 | a non-empty cart ends up empty only if the order insert succeeded, and the order counts as placed if and only if there is a session and the insert succeeded |
| Menu.WithImage | src/pages/Index.tsx:60 | the bundled image replaces the URL when the name is a key with a non-empty value; otherwise (unknown name or empty value) the stored URL is kept; no other field changes |
| Menu.WithImages | src/pages/Index.tsx:58-61 | image substitution keeps the length and order of the fetched foods |
| Menu.CategoryButtons | src/pages/Index.tsx:65-66 | "All" comes first, then every category exactly once in first-occurrence order; the list has no repeats if and only if no food's category is "All" |
| Menu.ImagesKeepCategoryButtons | src/pages/Index.tsx:58-66 | computing the buttons before or after image substitution gives the same list |
| Menu.FilterByCategory | src/pages/Index.tsx:43-49 | "All" shows the full list unchanged; any other category shows, in order and with multiplicity, exactly the foods whose category equals it |
| Menu.Search | src/pages/Index.tsx:89-101 | a query that is blank after trimming shows every food; any other query shows, in order and with multiplicity, exactly the foods it matches |
| Menu.SearchFindsByName | src/pages/Index.tsx:95-99 | a food whose lower-cased name contains the lower-cased query is among the results |

## Left out

- Calls to the data service: authentication, `select`, `insert`, `upsert`, `delete`. Their outcomes are boolean or nullable parameters (`updateOk`, `deleteOk`, `insertOk`, `profileOk`, `clearOk`, `user`).
- Reads of the data service (`fetchCartItems`, `fetchProfile`, `fetchFoods`, `fetchCartCount`). The fetched rows are parameters. The server-side `is_available` filter is not modelled.
- `handleAddToCart` in the item-detail modal. Whether its upsert replaces or duplicates a line depends on a database constraint that the source does not show.
- React state, effects, routing, toasts and layout; the static footer. Search results and the category filter both write the shown list, and whichever runs last wins. They are modelled as two separate operations.
- The modal's quantity is not reset when the modal is reopened for another food. Only the counter's own steps are modelled.
- The browser's `required` validation of the checkout form.
- `toFixed(2)` and `toFixed(0)` formatting, and IEEE-754 rounding. The proofs are about exact arithmetic.
- Js.LowerChar: only ASCII letters are folded. `toLowerCase` also folds other Unicode letters.
- A `delivery_charge` that is `undefined` or not a number. Under `+`, `undefined` gives `NaN` and a string concatenates instead of adding; checkout's `|| 0` turns `undefined` and `""` into 0. Only a number or `null` is modelled, as `Js.Val` or `Js.Null`.
- Rendering a `null` delivery charge. The cart page (src/pages/Cart.tsx:221) and the item-detail modal (src/components/FoodDetailModal.tsx:135) call `toFixed(2)` on the charge, which throws on `null`; the model stops at the computed values.
- A cart row whose joined `foods` is missing. The page would throw.
- Menu.WithImage: names that are keys of `Object.prototype` (such as `"toString"`) are not modelled. For those, `imageMap[name]` is an inherited function. The concrete bundled asset URLs are also not modelled; the image map is a parameter.
