/** The `foods` row the storefront reads from the data service. */
module Catalog {
  import opened Js

  /** One menu item. Money and percentages are exact reals; `deliveryCharge` is a
      nullable column. */
  datatype FoodItem = FoodItem(
    id: string,
    name: string,
    description: string,
    category: string,
    basePrice: real,
    imageUrl: string,
    rating: real,
    discountPercent: real,
    gstPercent: real,
    deliveryCharge: Nullable<real>,
    isAvailable: bool)

  /** The ranges a well-kept catalog row lies in. Nothing in the storefront checks them;
      the bounds lemmas take them as hypotheses. */
  predicate WellPriced(f: FoodItem) {
    && 0.0 <= f.basePrice
    && 0.0 <= f.discountPercent <= 100.0
    && 0.0 <= f.gstPercent
    && (f.deliveryCharge.Val? ==> 0.0 <= f.deliveryCharge.value)
  }
}
