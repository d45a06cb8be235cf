/**
 * The catalog: stock badges, the admin dashboard's low-stock count, and the
 * values the admin forms write into a product.
 */
module Catalog {
  import opened Wrappers
  import opened Records

  /** The badge `getStockStatus` shows next to a product. */
  datatype StockStatus = Out | Low | Good

  /**
   * `getStockStatus`: "out" exactly at zero, "good" above five, and "low"
   * for everything else, negative stock included.
   */
  function StockStatusOf(quantity: int): (s: StockStatus)
    ensures s == Out <==> quantity == 0
    ensures s == Good <==> quantity > 5
    ensures s == Low <==> quantity < 0 || 1 <= quantity <= 5
  {
    if quantity == 0 then Out
    else if quantity <= 5 then Low
    else Good
  }

  /** The dashboard's low-stock figure: products whose stock lies in 1..5. */
  function LowStockCount(products: seq<Product>): (n: nat)
    ensures n <= |products|
  {
    if products == [] then 0
    else
      var last := products[|products| - 1];
      LowStockCount(products[..|products| - 1]) + (if 0 < last.quantity <= 5 then 1 else 0)
  }

  /** How many products carry the badge `s`. */
  function CountWithStatus(products: seq<Product>, s: StockStatus): nat {
    if products == [] then 0
    else
      var last := products[|products| - 1];
      CountWithStatus(products[..|products| - 1], s) + (if StockStatusOf(last.quantity) == s then 1 else 0)
  }

  function NegativeStockCount(products: seq<Product>): nat {
    if products == [] then 0
    else
      var last := products[|products| - 1];
      NegativeStockCount(products[..|products| - 1]) + (if last.quantity < 0 then 1 else 0)
  }

  /**
   * The dashboard and the badges disagree exactly on negative stock: every
   * product with negative stock shows a "low" badge but is left out of the
   * low-stock count.
   */
  lemma {:induction false} LowBadgesAreLowCountPlusNegatives(products: seq<Product>)
    ensures CountWithStatus(products, Low) == LowStockCount(products) + NegativeStockCount(products)
  {
    if products != [] {
      LowBadgesAreLowCountPlusNegatives(products[..|products| - 1]);
    }
  }

  /** Without negative stock the dashboard counts exactly the "low" badges. */
  lemma {:induction false} LowCountMatchesBadgesWithoutNegatives(products: seq<Product>)
    requires forall k :: 0 <= k < |products| ==> products[k].quantity >= 0
    ensures LowStockCount(products) == CountWithStatus(products, Low)
  {
    if products != [] {
      LowCountMatchesBadgesWithoutNegatives(products[..|products| - 1]);
    }
  }

  /**
   * `updateProductStock`'s stored value, `max(0, parseInt(text) || 0)`:
   * a positive entry is kept, anything else becomes 0.
   */
  function ClampedStock(entered: Option<int>): (q: nat)
    ensures entered.Some? && entered.value > 0 ==> q == entered.value
    ensures q == 0 <==> entered.None? || entered.value <= 0
  {
    Max(0, OrZero(entered))
  }

  /**
   * `addProduct`'s new entry: nothing unless name, image and price are all
   * filled in; a blank quantity reads as 0 and a blank description becomes
   * "No description".
   */
  function NewProduct(name: string, image: string, price: string, qty: Option<int>, desc: string): (r: Option<Product>)
    ensures r.Some? <==> name != "" && image != "" && price != ""
    ensures r.Some? ==> r.value.name == name && r.value.image == image && r.value.price == price
    ensures r.Some? ==> r.value.quantity == OrZero(qty)
    ensures r.Some? ==> r.value.description.Some? && r.value.description.value != ""
    ensures r.Some? ==> r.value.description == Some(if desc == "" then "No description" else desc)
  {
    if name == "" || image == "" || price == "" then None
    else Some(Product(name, image, price, OrZero(qty), Some(if desc == "" then "No description" else desc)))
  }

  /**
   * `editProduct`'s replacement for `current`: nothing when the name or price
   * prompt was cancelled or left empty; otherwise the entered fields with the
   * old image. Quantity and description are stored as the prompts returned
   * them, unchecked.
   */
  function EditedProduct(current: Product, name: Option<string>, price: Option<string>, qty: Option<int>, desc: Option<string>)
    : (r: Option<Product>)
    ensures r.Some? <==> name.Some? && name.value != "" && price.Some? && price.value != ""
    ensures r.Some? ==> r.value.image == current.image
    ensures r.Some? ==> r.value.name == name.value && r.value.price == price.value
    ensures r.Some? ==> r.value.quantity == OrZero(qty) && r.value.description == desc
  {
    if name.None? || price.None? || name.value == "" || price.value == "" then None
    else Some(Product(name.value, current.image, price.value, OrZero(qty), desc))
  }
}
