/**
 * The storefront's records (products, cart lines, orders, support messages)
 * and the by-name lookup that ties cart lines to catalog products.
 */
module Records {
  import opened Wrappers

  /**
   * A catalog entry. The page stores the quantity as text and reads it back
   * everywhere through `parseInt(quantity) || 0`; `quantity` is that integer.
   * `description` is `None` when an edit stored a cancelled prompt (`null`).
   */
  datatype Product = Product(
    name: string,
    image: string,
    price: string,
    quantity: int,
    description: Option<string>)

  /** A cart line: name, price and image are copied from the product when the line is created. */
  datatype CartItem = CartItem(name: string, price: string, quantity: int, image: string)

  /** The three statuses the page ever writes. */
  datatype OrderStatus = Processing | Completed | Cancelled

  datatype Order = Order(
    id: int,
    customerName: string,
    customerEmail: string,
    customerGameID: string,
    products: seq<CartItem>,
    total: real,
    status: OrderStatus,
    date: string)

  datatype Message = Message(orderId: int, text: string, time: string)

  /** `parseInt(text) || 0`: a text that does not parse (`None`, i.e. NaN) reads as 0. */
  function OrZero(parsed: Option<int>): int {
    parsed.GetOr(0)
  }

  function Max(a: int, b: int): int {
    if a < b then b else a
  }

  /**
   * `findIndex(x => x === name)` over a list of names: the first position
   * holding `name`, or `None` (the source's -1) when there is none.
   */
  function FirstIndex(names: seq<string>, name: string): (r: Option<nat>)
    ensures r.None? <==> name !in names
    ensures r.Some? ==> r.value < |names| && names[r.value] == name && name !in names[..r.value]
  {
    if names == [] then None
    else if names[0] == name then Some(0)
    else
      match FirstIndex(names[1..], name)
      case None => None
      case Some(k) =>
        assert names[1..][..k] == names[1..k + 1];
        Some(k + 1)
  }

  /** Any position that holds `name` with no earlier occurrence is the one `FirstIndex` finds. */
  lemma FirstIndexIsUnique(names: seq<string>, name: string, k: nat)
    requires k < |names| && names[k] == name && name !in names[..k]
    ensures FirstIndex(names, name) == Some(k)
  {
    assert names[k] in names;
  }

  /** Looking a name up after appending one more entry. */
  lemma {:induction false} FirstIndexAppend(names: seq<string>, extra: string, name: string)
    ensures FirstIndex(names + [extra], name) ==
      if name in names then FirstIndex(names, name)
      else if extra == name then Some(|names|)
      else None
  {
    var all := names + [extra];
    if name in names {
      var k := FirstIndex(names, name).value;
      assert all[..k] == names[..k];
      FirstIndexIsUnique(all, name, k);
    } else if extra == name {
      assert all[..|names|] == names;
      FirstIndexIsUnique(all, name, |names|);
    } else {
      assert name !in all;
    }
  }

  function ProductNames(products: seq<Product>): seq<string> {
    seq(|products|, k requires 0 <= k < |products| => products[k].name)
  }

  function CartNames(cart: seq<CartItem>): seq<string> {
    seq(|cart|, k requires 0 <= k < |cart| => cart[k].name)
  }

  /** `products.find(p => p.name === name)`, by position. */
  function ProductIndex(products: seq<Product>, name: string): Option<nat> {
    FirstIndex(ProductNames(products), name)
  }

  /** `cart.find(item => item.name === name)`, by position. */
  function LineIndex(cart: seq<CartItem>, name: string): Option<nat> {
    FirstIndex(CartNames(cart), name)
  }

  /** The cart's intended shape: at most one line per product name. */
  predicate OneLinePerName(cart: seq<CartItem>) {
    forall j, k :: 0 <= j < k < |cart| ==> cart[j].name != cart[k].name
  }
}
