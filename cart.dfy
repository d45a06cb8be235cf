/**
 * The cart: adding a product with its stock checks, the item count shown on
 * the cart badge, and the stock-shortfall lists built when the cart is
 * viewed and when checkout starts.
 */
module Cart {
  import opened Wrappers
  import opened Records

  /** Why `addToCart` refuses. `OnlyInStock` carries the stock it reports. */
  datatype AddError = OutOfStock | OnlyInStock(available: int)

  datatype AddResult = Rejected(error: AddError) | Accepted(cart: seq<CartItem>)

  /** The fresh line `addToCart` pushes for `product`. */
  function NewLine(product: Product): (line: CartItem)
    ensures line.name == product.name && line.price == product.price && line.image == product.image
    ensures line.quantity == 1
  {
    CartItem(product.name, product.price, 1, product.image)
  }

  /**
   * `addToCart(i)`: refused when the product's stock is not positive, or
   * when the cart already has a line for it whose quantity plus one would
   * exceed the stock; otherwise that line gains one, or a line of one is
   * appended when the cart has none for this name.
   */
  function CartAfterAdd(products: seq<Product>, cart: seq<CartItem>, i: nat): (r: AddResult)
    requires i < |products|
    ensures r.Rejected? <==>
      products[i].quantity <= 0 ||
      (LineIndex(cart, products[i].name).Some? &&
       cart[LineIndex(cart, products[i].name).value].quantity >= products[i].quantity)
    ensures r.Rejected? ==> r.error == if products[i].quantity <= 0 then OutOfStock else OnlyInStock(products[i].quantity)
  {
    var product := products[i];
    var stock := product.quantity;
    if stock <= 0 then Rejected(OutOfStock)
    else
      match LineIndex(cart, product.name)
      case Some(k) =>
        if cart[k].quantity + 1 > stock then Rejected(OnlyInStock(stock))
        else Accepted(cart[k := cart[k].(quantity := cart[k].quantity + 1)])
      case None => Accepted(cart + [NewLine(product)])
  }

  /** `updateCartCount`: the sum of the lines' quantities. */
  function CartCount(cart: seq<CartItem>): (n: int)
    ensures (forall k :: 0 <= k < |cart| ==> cart[k].quantity >= 1) ==> n >= |cart|
  {
    if cart == [] then 0
    else CartCount(cart[..|cart| - 1]) + cart[|cart| - 1].quantity
  }

  lemma CartCountAppend(cart: seq<CartItem>, item: CartItem)
    ensures CartCount(cart + [item]) == CartCount(cart) + item.quantity
  {
    assert (cart + [item])[..|cart|] == cart;
  }

  /** Changing one line's quantity changes the count by the difference. */
  lemma {:induction false} CartCountUpdate(cart: seq<CartItem>, k: nat, q: int)
    requires k < |cart|
    ensures CartCount(cart[k := cart[k].(quantity := q)]) == CartCount(cart) - cart[k].quantity + q
  {
    var updated := cart[k := cart[k].(quantity := q)];
    var n := |cart| - 1;
    if k == n {
      assert updated[..n] == cart[..n];
    } else {
      assert updated[..n] == cart[..n][k := cart[k].(quantity := q)];
      CartCountUpdate(cart[..n], k, q);
    }
  }

  /** Every accepted add puts exactly one more item in the cart. */
  lemma AddCountsOneItem(products: seq<Product>, cart: seq<CartItem>, i: nat)
    requires i < |products| && CartAfterAdd(products, cart, i).Accepted?
    ensures CartCount(CartAfterAdd(products, cart, i).cart) == CartCount(cart) + 1
  {
    match LineIndex(cart, products[i].name)
    case Some(k) => CartCountUpdate(cart, k, cart[k].quantity + 1);
    case None => CartCountAppend(cart, NewLine(products[i]));
  }

  /** An accepted add keeps the cart at one line per product name. */
  lemma AddKeepsOneLinePerName(products: seq<Product>, cart: seq<CartItem>, i: nat)
    requires i < |products| && OneLinePerName(cart) && CartAfterAdd(products, cart, i).Accepted?
    ensures OneLinePerName(CartAfterAdd(products, cart, i).cart)
  {
    var name := products[i].name;
    if LineIndex(cart, name).None? {
      var c := cart + [NewLine(products[i])];
      forall j | 0 <= j < |cart| ensures c[j].name != name {
        assert CartNames(cart)[j] == cart[j].name;
      }
    }
  }

  /**
   * After an accepted add, the product's line is the old line holding one
   * more, or, when the cart had no line for it, the one line added: the
   * product's name, price and image with quantity 1. It never holds more
   * than the stock, and every other line is as it was.
   */
  lemma AddStaysWithinStock(products: seq<Product>, cart: seq<CartItem>, i: nat)
    requires i < |products| && CartAfterAdd(products, cart, i).Accepted?
    ensures var c := CartAfterAdd(products, cart, i).cart;
      var name := products[i].name;
      var before := LineIndex(cart, name);
      LineIndex(c, name).Some? &&
      c[LineIndex(c, name).value] ==
        (if before.Some? then cart[before.value].(quantity := cart[before.value].quantity + 1)
         else CartItem(name, products[i].price, 1, products[i].image)) &&
      c[LineIndex(c, name).value].quantity <= products[i].quantity &&
      |c| == (if before.Some? then |cart| else |cart| + 1) &&
      forall k :: 0 <= k < |cart| && cart[k].name != name ==> c[k] == cart[k]
  {
    var name := products[i].name;
    var c := CartAfterAdd(products, cart, i).cart;
    match LineIndex(cart, name)
    case Some(k) =>
      assert CartNames(c) == CartNames(cart);
      assert CartNames(cart)[k] == cart[k].name;
    case None =>
      assert CartNames(c) == CartNames(cart) + [name];
      FirstIndexAppend(CartNames(cart), name, name);
  }

  /** `n` successive clicks on "Add to Cart" for product `i`, stopping at the first refusal. */
  function AddTimes(products: seq<Product>, cart: seq<CartItem>, i: nat, n: nat): AddResult
    requires i < |products|
  {
    if n == 0 then Accepted(cart)
    else
      match AddTimes(products, cart, i, n - 1)
      case Rejected(e) => Rejected(e)
      case Accepted(c) => CartAfterAdd(products, c, i)
  }

  /**
   * One more add when the cart's last line is the product's own (and no
   * earlier line has its name): the line grows by one, unless that would
   * exceed the stock.
   */
  lemma AddToOwnLastLine(products: seq<Product>, cart: seq<CartItem>, i: nat, q: int)
    requires i < |products| && products[i].name !in CartNames(cart) && products[i].quantity > 0
    ensures CartAfterAdd(products, cart + [NewLine(products[i]).(quantity := q)], i) ==
      if q + 1 > products[i].quantity then Rejected(OnlyInStock(products[i].quantity))
      else Accepted(cart + [NewLine(products[i]).(quantity := q + 1)])
  {
    var name := products[i].name;
    var line := NewLine(products[i]).(quantity := q);
    var c := cart + [line];
    assert CartNames(c) == CartNames(cart) + [name];
    FirstIndexAppend(CartNames(cart), name, name);
    assert LineIndex(c, name) == Some(|cart|);
    assert c[|cart| := line.(quantity := q + 1)] == cart + [NewLine(products[i]).(quantity := q + 1)];
  }

  /**
   * Starting from a cart with no line for the product, `n` adds with at
   * least `n` in stock give exactly one new line of quantity `n`.
   */
  lemma {:induction false} RepeatedAdds(products: seq<Product>, cart: seq<CartItem>, i: nat, n: nat)
    requires i < |products| && products[i].name !in CartNames(cart)
    requires 1 <= n <= products[i].quantity
    ensures AddTimes(products, cart, i, n) == Accepted(cart + [NewLine(products[i]).(quantity := n)])
  {
    if n == 1 {
      assert AddTimes(products, cart, i, 0) == Accepted(cart);
      assert LineIndex(cart, products[i].name).None?;
      assert NewLine(products[i]).(quantity := 1) == NewLine(products[i]);
    } else {
      RepeatedAdds(products, cart, i, n - 1);
      AddToOwnLastLine(products, cart, i, n - 1);
    }
  }

  /** With stock `n`, the add after `n` accepted ones is refused with "only n in stock". */
  lemma RepeatedAddsStopAtStock(products: seq<Product>, cart: seq<CartItem>, i: nat, n: nat)
    requires i < |products| && products[i].name !in CartNames(cart)
    requires n >= 1 && products[i].quantity == n
    ensures AddTimes(products, cart, i, n + 1) == Rejected(OnlyInStock(n))
  {
    RepeatedAdds(products, cart, i, n);
    AddToOwnLastLine(products, cart, i, n);
  }

  /**
   * How a product that no longer exists is treated: `checkout` skips the
   * line, the cart view (`openCart`) reads its stock as 0.
   */
  datatype MissingProduct = Skipped | CountedAsZero

  /** One shortfall message: the line's name, the stock available and the quantity in the cart. */
  datatype StockIssue = StockIssue(name: string, available: int, inCart: int)

  /** The stock a line is checked against, if any. */
  function Available(products: seq<Product>, name: string, missing: MissingProduct): (a: Option<int>)
    ensures name in ProductNames(products) ==> a == Some(products[ProductIndex(products, name).value].quantity)
    ensures name !in ProductNames(products) ==> a == if missing == CountedAsZero then Some(0) else None
  {
    match ProductIndex(products, name)
    case Some(j) => Some(products[j].quantity)
    case None => if missing == CountedAsZero then Some(0) else None
  }

  /** A line asks for more than the stock it is checked against. */
  predicate Short(products: seq<Product>, item: CartItem, missing: MissingProduct)
    ensures item.name in ProductNames(products) ==>
      (Short(products, item, missing) <==> products[ProductIndex(products, item.name).value].quantity < item.quantity)
    ensures item.name !in ProductNames(products) ==>
      (Short(products, item, missing) <==> missing == CountedAsZero && item.quantity > 0)
  {
    var a := Available(products, item.name, missing);
    a.Some? && a.value < item.quantity
  }

  /** The shortfall list, one entry per short line, in cart order. */
  function StockIssues(products: seq<Product>, cart: seq<CartItem>, missing: MissingProduct): (issues: seq<StockIssue>)
    ensures |issues| <= |cart|
  {
    if cart == [] then []
    else
      var prev := StockIssues(products, cart[..|cart| - 1], missing);
      var item := cart[|cart| - 1];
      if Short(products, item, missing) then
        prev + [StockIssue(item.name, Available(products, item.name, missing).value, item.quantity)]
      else prev
  }

  /**
   * What the list holds: every entry is the name, the stock checked against
   * and the cart quantity of some short line, and every short line has its
   * entry.
   */
  lemma {:induction false} StockIssuesContents(products: seq<Product>, cart: seq<CartItem>, missing: MissingProduct)
    ensures forall e :: e in StockIssues(products, cart, missing) ==>
      exists k :: 0 <= k < |cart| && Short(products, cart[k], missing) &&
        e == StockIssue(cart[k].name, Available(products, cart[k].name, missing).value, cart[k].quantity)
    ensures forall k :: 0 <= k < |cart| && Short(products, cart[k], missing) ==>
      StockIssue(cart[k].name, Available(products, cart[k].name, missing).value, cart[k].quantity)
        in StockIssues(products, cart, missing)
  {
    if cart != [] {
      var n := |cart| - 1;
      StockIssuesContents(products, cart[..n], missing);
      assert forall k :: 0 <= k < n ==> cart[..n][k] == cart[k];
    }
  }

  /** The list is empty exactly when no line is short. */
  lemma {:induction false} NoIssuesIffNothingShort(products: seq<Product>, cart: seq<CartItem>, missing: MissingProduct)
    ensures StockIssues(products, cart, missing) == [] <==>
      forall k :: 0 <= k < |cart| ==> !Short(products, cart[k], missing)
  {
    if cart != [] {
      var n := |cart| - 1;
      NoIssuesIffNothingShort(products, cart[..n], missing);
      assert forall k :: 0 <= k < n ==> cart[..n][k] == cart[k];
    }
  }

  /**
   * The cart view is at least as strict as checkout: a cart the view finds
   * no issue with passes checkout's check too.
   */
  lemma CheckoutPassesWhenCartViewPasses(products: seq<Product>, cart: seq<CartItem>)
    requires StockIssues(products, cart, CountedAsZero) == []
    ensures StockIssues(products, cart, Skipped) == []
  {
    NoIssuesIffNothingShort(products, cart, CountedAsZero);
    NoIssuesIffNothingShort(products, cart, Skipped);
  }

  /**
   * The two checks differ on a line whose product is gone: the view flags
   * it (stock 0), checkout lets it through.
   */
  lemma MissingProductFlaggedOnlyByCartView(products: seq<Product>, item: CartItem)
    requires item.name !in ProductNames(products) && item.quantity > 0
    ensures Short(products, item, CountedAsZero) && !Short(products, item, Skipped)
  {
  }
}
