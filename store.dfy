/**
 * The page's state: the four collections the script keeps in globals, and
 * the handlers that change them.
 */
module Storefront {
  import opened Wrappers
  import opened Records
  import opened Catalog
  import opened Cart
  import opened Ledger
  import opened Backup

  /** What `checkout` does: refuse an empty cart, list the shortfalls, or open the payment form. */
  datatype CheckoutResult = EmptyCart | Blocked(issues: seq<StockIssue>) | ReadyToPay

  class Store {
    var products: seq<Product>
    var cart: seq<CartItem>
    var orders: seq<Order>
    var messages: seq<Message>

    /** Page load: each collection is what storage held under its key, or empty when nothing was stored. */
    constructor Load(
      storedProducts: Option<seq<Product>>,
      storedCart: Option<seq<CartItem>>,
      storedOrders: Option<seq<Order>>,
      storedMessages: Option<seq<Message>>)
      ensures products == storedProducts.GetOr([]) && cart == storedCart.GetOr([])
      ensures orders == storedOrders.GetOr([]) && messages == storedMessages.GetOr([])
    {
      products := storedProducts.GetOr([]);
      cart := storedCart.GetOr([]);
      orders := storedOrders.GetOr([]);
      messages := storedMessages.GetOr([]);
    }

    /**
     * `updateProductStock`: product `i` takes the entered stock, floored at 0
     * (text that does not parse counts as 0); nothing else changes.
     */
    method UpdateProductStock(i: nat, entered: Option<int>)
      requires i < |products|
      modifies this
      ensures products == old(products)[i := old(products)[i].(quantity := ClampedStock(entered))]
      ensures products[i].quantity >= 0
      ensures cart == old(cart) && orders == old(orders) && messages == old(messages)
    {
      products := products[i := products[i].(quantity := ClampedStock(entered))];
    }

    /**
     * `addToCart(i)`: the cart becomes what `CartAfterAdd` says, or stays as
     * it was with the refusal reported. An accepted add puts exactly one more
     * item in the cart and keeps one line per name.
     */
    method AddToCart(i: nat) returns (error: Option<AddError>)
      requires i < |products|
      modifies this
      ensures match CartAfterAdd(old(products), old(cart), i)
        case Accepted(c) => error.None? && cart == c
        case Rejected(e) => error == Some(e) && cart == old(cart)
      ensures error.None? ==> CartCount(cart) == CartCount(old(cart)) + 1
      ensures OneLinePerName(old(cart)) ==> OneLinePerName(cart)
      ensures products == old(products) && orders == old(orders) && messages == old(messages)
    {
      var product := products[i];
      var stock := product.quantity;
      if stock <= 0 {
        return Some(OutOfStock);
      }
      var existing := LineIndex(cart, product.name);
      if existing.Some? {
        var k := existing.value;
        if cart[k].quantity + 1 > stock {
          return Some(OnlyInStock(stock));
        }
        cart := cart[k := cart[k].(quantity := cart[k].quantity + 1)];
      } else {
        cart := cart + [NewLine(product)];
      }
      AddCountsOneItem(products, old(cart), i);
      if OneLinePerName(old(cart)) {
        AddKeepsOneLinePerName(products, old(cart), i);
      }
      return None;
    }

    /**
     * The loop `openCart` and `checkout` both run over the cart: one issue
     * per line that asks for more than its stock, in cart order.
     */
    method FindStockIssues(missing: MissingProduct) returns (issues: seq<StockIssue>)
      ensures issues == StockIssues(products, cart, missing)
    {
      issues := [];
      var i := 0;
      while i < |cart|
        invariant 0 <= i <= |cart|
        invariant issues == StockIssues(products, cart[..i], missing)
      {
        var item := cart[i];
        var found := ProductIndex(products, item.name);
        var available :=
          if found.Some? then Some(products[found.value].quantity)
          else if missing == CountedAsZero then Some(0)
          else None;
        if available.Some? && available.value < item.quantity {
          issues := issues + [StockIssue(item.name, available.value, item.quantity)];
        }
        assert cart[..i + 1][..i] == cart[..i];
        i := i + 1;
      }
      assert cart[..i] == cart;
    }

    /**
     * `openCart`'s stock warnings: a line is flagged when its stock (0 for a
     * product that is gone) is below its quantity. A cart that shows no
     * warning also passes checkout's check.
     */
    method OpenCart() returns (issues: seq<StockIssue>)
      ensures issues == StockIssues(products, cart, CountedAsZero)
      ensures issues == [] <==> forall k :: 0 <= k < |cart| ==> !Short(products, cart[k], CountedAsZero)
      ensures issues == [] ==> StockIssues(products, cart, Skipped) == []
    {
      issues := FindStockIssues(CountedAsZero);
      NoIssuesIffNothingShort(products, cart, CountedAsZero);
      if issues == [] {
        CheckoutPassesWhenCartViewPasses(products, cart);
      }
    }

    /**
     * `checkout`: an empty cart is refused; otherwise the payment form opens
     * exactly when no line whose product still exists asks for more than its
     * stock, and the shortfalls are listed when some line does.
     */
    method Checkout() returns (r: CheckoutResult)
      ensures r == EmptyCart <==> cart == []
      ensures r == ReadyToPay <==> cart != [] && forall k :: 0 <= k < |cart| ==> !Short(products, cart[k], Skipped)
      ensures r.Blocked? ==> r.issues == StockIssues(products, cart, Skipped) && r.issues != []
    {
      if |cart| == 0 {
        return EmptyCart;
      }
      var issues := FindStockIssues(Skipped);
      NoIssuesIffNothingShort(products, cart, Skipped);
      if |issues| > 0 {
        return Blocked(issues);
      }
      return ReadyToPay;
    }

    /**
     * The order form's submit handler. Each cart line takes its quantity off
     * the first product of the same name, floored at 0; the cart is emptied;
     * one order is appended with status `Processing`. The cart is emptied
     * before the order's product list is copied from it, so that list is
     * always empty.
     */
    method PlaceOrder(customerName: string, customerEmail: string, customerGameID: string, total: real, id: int, date: string)
      modifies this
      ensures products == StockAfterOrder(old(products), old(cart))
      ensures cart == []
      ensures orders == old(orders) + [Order(id, customerName, customerEmail, customerGameID, [], total, Processing, date)]
      ensures messages == old(messages)
    {
      var i := 0;
      while i < |cart|
        invariant 0 <= i <= |cart|
        invariant cart == old(cart) && orders == old(orders) && messages == old(messages)
        invariant products == StockAfterOrder(old(products), cart[..i])
      {
        var item := cart[i];
        var found := ProductIndex(products, item.name);
        if found.Some? {
          var j := found.value;
          var newStock := products[j].quantity - item.quantity;
          products := products[j := products[j].(quantity := Max(0, newStock))];
        }
        assert cart[..i + 1][..i] == cart[..i];
        i := i + 1;
      }
      assert cart[..i] == cart;
      cart := [];
      var order := Order(id, customerName, customerEmail, customerGameID, cart, total, Processing, date);
      orders := orders + [order];
    }

    /** `updateOrderStatus`: order `i` takes the new status, whatever it was; nothing else changes. */
    method UpdateOrderStatus(i: nat, status: OrderStatus)
      requires i < |orders|
      modifies this
      ensures orders == old(orders)[i := old(orders)[i].(status := status)]
      ensures products == old(products) && cart == old(cart) && messages == old(messages)
    {
      orders := orders[i := orders[i].(status := status)];
    }

    /**
     * `addProduct`: with name, image and price filled in, exactly one product
     * is appended; otherwise nothing changes.
     */
    method AddProduct(name: string, image: string, price: string, qty: Option<int>, desc: string) returns (ok: bool)
      modifies this
      ensures ok <==> name != "" && image != "" && price != ""
      ensures ok ==> products == old(products) + [NewProduct(name, image, price, qty, desc).value]
      ensures !ok ==> products == old(products)
      ensures cart == old(cart) && orders == old(orders) && messages == old(messages)
    {
      var entry := NewProduct(name, image, price, qty, desc);
      if entry.None? {
        return false;
      }
      products := products + [entry.value];
      return true;
    }

    /**
     * `deleteProduct(i)`: after confirmation, product `i` is removed and the
     * later ones move up; an index past the end removes nothing.
     */
    method DeleteProduct(i: nat, confirmed: bool)
      modifies this
      ensures products == if confirmed && i < |old(products)| then old(products)[..i] + old(products)[i + 1..] else old(products)
      ensures cart == old(cart) && orders == old(orders) && messages == old(messages)
    {
      if confirmed && i < |products| {
        products := products[..i] + products[i + 1..];
      }
    }

    /**
     * `editProduct(i)`: with name and price given and non-empty, product `i`
     * is replaced (keeping its image) and no other product changes;
     * otherwise nothing changes.
     */
    method EditProduct(i: nat, name: Option<string>, price: Option<string>, qty: Option<int>, desc: Option<string>)
      returns (ok: bool)
      requires i < |products|
      modifies this
      ensures ok <==> name.Some? && name.value != "" && price.Some? && price.value != ""
      ensures ok ==> products == old(products)[i := EditedProduct(old(products)[i], name, price, qty, desc).value]
      ensures !ok ==> products == old(products)
      ensures cart == old(cart) && orders == old(orders) && messages == old(messages)
    {
      var edited := EditedProduct(products[i], name, price, qty, desc);
      if edited.None? {
        return false;
      }
      products := products[i := edited.value];
      return true;
    }

    /**
     * `exportData`'s record: the three collections and the export time. Every
     * key is present, so importing the record replaces all three collections
     * whatever they hold at that time.
     */
    function Export(date: string): (r: Backup)
      reads this
      ensures r.exportDate == Some(date)
      ensures forall current: seq<Product> :: Restored(current, r.products) == products
      ensures forall current: seq<Order> :: Restored(current, r.orders) == orders
      ensures forall current: seq<Message> :: Restored(current, r.messages) == messages
    {
      Backup(Some(products), Some(orders), Some(messages), Some(date))
    }

    /**
     * `importData`: a document that did not parse (`None`) or an import that
     * was not confirmed changes nothing; otherwise each collection present in
     * the document replaces the current one. The cart is never touched.
     */
    method ImportData(doc: Option<Backup>, confirmed: bool)
      modifies this
      ensures doc.None? || !confirmed ==>
        products == old(products) && orders == old(orders) && messages == old(messages)
      ensures doc.Some? && confirmed ==>
        products == Restored(old(products), doc.value.products) &&
        orders == Restored(old(orders), doc.value.orders) &&
        messages == Restored(old(messages), doc.value.messages)
      ensures cart == old(cart)
    {
      if doc.Some? && confirmed {
        var data := doc.value;
        if data.products.Some? { products := data.products.value; }
        if data.orders.Some? { orders := data.orders.value; }
        if data.messages.Some? { messages := data.messages.value; }
      }
    }
  }

  /**
   * Export, then any change to the catalog, ledger or messages, then import
   * of that export: the three collections are back as they were exported,
   * and the cart is the one in use at import time.
   */
  method BackupRoundTrip(store: Store, date: string, i: nat, status: OrderStatus)
    modifies store
    ensures store.products == old(store.products) && store.orders == old(store.orders)
    ensures store.messages == old(store.messages) && store.cart == old(store.cart)
  {
    var backup := store.Export(date);
    store.DeleteProduct(i, true);
    if i < |store.orders| {
      store.UpdateOrderStatus(i, status);
    }
    store.ImportData(Some(backup), true);
  }

  /** The product of the walk-through below: a mango with 3 in stock. */
  function Mango(): Product {
    Product("Mango", "mango.png", "2.50", 3, Some("Sweet"))
  }

  /**
   * Four clicks on "Add to Cart" for the mango, from an empty cart: three
   * are accepted and the fourth is refused with "only 3 in stock".
   */
  method MangoAdds() returns (store: Store, errors: seq<Option<AddError>>)
    ensures fresh(store) && store.products == [Mango()]
    ensures store.cart == [NewLine(Mango()).(quantity := 3)]
    ensures errors == [None, None, None, Some(OnlyInStock(3))]
  {
    var line := NewLine(Mango());
    store := new Store.Load(Some([Mango()]), None, None, None);
    var e1 := store.AddToCart(0);
    assert e1 == None && store.cart == [line];
    AddToOwnLastLine([Mango()], [], 0, 1);
    assert [] + [line.(quantity := 1)] == [line];
    var e2 := store.AddToCart(0);
    assert e2 == None && store.cart == [line.(quantity := 2)];
    AddToOwnLastLine([Mango()], [], 0, 2);
    assert [] + [line.(quantity := 2)] == [line.(quantity := 2)];
    var e3 := store.AddToCart(0);
    assert e3 == None && store.cart == [line.(quantity := 3)];
    AddToOwnLastLine([Mango()], [], 0, 3);
    assert [] + [line.(quantity := 3)] == [line.(quantity := 3)];
    var e4 := store.AddToCart(0);
    errors := [e1, e2, e3, e4];
  }

  /**
   * The mango walk-through: three adds succeed, a fourth is refused with
   * "only 3 in stock", and placing the order leaves stock 0 and an empty cart.
   */
  method MangoScenario() returns (errors: seq<Option<AddError>>, stockLeft: int, cartLeft: seq<CartItem>)
    ensures errors == [None, None, None, Some(OnlyInStock(3))]
    ensures stockLeft == 0 && cartLeft == []
  {
    var store;
    store, errors := MangoAdds();
    var line := NewLine(Mango()).(quantity := 3);
    store.PlaceOrder("Lucifer", "Buyer@Example.com", "g-1", 7.5, 1, "today");
    StockAfterOrderAt([Mango()], [line], 0);
    assert |store.orders| >= 1 && store.orders[|store.orders| - 1].products == [];
    stockLeft, cartLeft := store.products[0].quantity, store.cart;
  }

  /** No transition guard: an order can be completed and then cancelled. */
  method StatusScenario(store: Store)
    requires |store.orders| > 0
    modifies store
    ensures |store.orders| == old(|store.orders|) && store.orders[0].status == Cancelled
  {
    store.UpdateOrderStatus(0, Completed);
    assert store.orders[0].status == Completed;
    store.UpdateOrderStatus(0, Cancelled);
  }
}
