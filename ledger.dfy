/**
 * The order ledger: the stock taken out when the order form is submitted,
 * the local lookup of orders by e-mail, and the choice between the remote
 * lookup's answer and the local one.
 */
module Ledger {
  import opened Wrappers
  import opened Records
  import opened Cart

  /**
   * One pass of the submit handler's loop: the first product named like
   * the line loses the line's quantity, floored at 0; a line whose product
   * is gone changes nothing.
   */
  function Depleted(products: seq<Product>, item: CartItem): (r: seq<Product>)
    ensures |r| == |products|
    ensures forall k :: 0 <= k < |products| ==> r[k] == products[k].(quantity := r[k].quantity)
    ensures item.name !in ProductNames(products) ==> r == products
  {
    match ProductIndex(products, item.name)
    case None => products
    case Some(j) => products[j := products[j].(quantity := Max(0, products[j].quantity - item.quantity))]
  }

  /** The catalog after the submit handler has run its loop over `cart`, in cart order. */
  function StockAfterOrder(products: seq<Product>, cart: seq<CartItem>): (r: seq<Product>)
    ensures |r| == |products|
  {
    if cart == [] then products
    else Depleted(StockAfterOrder(products, cart[..|cart| - 1]), cart[|cart| - 1])
  }

  /** Placing an order changes quantities only: same products, same order, same other fields. */
  lemma {:induction false} StockAfterOrderKeepsCatalog(products: seq<Product>, cart: seq<CartItem>)
    ensures var after := StockAfterOrder(products, cart);
      |after| == |products| &&
      forall k :: 0 <= k < |products| ==> after[k] == products[k].(quantity := after[k].quantity)
  {
    if cart != [] {
      StockAfterOrderKeepsCatalog(products, cart[..|cart| - 1]);
    }
  }

  lemma NamesAfterOrder(products: seq<Product>, cart: seq<CartItem>)
    ensures ProductNames(StockAfterOrder(products, cart)) == ProductNames(products)
  {
    StockAfterOrderKeepsCatalog(products, cart);
  }

  /** Looking a name up in the cart after appending one more line. */
  lemma LineIndexAppend(cart: seq<CartItem>, item: CartItem, name: string)
    ensures LineIndex(cart + [item], name) ==
      if name in CartNames(cart) then LineIndex(cart, name)
      else if item.name == name then Some(|cart|)
      else None
  {
    assert CartNames(cart + [item]) == CartNames(cart) + [item.name];
    FirstIndexAppend(CartNames(cart), item.name, name);
  }

  /** One pass of the loop touches product `k` only when `k` is the first product named like the line. */
  lemma DepletedAt(products: seq<Product>, item: CartItem, k: nat)
    requires k < |products|
    ensures var after := Depleted(products, item);
      |after| == |products| &&
      if item.name == products[k].name && ProductIndex(products, item.name) == Some(k) then
        after[k] == products[k].(quantity := Max(0, products[k].quantity - item.quantity))
      else
        after[k] == products[k]
  {
    match ProductIndex(products, item.name)
    case None =>
    case Some(m) => assert ProductNames(products)[m] == item.name;
  }

  /**
   * The effect of an order on product `k`, for a cart with one line per
   * name: when `k` is the first product of its name and the cart has a line
   * for that name, its stock becomes `max(0, stock - quantity)`; every other
   * product is left exactly as it was.
   */
  lemma {:induction false} StockAfterOrderAt(products: seq<Product>, cart: seq<CartItem>, k: nat)
    requires OneLinePerName(cart) && k < |products|
    ensures var after := StockAfterOrder(products, cart);
      var name := products[k].name;
      |after| == |products| &&
      if ProductIndex(products, name) == Some(k) && LineIndex(cart, name).Some? then
        after[k] == products[k].(quantity := Max(0, products[k].quantity - cart[LineIndex(cart, name).value].quantity))
      else
        after[k] == products[k]
  {
    StockAfterOrderKeepsCatalog(products, cart);
    if cart != [] {
      var n := |cart| - 1;
      var front, x := cart[..n], cart[n];
      assert cart == front + [x];
      var name := products[k].name;
      var mid := StockAfterOrder(products, front);
      assert OneLinePerName(front);
      StockAfterOrderAt(products, front, k);
      NamesAfterOrder(products, front);
      assert ProductIndex(mid, x.name) == ProductIndex(products, x.name);
      assert mid[k].name == name;
      DepletedAt(mid, x, k);
      LineIndexAppend(front, x, name);
      if name in CartNames(front) {
        var j := LineIndex(front, name).value;
        assert front[j] == cart[j];
        assert x.name != name;
      }
    }
  }

  /**
   * When checkout's stock check passed, nothing needs clamping: the first
   * product of each ordered name loses exactly the ordered quantity.
   */
  lemma OrderWithinStockIsExact(products: seq<Product>, cart: seq<CartItem>, k: nat, j: nat)
    requires OneLinePerName(cart) && StockIssues(products, cart, Skipped) == []
    requires k < |products| && ProductIndex(products, products[k].name) == Some(k)
    requires j < |cart| && cart[j].name == products[k].name
    ensures |StockAfterOrder(products, cart)| == |products|
    ensures StockAfterOrder(products, cart)[k].quantity == products[k].quantity - cart[j].quantity
  {
    var name := products[k].name;
    assert CartNames(cart)[j] == name;
    var l := LineIndex(cart, name).value;
    assert CartNames(cart)[l] == name;
    assert l == j;
    NoIssuesIffNothingShort(products, cart, Skipped);
    assert !Short(products, cart[j], Skipped);
    StockAfterOrderAt(products, cart, k);
  }

  /** ASCII case folding of one character. */
  function LowerChar(c: char): char {
    if 'A' <= c <= 'Z' then (c as int + 32) as char else c
  }

  function UpperChar(c: char): char {
    if 'a' <= c <= 'z' then (c as int - 32) as char else c
  }

  /** `toLowerCase`, on ASCII letters: no upper-case letter is left and the length is kept. */
  function Lower(s: string): (r: string)
    ensures |r| == |s|
    ensures forall k :: 0 <= k < |r| ==> !('A' <= r[k] <= 'Z')
  {
    if s == [] then [] else [LowerChar(s[0])] + Lower(s[1..])
  }

  function Upper(s: string): string {
    if s == [] then [] else [UpperChar(s[0])] + Upper(s[1..])
  }

  /** Upper-casing first does not change the lower-cased text. */
  lemma {:induction false} LowerOfUpper(s: string)
    ensures Lower(Upper(s)) == Lower(s)
  {
    if s != [] {
      LowerOfUpper(s[1..]);
      assert Upper(s)[1..] == Upper(s[1..]);
    }
  }

  /** `fallbackOrderTracking`: the orders whose e-mail equals `email` ignoring case, in ledger order. */
  function FindByEmail(orders: seq<Order>, email: string): (r: seq<Order>)
    ensures |r| <= |orders|
    ensures forall o :: o in r ==> o in orders && Lower(o.customerEmail) == Lower(email)
  {
    if orders == [] then []
    else
      var rest := FindByEmail(orders[..|orders| - 1], email);
      var o := orders[|orders| - 1];
      if Lower(o.customerEmail) == Lower(email) then rest + [o] else rest
  }

  /** Every order whose e-mail matches is found. */
  lemma {:induction false} FindByEmailFindsAll(orders: seq<Order>, email: string, k: nat)
    requires k < |orders| && Lower(orders[k].customerEmail) == Lower(email)
    ensures orders[k] in FindByEmail(orders, email)
  {
    var n := |orders| - 1;
    if k < n {
      FindByEmailFindsAll(orders[..n], email, k);
    }
  }

  /** The lookup distributes over concatenation, so it keeps the ledger's order. */
  lemma {:induction false} FindByEmailConcat(a: seq<Order>, b: seq<Order>, email: string)
    ensures FindByEmail(a + b, email) == FindByEmail(a, email) + FindByEmail(b, email)
  {
    if b == [] {
      assert a + b == a;
    } else {
      var n := |b| - 1;
      assert (a + b)[..|a + b| - 1] == a + b[..n];
      FindByEmailConcat(a, b[..n], email);
    }
  }

  /** The order just appended by the submit handler is the last one found for its e-mail. */
  lemma PlacedOrderIsFound(orders: seq<Order>, o: Order, email: string)
    requires Lower(o.customerEmail) == Lower(email)
    ensures FindByEmail(orders + [o], email) == FindByEmail(orders, email) + [o]
  {
    assert (orders + [o])[..|orders|] == orders;
  }

  /** Two queries equal ignoring case find the same orders; so does the upper-cased query. */
  lemma FindByEmailIgnoresCase(orders: seq<Order>, email: string, other: string)
    requires Lower(email) == Lower(other)
    ensures FindByEmail(orders, email) == FindByEmail(orders, other)
    ensures FindByEmail(orders, Upper(email)) == FindByEmail(orders, email)
  {
    FindByEmailSameKey(orders, email, other);
    LowerOfUpper(email);
    FindByEmailSameKey(orders, Upper(email), email);
  }

  lemma {:induction false} FindByEmailSameKey(orders: seq<Order>, email: string, other: string)
    requires Lower(email) == Lower(other)
    ensures FindByEmail(orders, email) == FindByEmail(orders, other)
  {
    if orders != [] {
      FindByEmailSameKey(orders[..|orders| - 1], email, other);
    }
  }

  /**
   * What the remote lookup came back with: the request or the JSON reading
   * threw, the response was not ok, or an ok body whose `orders` field may
   * be missing.
   */
  datatype FetchOutcome = Threw | NotOk | OkBody(orders: Option<seq<Order>>)

  /** What `trackOrder` shows. */
  datatype TrackResult = NoEmail | FromRemote(orders: seq<Order>) | FromLocal(orders: seq<Order>)

  /**
   * `trackOrder`: an empty e-mail is refused; the remote list is shown only
   * when the response was ok and the list is present and non-empty; in
   * every other case the local lookup is shown.
   */
  function TrackOrder(email: string, fetched: FetchOutcome, orders: seq<Order>): (r: TrackResult)
    ensures r.NoEmail? <==> email == ""
    ensures r.FromRemote? <==> email != "" && fetched.OkBody? && fetched.orders.Some? && fetched.orders.value != []
    ensures r.FromRemote? ==> r.orders == fetched.orders.value
    ensures r.FromLocal? ==> r.orders == FindByEmail(orders, email)
  {
    if email == "" then NoEmail
    else
      match fetched
      case OkBody(Some(remote)) =>
        if |remote| > 0 then FromRemote(remote) else FromLocal(FindByEmail(orders, email))
      case _ => FromLocal(FindByEmail(orders, email))
  }
}
