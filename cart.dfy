/**
 * The point-of-sale cart: an ordered list of lines keyed by product id.
 *
 * Each operation of the cart screen is a pure transform of the list here:
 * `AfterAdd`, `AfterUpdate` and `AfterRemove` give the cart the screen holds
 * after `addToCart`, `updateCartQuantity` and `removeFromCart`.
 */
module Cart {
  import opened Wrappers

  /** A product as the search endpoint returns it (prices in whole Rupiah). */
  datatype Product = Product(
    id: int,
    barcode: string,
    name: string,
    category: string,
    sellingPrice: int,
    stock: int,
    isLowStock: bool)

  /** A cart line: the product as it was when added, its quantity and its subtotal. */
  datatype CartItem = CartItem(product: Product, quantity: int, subtotal: int)

  /** The line a product gets when it first enters the cart. */
  function NewLine(product: Product): CartItem {
    CartItem(product, 1, product.sellingPrice)
  }

  /** True when some line of the cart holds product `id`. */
  predicate HasLine(cart: seq<CartItem>, id: int) {
    exists i :: 0 <= i < |cart| && cart[i].product.id == id
  }

  /** The cart invariant: ids are unique, every quantity is at least one and
      every subtotal is the line's price times its quantity. */
  predicate WellFormed(cart: seq<CartItem>) {
    && (forall i, j :: 0 <= i < j < |cart| ==> cart[i].product.id != cart[j].product.id)
    && (forall i :: 0 <= i < |cart| ==> cart[i].quantity >= 1)
    && (forall i :: 0 <= i < |cart| ==> cart[i].subtotal == cart[i].product.sellingPrice * cart[i].quantity)
  }

  /** `cart.find(item => item.id === id)`: the first line holding product `id`. */
  function FindLine(cart: seq<CartItem>, id: int): (r: Option<CartItem>)
    ensures r.None? <==> !HasLine(cart, id)
    ensures r.Some? ==> exists k :: 0 <= k < |cart| && cart[k] == r.value && r.value.product.id == id
                                    && forall j :: 0 <= j < k ==> cart[j].product.id != id
  {
    if cart == [] then None
    else if cart[0].product.id == id then Some(cart[0])
    else
      var r := FindLine(cart[1..], id);
      assert HasLine(cart[1..], id) ==> HasLine(cart, id);
      assert r.Some? ==> exists k :: 0 < k < |cart| && cart[k] == r.value && forall j :: 0 <= j < k ==> cart[j].product.id != id;
      r
  }

  /** `searchResults.find(p => p.id === id)`: the first search hit for product `id`. */
  function FindProduct(results: seq<Product>, id: int): (r: Option<Product>)
    ensures r.None? <==> forall i :: 0 <= i < |results| ==> results[i].id != id
    ensures r.Some? ==> exists k :: 0 <= k < |results| && results[k] == r.value && r.value.id == id
                                    && forall j :: 0 <= j < k ==> results[j].id != id
  {
    if results == [] then None
    else if results[0].id == id then Some(results[0])
    else
      var r := FindProduct(results[1..], id);
      assert r.Some? ==> exists k :: 0 < k < |results| && results[k] == r.value && forall j :: 0 <= j < k ==> results[j].id != id;
      r
  }

  /** The stock a quantity change is checked against: the current search hit's,
      falling back to the snapshot the line took when it was added. */
  function StockInEffect(results: seq<Product>, item: CartItem): int {
    match FindProduct(results, item.product.id)
    case Some(p) => p.stock
    case None => item.product.stock
  }

  /** What `updateCartQuantity` does to one line, for a positive `q`. */
  function Requantify(item: CartItem, results: seq<Product>, id: int, q: int): CartItem {
    if item.product.id != id || q > StockInEffect(results, item) then item
    else item.(quantity := q, subtotal := item.product.sellingPrice * q)
  }

  /** The `cart.map(...)` of `updateCartQuantity`. */
  function SetQuantity(cart: seq<CartItem>, results: seq<Product>, id: int, q: int): seq<CartItem> {
    seq(|cart|, i requires 0 <= i < |cart| => Requantify(cart[i], results, id, q))
  }

  /** `cart.filter(item => item.id !== id)`. */
  function AfterRemove(cart: seq<CartItem>, id: int): (r: seq<CartItem>)
    ensures |r| <= |cart|
    ensures forall x :: x in r <==> x in cart && x.product.id != id
  {
    if cart == [] then []
    else if cart[0].product.id == id then AfterRemove(cart[1..], id)
    else
      assert forall x :: x in cart <==> x == cart[0] || x in cart[1..];
      [cart[0]] + AfterRemove(cart[1..], id)
  }

  /** The cart after `updateCartQuantity(id, q)`. */
  function AfterUpdate(cart: seq<CartItem>, results: seq<Product>, id: int, q: int): seq<CartItem> {
    if q <= 0 then AfterRemove(cart, id) else SetQuantity(cart, results, id, q)
  }

  /** True when `addToCart(product)` stops at the stock check without touching anything. */
  predicate AddBlocked(cart: seq<CartItem>, product: Product) {
    var line := FindLine(cart, product.id);
    line.Some? && line.value.quantity >= product.stock
  }

  /** The cart after `addToCart(product)`. */
  function AfterAdd(cart: seq<CartItem>, results: seq<Product>, product: Product): seq<CartItem> {
    match FindLine(cart, product.id)
    case Some(line) =>
      if line.quantity >= product.stock then cart
      else AfterUpdate(cart, results, product.id, line.quantity + 1)
    case None => cart + [NewLine(product)]
  }
}
