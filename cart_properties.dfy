/**
 * What the cart operations promise: the three-way behaviour of a quantity
 * change, the add rules, removal keeping order, and the cart invariant
 * `WellFormed` kept by every operation.
 */
module CartProperties {
  import opened Wrappers
  import opened Cart

  /** True when no two search hits share a product id. */
  predicate UniqueProducts(results: seq<Product>) {
    forall i, j :: 0 <= i < j < |results| ==> results[i].id != results[j].id
  }

  // ---- removeFromCart ------------------------------------------------------

  /** Removing an id no line holds changes nothing. */
  lemma {:induction false} RemoveAbsentIsNoop(cart: seq<CartItem>, id: int)
    requires !HasLine(cart, id)
    ensures AfterRemove(cart, id) == cart
  {
    if cart != [] {
      assert cart[0].product.id != id;
      assert !HasLine(cart[1..], id) by {
        forall i | 0 <= i < |cart[1..]| ensures cart[1..][i].product.id != id {
          assert cart[1..][i] == cart[i + 1];
        }
      }
      RemoveAbsentIsNoop(cart[1..], id);
      assert cart == [cart[0]] + cart[1..];
    }
  }

  /** Removing twice is removing once. */
  lemma RemoveIdempotent(cart: seq<CartItem>, id: int)
    ensures AfterRemove(AfterRemove(cart, id), id) == AfterRemove(cart, id)
  {
    var r := AfterRemove(cart, id);
    assert !HasLine(r, id) by {
      forall i | 0 <= i < |r| ensures r[i].product.id != id {
        assert r[i] in r;
      }
    }
    RemoveAbsentIsNoop(r, id);
  }

  /** Removal works line by line, so it keeps the relative order of what stays. */
  lemma {:induction false} RemoveDistributes(a: seq<CartItem>, b: seq<CartItem>, id: int)
    ensures AfterRemove(a + b, id) == AfterRemove(a, id) + AfterRemove(b, id)
  {
    if a == [] {
      assert a + b == b;
    } else {
      assert (a + b)[0] == a[0];
      assert (a + b)[1..] == a[1..] + b;
      RemoveDistributes(a[1..], b, id);
    }
  }

  /** In a well-formed cart, removing the id of line `k` deletes exactly that line. */
  lemma RemoveDeletesLine(cart: seq<CartItem>, id: int, k: nat)
    requires WellFormed(cart)
    requires k < |cart| && cart[k].product.id == id
    ensures AfterRemove(cart, id) == cart[..k] + cart[k + 1..]
  {
    assert cart == cart[..k] + ([cart[k]] + cart[k + 1..]);
    RemoveDistributes(cart[..k], [cart[k]] + cart[k + 1..], id);
    RemoveDistributes([cart[k]], cart[k + 1..], id);
    assert !HasLine(cart[..k], id) by {
      forall i | 0 <= i < k ensures cart[..k][i].product.id != id {
        assert cart[..k][i] == cart[i];
      }
    }
    var tail := cart[k + 1..];
    assert !HasLine(tail, id) by {
      forall i | 0 <= i < |tail| ensures tail[i].product.id != id {
        assert tail[i] == cart[k + 1 + i];
      }
    }
    RemoveAbsentIsNoop(cart[..k], id);
    RemoveAbsentIsNoop(cart[k + 1..], id);
    assert AfterRemove([cart[k]], id) == [] by {
      assert [cart[k]][1..] == [];
    }
  }

  /** Removal keeps the cart invariant. */
  lemma {:induction false} RemoveKeepsWellFormed(cart: seq<CartItem>, id: int)
    requires WellFormed(cart)
    ensures WellFormed(AfterRemove(cart, id))
  {
    if cart != [] {
      RemoveKeepsWellFormed(cart[1..], id);
      var rest := AfterRemove(cart[1..], id);
      if cart[0].product.id != id {
        forall j | 0 <= j < |rest| ensures rest[j].product.id != cart[0].product.id {
          assert rest[j] in cart[1..];
        }
        assert AfterRemove(cart, id) == [cart[0]] + rest;
      }
    }
  }

  // ---- updateCartQuantity --------------------------------------------------

  /** A change of quantity for an id no line holds changes nothing. */
  lemma UpdateAbsentIsNoop(cart: seq<CartItem>, results: seq<Product>, id: int, q: int)
    requires !HasLine(cart, id)
    ensures AfterUpdate(cart, results, id, q) == cart
  {
    if q <= 0 {
      RemoveAbsentIsNoop(cart, id);
    }
  }

  /** In a well-formed cart, the quantity change touches line `k` and no other. */
  lemma SetQuantityAt(cart: seq<CartItem>, results: seq<Product>, id: int, q: int, k: nat)
    requires WellFormed(cart)
    requires k < |cart| && cart[k].product.id == id
    ensures SetQuantity(cart, results, id, q) == cart[k := Requantify(cart[k], results, id, q)]
  {
  }

  /** `updateCartQuantity(id, q)` on the line at `k`: a quantity of zero or less removes
      it, one above the stock in effect keeps the cart as it was, and otherwise only that
      line changes, to quantity `q` and subtotal price times `q`; order is kept throughout. */
  lemma UpdateCases(cart: seq<CartItem>, results: seq<Product>, id: int, q: int, k: nat)
    requires WellFormed(cart)
    requires k < |cart| && cart[k].product.id == id
    ensures q <= 0 ==> AfterUpdate(cart, results, id, q) == cart[..k] + cart[k + 1..]
    ensures 0 < q && q > StockInEffect(results, cart[k]) ==> AfterUpdate(cart, results, id, q) == cart
    ensures 0 < q <= StockInEffect(results, cart[k]) ==>
      AfterUpdate(cart, results, id, q)
        == cart[k := cart[k].(quantity := q, subtotal := cart[k].product.sellingPrice * q)]
  {
    if q <= 0 {
      RemoveDeletesLine(cart, id, k);
    } else {
      SetQuantityAt(cart, results, id, q, k);
      if q > StockInEffect(results, cart[k]) {
        assert cart[k := cart[k]] == cart;
      }
    }
  }

  /** A quantity change keeps the cart invariant. */
  lemma UpdateKeepsWellFormed(cart: seq<CartItem>, results: seq<Product>, id: int, q: int)
    requires WellFormed(cart)
    ensures WellFormed(AfterUpdate(cart, results, id, q))
  {
    if q <= 0 {
      RemoveKeepsWellFormed(cart, id);
    } else {
      var r := AfterUpdate(cart, results, id, q);
      forall i | 0 <= i < |r|
        ensures r[i].product == cart[i].product
        ensures r[i].quantity >= 1
        ensures r[i].subtotal == r[i].product.sellingPrice * r[i].quantity
      {
        assert r[i] == Requantify(cart[i], results, id, q);
      }
    }
  }

  // ---- addToCart -----------------------------------------------------------

  /** A product with no line yet is appended with quantity 1 and its price as subtotal,
      whatever its stock (there is no stock check for the first unit); earlier lines
      and their order are untouched. */
  lemma AddNewProduct(cart: seq<CartItem>, results: seq<Product>, product: Product)
    requires !HasLine(cart, product.id)
    ensures var r := AfterAdd(cart, results, product);
      && |r| == |cart| + 1
      && r[..|cart|] == cart
      && r[|cart|].product == product
      && r[|cart|].quantity == 1
      && r[|cart|].subtotal == product.sellingPrice
  {
    assert (cart + [NewLine(product)])[..|cart|] == cart;
  }

  /** A product whose line is already at (or above) its stock leaves the cart as it was. */
  lemma AddAtStockIsNoop(cart: seq<CartItem>, results: seq<Product>, product: Product, k: nat)
    requires WellFormed(cart)
    requires k < |cart| && cart[k].product.id == product.id
    requires cart[k].quantity >= product.stock
    ensures AddBlocked(cart, product)
    ensures AfterAdd(cart, results, product) == cart
  {
    assert HasLine(cart, product.id);
  }

  /** For the line at `k`, the add is blocked exactly when that line is at or above the
      product's stock. */
  lemma AddBlockedAt(cart: seq<CartItem>, product: Product, k: nat)
    requires WellFormed(cart)
    requires k < |cart| && cart[k].product.id == product.id
    ensures AddBlocked(cart, product) <==> cart[k].quantity >= product.stock
  {
    assert HasLine(cart, product.id);
  }

  /** The clicked search hit is the stock in effect for its line when the hits have
      unique ids. */
  lemma SearchHitIsStockInEffect(results: seq<Product>, product: Product, item: CartItem)
    requires UniqueProducts(results) && product in results
    requires item.product.id == product.id
    ensures StockInEffect(results, item) == product.stock
  {
    var m :| 0 <= m < |results| && results[m] == product;
    var found := FindProduct(results, product.id);
    assert found.Some?;
    var k :| 0 <= k < |results| && results[k] == found.value && found.value.id == product.id
             && forall j :: 0 <= j < k ==> results[j].id != product.id;
    assert k == m;
  }

  /** Clicking a search hit whose line is below its stock raises that line's quantity by
      exactly one (through the quantity change) and its subtotal by the line's stored
      price; every other line stays as it was. */
  lemma AddIncrements(cart: seq<CartItem>, results: seq<Product>, product: Product, k: nat)
    requires WellFormed(cart)
    requires UniqueProducts(results) && product in results
    requires k < |cart| && cart[k].product.id == product.id
    requires cart[k].quantity < product.stock
    ensures AfterAdd(cart, results, product)
      == AfterUpdate(cart, results, product.id, cart[k].quantity + 1)
    ensures AfterAdd(cart, results, product)
      == cart[k := cart[k].(quantity := cart[k].quantity + 1,
                            subtotal := cart[k].subtotal + cart[k].product.sellingPrice)]
  {
    assert HasLine(cart, product.id);
    var line := FindLine(cart, product.id);
    var i :| 0 <= i < |cart| && cart[i] == line.value && line.value.product.id == product.id
             && forall j :: 0 <= j < i ==> cart[j].product.id != product.id;
    assert i == k;
    SearchHitIsStockInEffect(results, product, cart[k]);
    UpdateCases(cart, results, product.id, cart[k].quantity + 1, k);
    OneMoreUnit(cart[k].product.sellingPrice, cart[k].quantity);
  }

  /** One more unit costs one more price. */
  lemma OneMoreUnit(price: int, q: int)
    ensures price * (q + 1) == price * q + price
  {
  }

  /** Adding keeps the cart invariant. */
  lemma AddKeepsWellFormed(cart: seq<CartItem>, results: seq<Product>, product: Product)
    requires WellFormed(cart)
    ensures WellFormed(AfterAdd(cart, results, product))
  {
    match FindLine(cart, product.id)
    case Some(line) =>
      if line.quantity < product.stock {
        UpdateKeepsWellFormed(cart, results, product.id, line.quantity + 1);
      }
    case None =>
      var r := cart + [NewLine(product)];
      forall i, j | 0 <= i < j < |r| ensures r[i].product.id != r[j].product.id {
        if j == |cart| {
          assert r[i] == cart[i];
        }
      }
  }
}
