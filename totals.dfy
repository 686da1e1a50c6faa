/**
 * The derived amounts the cart screen shows and submits: subtotal, total and
 * change, in whole Rupiah. An empty or unparsable text input is `None`.
 */
module Totals {
  import opened Wrappers
  import opened Cart
  import opened CartProperties

  /** The bill: the line subtotals summed left to right, as `reduce` from 0 does. */
  function Subtotal(cart: seq<CartItem>): int {
    if cart == [] then 0 else Subtotal(cart[..|cart| - 1]) + cart[|cart| - 1].subtotal
  }

  /** An independent reading of the bill: price times quantity over the lines, front first. */
  function Billed(cart: seq<CartItem>): int {
    if cart == [] then 0 else cart[0].product.sellingPrice * cart[0].quantity + Billed(cart[1..])
  }

  /** The total: the subtotal less the discount, where a missing discount counts as 0. */
  function Total(subtotal: int, discount: Option<int>): (r: int)
    ensures discount.None? ==> r == subtotal
    ensures discount.Some? ==> r + discount.value == subtotal
  {
    subtotal - discount.GetOr(0)
  }

  /** The change: amount paid less the total; there is none (NaN) when no amount is entered. */
  function Change(amountPaid: Option<int>, total: int): (r: Option<int>)
    ensures r.Some? <==> amountPaid.Some?
    ensures r.Some? ==> amountPaid.value == total + r.value
  {
    match amountPaid
    case Some(paid) => Some(paid - total)
    case None => None
  }

  /** The bill of two carts put together is the sum of their bills. */
  lemma {:induction false} SubtotalConcat(a: seq<CartItem>, b: seq<CartItem>)
    ensures Subtotal(a + b) == Subtotal(a) + Subtotal(b)
  {
    if b == [] {
      assert a + b == a;
    } else {
      var last := |b| - 1;
      assert (a + b)[..|a + b| - 1] == a + b[..last];
      SubtotalConcat(a, b[..last]);
    }
  }

  /** In a well-formed cart the summed subtotals are the summed price times quantity. */
  lemma {:induction false} SubtotalIsBilled(cart: seq<CartItem>)
    requires WellFormed(cart)
    ensures Subtotal(cart) == Billed(cart)
  {
    if cart != [] {
      assert cart == [cart[0]] + cart[1..];
      SubtotalConcat([cart[0]], cart[1..]);
      assert Subtotal([cart[0]]) == cart[0].subtotal by {
        assert [cart[0]][..0] == [];
      }
      SubtotalIsBilled(cart[1..]);
    }
  }

  /** Replacing line `k` changes the bill by the difference of the two subtotals. */
  lemma SubtotalReplace(cart: seq<CartItem>, k: nat, x: CartItem)
    requires k < |cart|
    ensures Subtotal(cart[k := x]) == Subtotal(cart) - cart[k].subtotal + x.subtotal
  {
    var front, back := cart[..k], cart[k + 1..];
    assert cart == front + [cart[k]] + back;
    assert cart[k := x] == front + [x] + back;
    SubtotalConcat(front + [cart[k]], back);
    SubtotalConcat(front, [cart[k]]);
    SubtotalConcat(front + [x], back);
    SubtotalConcat(front, [x]);
    assert [x][..0] == [] && [cart[k]][..0] == [];
  }

  /** Removing line `k` takes its subtotal off the bill. */
  lemma SubtotalAfterRemove(cart: seq<CartItem>, id: int, k: nat)
    requires WellFormed(cart)
    requires k < |cart| && cart[k].product.id == id
    ensures Subtotal(AfterRemove(cart, id)) == Subtotal(cart) - cart[k].subtotal
  {
    RemoveDeletesLine(cart, id, k);
    var front, back := cart[..k], cart[k + 1..];
    assert cart == front + [cart[k]] + back;
    SubtotalConcat(front + [cart[k]], back);
    SubtotalConcat(front, [cart[k]]);
    SubtotalConcat(front, back);
    assert [cart[k]][..0] == [];
  }

  /** The price an add puts on the bill: the line's stored price when the product already
      has a line (later units keep the price of the first add), the clicked product's
      price when it is new to the cart. */
  function AddedPrice(cart: seq<CartItem>, product: Product): int {
    match FindLine(cart, product.id)
    case Some(line) => line.product.sellingPrice
    case None => product.sellingPrice
  }

  /** Every click on a search hit that gets past the stock check puts exactly one price on
      the bill: a new line costs the clicked product's price, one more unit on an existing
      line costs that line's stored price. */
  lemma AddChargesOnePrice(cart: seq<CartItem>, results: seq<Product>, product: Product)
    requires WellFormed(cart)
    requires UniqueProducts(results) && product in results
    requires !AddBlocked(cart, product)
    ensures Subtotal(AfterAdd(cart, results, product)) == Subtotal(cart) + AddedPrice(cart, product)
  {
    if HasLine(cart, product.id) {
      var k :| 0 <= k < |cart| && cart[k].product.id == product.id;
      AddBlockedAt(cart, product, k);
      AddIncrements(cart, results, product, k);
      var line := FindLine(cart, product.id);
      var i :| 0 <= i < |cart| && cart[i] == line.value && line.value.product.id == product.id
               && forall j :: 0 <= j < i ==> cart[j].product.id != product.id;
      assert i == k;
      SubtotalReplace(cart, k, cart[k].(quantity := cart[k].quantity + 1,
                                         subtotal := cart[k].subtotal + cart[k].product.sellingPrice));
    } else {
      SubtotalConcat(cart, [NewLine(product)]);
      assert [NewLine(product)][..0] == [];
    }
  }

  /** In a well-formed cart the total is the summed price times quantity less the
      discount, a missing discount counting as 0. */
  lemma TotalIsBilledLessDiscount(cart: seq<CartItem>, discount: Option<int>)
    requires WellFormed(cart)
    ensures Total(Subtotal(cart), discount) == Billed(cart) - discount.GetOr(0)
  {
    SubtotalIsBilled(cart);
  }
}
