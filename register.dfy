/**
 * The cashier screen's state and its handlers. Each field is one piece of the
 * page's component state; each method is one handler and reassigns the fields
 * the handler sets, in the same order, reading the values of the same render.
 */
module Register {
  import opened Wrappers
  import opened Cart
  import opened CartProperties
  import opened Totals
  import opened Checkout

  /** Whether a search query is empty once surrounding blanks are trimmed. */
  predicate IsBlank(query: string) {
    forall i :: 0 <= i < |query| ==> query[i] in {' ', '\t', '\n', '\r'}
  }

  class PosScreen {
    var searchQuery: string
    var cart: seq<CartItem>
    var searchResults: seq<Product>
    var payment: PaymentMethod
    /** The amount-paid field; `None` while it is empty. */
    var amountPaid: Option<int>
    /** The discount field; `None` while it is empty. */
    var discount: Option<int>

    /** The screen invariant: the cart is well formed. */
    ghost predicate Valid()
      reads this
    {
      WellFormed(cart)
    }

    /** The screen as it first renders: empty search, empty cart, cash, empty fields. */
    constructor ()
      ensures Valid()
      ensures searchQuery == "" && cart == [] && searchResults == []
      ensures payment == Cash && amountPaid == None && discount == None
    {
      searchQuery := "";
      cart := [];
      searchResults := [];
      payment := Cash;
      amountPaid := None;
      discount := None;
    }

    /** Typing in the search box: the query is kept, and the hits become `found` (the
        search endpoint's reply) unless the query is blank, which clears them. */
    method ChangeSearch(query: string, found: seq<Product>)
      requires Valid()
      modifies this
      ensures Valid()
      ensures searchQuery == query
      ensures searchResults == if IsBlank(query) then [] else found
      ensures cart == old(cart) && payment == old(payment)
      ensures amountPaid == old(amountPaid) && discount == old(discount)
    {
      searchQuery := query;
      if IsBlank(query) {
        searchResults := [];
      } else {
        searchResults := found;
      }
    }

    /** Submitting the search form (a barcode scan): a single hit goes into the cart
        and the search is cleared; otherwise nothing happens. */
    method SubmitSearch()
      requires Valid()
      modifies this
      ensures Valid()
      ensures |old(searchResults)| == 1 ==>
        && cart == AfterAdd(old(cart), old(searchResults), old(searchResults)[0])
        && searchQuery == "" && searchResults == []
      ensures |old(searchResults)| != 1 ==>
        cart == old(cart) && searchQuery == old(searchQuery) && searchResults == old(searchResults)
      ensures payment == old(payment) && amountPaid == old(amountPaid) && discount == old(discount)
    {
      if |searchResults| == 1 {
        AddToCart(searchResults[0]);
        searchQuery := "";
        searchResults := [];
      }
    }

    /** `addToCart`: a blocked add (the line is at stock) changes nothing at all, not even
        the search; otherwise the cart becomes `AfterAdd` and the search is cleared. */
    method AddToCart(product: Product)
      requires Valid()
      modifies this
      ensures Valid()
      ensures cart == AfterAdd(old(cart), old(searchResults), product)
      ensures AddBlocked(old(cart), product) ==>
        searchQuery == old(searchQuery) && searchResults == old(searchResults)
      ensures !AddBlocked(old(cart), product) ==> searchQuery == "" && searchResults == []
      ensures payment == old(payment) && amountPaid == old(amountPaid) && discount == old(discount)
    {
      AddKeepsWellFormed(cart, searchResults, product);
      var existing := FindLine(cart, product.id);
      if existing.Some? {
        if existing.value.quantity >= product.stock {
          return;
        }
        UpdateCartQuantity(product.id, existing.value.quantity + 1);
      } else {
        cart := cart + [NewLine(product)];
      }
      searchQuery := "";
      searchResults := [];
    }

    /** `updateCartQuantity`: the cart becomes `AfterUpdate`; nothing else changes. */
    method UpdateCartQuantity(id: int, newQuantity: int)
      requires Valid()
      modifies this
      ensures Valid()
      ensures cart == AfterUpdate(old(cart), searchResults, id, newQuantity)
      ensures searchQuery == old(searchQuery) && searchResults == old(searchResults)
      ensures payment == old(payment) && amountPaid == old(amountPaid) && discount == old(discount)
    {
      UpdateKeepsWellFormed(cart, searchResults, id, newQuantity);
      if newQuantity <= 0 {
        RemoveFromCart(id);
        return;
      }
      cart := SetQuantity(cart, searchResults, id, newQuantity);
    }

    /** `removeFromCart`: the cart becomes `AfterRemove`; nothing else changes. */
    method RemoveFromCart(id: int)
      requires Valid()
      modifies this
      ensures Valid()
      ensures cart == AfterRemove(old(cart), id)
      ensures searchQuery == old(searchQuery) && searchResults == old(searchResults)
      ensures payment == old(payment) && amountPaid == old(amountPaid) && discount == old(discount)
    {
      RemoveKeepsWellFormed(cart, id);
      cart := AfterRemove(cart, id);
    }

    /** `clearCart`: empties the cart and both payment fields. */
    method ClearCart()
      requires Valid()
      modifies this
      ensures Valid()
      ensures cart == [] && amountPaid == None && discount == None
      ensures searchQuery == old(searchQuery) && searchResults == old(searchResults)
      ensures payment == old(payment)
    {
      cart := [];
      amountPaid := None;
      discount := None;
    }

    /** The exact-amount button: the amount paid becomes the current total. */
    method PayExact()
      requires Valid()
      modifies this
      ensures Valid()
      ensures amountPaid == Some(Total(Subtotal(cart), discount))
      ensures cart == old(cart) && discount == old(discount) && payment == old(payment)
      ensures searchQuery == old(searchQuery) && searchResults == old(searchResults)
    {
      amountPaid := Some(Total(Subtotal(cart), discount));
    }

    /** `processTransaction`: the guard and request are `Submission`; `accepted` is the
        server's reply. An accepted sale clears the cart; a refusal or a rejected sale
        leaves every field as it was. */
    method ProcessTransaction(accepted: bool) returns (outcome: Result<SaleRequest, Refusal>)
      requires Valid()
      modifies this
      ensures Valid()
      ensures outcome == Submission(old(cart), old(payment), old(amountPaid), old(discount))
      ensures outcome.Success? && accepted ==> cart == [] && amountPaid == None && discount == None
      ensures !(outcome.Success? && accepted) ==>
        cart == old(cart) && amountPaid == old(amountPaid) && discount == old(discount)
      ensures searchQuery == old(searchQuery) && searchResults == old(searchResults)
      ensures payment == old(payment)
    {
      outcome := Submission(cart, payment, amountPaid, discount);
      if outcome.Success? && accepted {
        ClearCart();
      }
    }
  }

  /** A sale at the counter: product P (stock 5, price 10000) is scanned, its quantity is
      raised to 3, a raise to 6 is refused for stock, the exact amount is paid and the
      sale goes through: one request line of 3 units, no change, and an empty cart. */
  method CounterScenario()
  {
    var p := Product(7, "8991", "Teh", "Minuman", 10000, 5, false);
    var one, three := CartItem(p, 1, 10000), CartItem(p, 3, 30000);
    var screen := new PosScreen();
    assert !IsBlank("8991") by {
      assert "8991"[0] == '8';
    }
    screen.ChangeSearch("8991", [p]);
    assert FindLine([], 7) == None;
    screen.SubmitSearch();
    assert screen.cart == [one];
    assert StockInEffect([p], one) == 5 by {
      assert FindProduct([p], 7) == Some(p);
    }
    screen.ChangeSearch("8991", [p]);
    UpdateCases([one], [p], 7, 3, 0);
    screen.UpdateCartQuantity(7, 3);
    assert screen.cart == [three];
    UpdateCases([three], [p], 7, 6, 0);
    screen.UpdateCartQuantity(7, 6);
    assert screen.cart == [three];
    assert Subtotal([three]) == 30000 by {
      assert [three][..0] == [];
    }
    screen.PayExact();
    assert screen.amountPaid == Some(30000);
    var outcome := screen.ProcessTransaction(true);
    assert Requests([three]) == [LineRequest(7, 3)];
    assert outcome == Success(SaleRequest([LineRequest(7, 3)], Cash, Some(30000), 0));
    assert screen.cart == [];
  }
}
