/**
 * The pay button: the guard that refuses an empty cart or a short payment,
 * and the sale request it posts otherwise.
 */
module Checkout {
  import opened Wrappers
  import opened Cart
  import opened Totals

  /** The three choices of the payment-method select. */
  datatype PaymentMethod = Cash | Card | Other

  /** Why the pay button sends nothing. */
  datatype Refusal = EmptyCart | InsufficientPayment

  /** One `{product_id, quantity}` entry of the request. */
  datatype LineRequest = LineRequest(productId: int, quantity: int)

  /** The JSON body posted to the sale endpoint; `amountPaid` is `None` when the
      amount field is empty, which `JSON.stringify` sends as `null`. */
  datatype SaleRequest = SaleRequest(
    items: seq<LineRequest>,
    paymentMethod: PaymentMethod,
    amountPaid: Option<int>,
    discount: int)

  /** `cart.map(item => ({product_id: item.id, quantity: item.quantity}))`. */
  function Requests(cart: seq<CartItem>): seq<LineRequest> {
    seq(|cart|, i requires 0 <= i < |cart| => LineRequest(cart[i].product.id, cart[i].quantity))
  }

  /** What `processTransaction` does before any network traffic: refuse an empty cart,
      refuse an amount below the total, otherwise build the request. An empty amount
      compares as NaN and so is not refused. */
  function Submission(cart: seq<CartItem>, payment: PaymentMethod, amountPaid: Option<int>,
                      discount: Option<int>): Result<SaleRequest, Refusal>
  {
    if cart == [] then Failure(EmptyCart)
    else if amountPaid.Some? && amountPaid.value < Total(Subtotal(cart), discount) then
      Failure(InsufficientPayment)
    else Success(SaleRequest(Requests(cart), payment, amountPaid, discount.GetOr(0)))
  }

  /** A request that is sent describes the cart line for line, in cart order, with
      distinct products and positive quantities, carries the entered payment fields
      unchanged, and a given amount covers the total (the change is not negative). */
  lemma SentRequestMatchesCart(cart: seq<CartItem>, payment: PaymentMethod,
                               amountPaid: Option<int>, discount: Option<int>)
    requires WellFormed(cart)
    requires Submission(cart, payment, amountPaid, discount).Success?
    ensures var req := Submission(cart, payment, amountPaid, discount).value;
      && |req.items| == |cart| > 0
      && (forall i :: 0 <= i < |cart| ==>
            req.items[i].productId == cart[i].product.id && req.items[i].quantity == cart[i].quantity)
      && (forall i, j :: 0 <= i < j < |req.items| ==> req.items[i].productId != req.items[j].productId)
      && (forall i :: 0 <= i < |req.items| ==> req.items[i].quantity >= 1)
      && req.paymentMethod == payment
      && req.amountPaid == amountPaid
      && req.discount == discount.GetOr(0)
      && (amountPaid.Some? ==> Change(amountPaid, Total(Subtotal(cart), discount)).value >= 0)
  {
  }

  /** The guard refuses exactly an empty cart, and then a given amount below the total. */
  lemma SubmissionRefusals(cart: seq<CartItem>, payment: PaymentMethod,
                           amountPaid: Option<int>, discount: Option<int>)
    ensures Submission(cart, payment, amountPaid, discount) == Failure(EmptyCart) <==> cart == []
    ensures Submission(cart, payment, amountPaid, discount) == Failure(InsufficientPayment)
      <==> cart != [] && Change(amountPaid, Total(Subtotal(cart), discount)).GetOr(0) < 0
  {
  }

  /** An empty amount does not stop the request: it is sent with `amount_paid` null. */
  lemma EmptyAmountIsSent(cart: seq<CartItem>, payment: PaymentMethod, discount: Option<int>)
    requires cart != []
    ensures Submission(cart, payment, None, discount).Success?
    ensures Submission(cart, payment, None, discount).value.amountPaid.None?
  {
  }

  /** Paying exactly the total always gets past the guard of a non-empty cart, with no change. */
  lemma ExactAmountIsSent(cart: seq<CartItem>, payment: PaymentMethod, discount: Option<int>)
    requires cart != []
    ensures var total := Total(Subtotal(cart), discount);
      && Submission(cart, payment, Some(total), discount).Success?
      && Change(Some(total), total) == Some(0)
  {
  }
}
