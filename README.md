# Minimarket POS cart, modelled in Dafny

This project models the cashier screen of the minimarket point-of-sale web
application: the client-side cart a cashier builds by scanning or searching
products, the totals it shows, and the check it makes before posting a sale.

The cart is an ordered list of lines keyed by product id. Each line holds a
snapshot of the product (price and stock as the search returned them), a
quantity and a subtotal. Amounts are whole Rupiah and are modelled as
integers.

- `wrappers.dfy`: `Option` and `Result`.
- `cart.dfy` (module `Cart`): the products, the cart lines and the list transforms of the handlers.
  - `FindLine` and `FindProduct` model the two `find` calls.
  - `SetQuantity` models the `map` and `AfterRemove` the `filter`.
  - `AfterUpdate` and `AfterAdd` give the whole cart after `updateCartQuantity` and `addToCart`.
  - `WellFormed` is the cart invariant: ids unique, quantity at least 1, subtotal = price × quantity.
- `cart_properties.dfy` (module `CartProperties`): what those operations promise, and that each keeps `WellFormed`.
- `totals.dfy` (module `Totals`): subtotal (the `reduce`), total and change, and how the bill moves when lines are added, changed or removed.
- `checkout.dfy` (module `Checkout`): the pay button's guard (empty cart, short payment) and the sale request it posts.
- `register.dfy` (module `Register`): class `PosScreen`.
  - Its fields are the page's state: search query, search results, cart, payment method, amount paid and discount.
  - It has one method per handler. Each method reassigns the fields that handler sets.
  - Each method's `ensures` ties the new state to the pure functions above.
  - `CounterScenario` walks through one sale: scan, raise quantity, a refused raise, exact payment, submit.

The two text inputs, amount paid and discount, are modelled as `Option<int>`.
`None` stands for an empty (or unparsable) field. The discount then counts as
0, as `parseFloat(discount) || 0` gives. The amount paid is then NaN: the
change is `None` and the guard `NaN < total` does not fire. So an empty amount
is sent, with `amount_paid` null (`Checkout.EmptyAmountIsSent`). The model
does not claim that the guard rejects it.

The server-side sale workflow is meant to refuse insufficient stock, a
discount above the subtotal and a short payment. The cart screen checks
less, and the model follows the screen's code:
- The first unit of a product is added without any stock check.
- A discount is never checked against the subtotal, so the total may be negative.
- A quantity change is checked against the stock of the current search hit. Only when there is no hit is it checked against the line's snapshot.
- Later units of a product are charged at the line's stored price, taken at the first add, even when the product's price has changed since.

## Model

| member | source | states |
|---|---|---|
| Cart.FindLine | resources/js/pages/pos/index.tsx:107 | the result is the first line holding the id, and is absent exactly when no line holds it |
| Cart.FindProduct | resources/js/pages/pos/index.tsx:138 | the result is the first search hit with the id, and is absent exactly when no hit has it |
| Cart.StockInEffect | resources/js/pages/pos/index.tsx:138 | the stock a quantity change is checked against; SearchHitIsStockInEffect states it is the clicked hit's stock |
| Cart.Requantify | resources/js/pages/pos/index.tsx:137-148 | the per-line step of the `map`; its three outcomes are stated by UpdateCases |
| Cart.SetQuantity | resources/js/pages/pos/index.tsx:136-150 | the `map` of updateCartQuantity; SetQuantityAt states it rewrites only the target line |
| Cart.AfterUpdate | resources/js/pages/pos/index.tsx:130-151 | the cart after updateCartQuantity; its behaviour is stated by UpdateCases, UpdateAbsentIsNoop and UpdateKeepsWellFormed |
| Cart.AfterAdd | resources/js/pages/pos/index.tsx:106-127 | the cart after addToCart; its behaviour is stated by AddNewProduct, AddAtStockIsNoop, AddIncrements and AddKeepsWellFormed |
| Cart.AfterRemove | resources/js/pages/pos/index.tsx:155 | the filtered cart holds exactly the lines of the old cart whose id differs, and is no longer |
| CartProperties.RemoveAbsentIsNoop | resources/js/pages/pos/index.tsx:154-156 | removing an id no line holds leaves the cart unchanged |
| CartProperties.RemoveIdempotent | resources/js/pages/pos/index.tsx:154-156 | removing the same id twice equals removing it once |
| CartProperties.RemoveDistributes | resources/js/pages/pos/index.tsx:155 | removal distributes over concatenation, so the kept lines stay in their relative order |
| CartProperties.RemoveDeletesLine | resources/js/pages/pos/index.tsx:154-156 | in a well-formed cart, removing the id of line k yields the cart without line k, in order |
| CartProperties.RemoveKeepsWellFormed | resources/js/pages/pos/index.tsx:154-156 | removal keeps ids unique, quantities at least 1 and subtotal = price × quantity |
| CartProperties.UpdateAbsentIsNoop | resources/js/pages/pos/index.tsx:130-151 | a quantity change for an id with no line leaves the cart unchanged |
| CartProperties.SetQuantityAt | resources/js/pages/pos/index.tsx:136-150 | in a well-formed cart, the mapped cart differs from the old one at most in the target line |
| CartProperties.UpdateCases | resources/js/pages/pos/index.tsx:130-151 | quantity ≤ 0 deletes the line; above the stock in effect keeps the cart; otherwise only that line gets the new quantity and subtotal price × quantity; order kept |
| CartProperties.UpdateKeepsWellFormed | resources/js/pages/pos/index.tsx:130-151 | a quantity change keeps the cart invariant |
| CartProperties.AddNewProduct | resources/js/pages/pos/index.tsx:115-121 | a product with no line is appended with quantity 1 and subtotal = its price, whatever its stock; earlier lines are unchanged |
| CartProperties.AddAtStockIsNoop | resources/js/pages/pos/index.tsx:107-113 | a product whose line is at or above its stock leaves the cart unchanged |
| CartProperties.AddBlockedAt | resources/js/pages/pos/index.tsx:107-113 | the add stops early exactly when the product's line is at or above the product's stock |
| CartProperties.SearchHitIsStockInEffect | resources/js/pages/pos/index.tsx:138 | when the clicked product is among search hits with unique ids, its stock is the one the quantity change checks |
| CartProperties.AddIncrements | resources/js/pages/pos/index.tsx:109-114 | clicking a search hit whose line is below stock is the quantity change to quantity + 1, and raises only that line, by one unit and by its stored price |
| CartProperties.AddKeepsWellFormed | resources/js/pages/pos/index.tsx:106-127 | adding keeps the cart invariant |
| Totals.Total | resources/js/pages/pos/index.tsx:167-168 | the total; TotalIsBilledLessDiscount states it is price × quantity summed over the lines, less the discount (0 when missing) |
| Totals.Change | resources/js/pages/pos/index.tsx:169 | the change; SubmissionRefusals states the guard refuses a non-empty cart exactly when it is negative, SentRequestMatchesCart that a sent request never has negative change |
| Totals.Subtotal | resources/js/pages/pos/index.tsx:166 | the `reduce` over line subtotals; SubtotalConcat and SubtotalIsBilled state what it sums |
| Totals.TotalIsBilledLessDiscount | resources/js/pages/pos/index.tsx:166-168 | in a well-formed cart the total equals the independent price × quantity sum less the discount, a missing discount counting as 0 |
| Totals.SubtotalConcat | resources/js/pages/pos/index.tsx:166 | the bill of two carts put together is the sum of their bills |
| Totals.SubtotalIsBilled | resources/js/pages/pos/index.tsx:166 | in a well-formed cart the summed subtotals equal the summed price × quantity |
| Totals.SubtotalReplace | resources/js/pages/pos/index.tsx:166 | replacing one line changes the bill by the difference of the two subtotals |
| Totals.SubtotalAfterRemove | resources/js/pages/pos/index.tsx:154-166 | removing a line takes exactly its subtotal off the bill |
| Totals.AddedPrice | resources/js/pages/pos/index.tsx:116-121 | the price one more unit costs; AddChargesOnePrice states the bill rises by it |
| Totals.AddChargesOnePrice | resources/js/pages/pos/index.tsx:106-147 | every click on a search hit that passes the stock check raises the bill by exactly one price: the clicked product's price for a new line, the line's stored price for an existing one |
| Checkout.Requests | resources/js/pages/pos/index.tsx:192-195 | the request's items; SentRequestMatchesCart states they follow the cart line for line |
| Checkout.Submission | resources/js/pages/pos/index.tsx:172-199 | the guard and the request; SubmissionRefusals and SentRequestMatchesCart state what it refuses and what it sends |
| Checkout.SentRequestMatchesCart | resources/js/pages/pos/index.tsx:172-199 | a sent request has one entry per line in cart order with distinct products and positive quantities, carries the payment fields unchanged, and a given amount covers the total |
| Checkout.SubmissionRefusals | resources/js/pages/pos/index.tsx:173-181 | the guard refuses an empty cart, and otherwise exactly an entered amount below the total |
| Checkout.EmptyAmountIsSent | resources/js/pages/pos/index.tsx:178 | an empty amount is not refused: the request goes out with amount paid null |
| Checkout.ExactAmountIsSent | resources/js/pages/pos/index.tsx:435 | paying the total exactly always passes the guard of a non-empty cart, with zero change |
| Register.IsBlank | resources/js/pages/pos/index.tsx:70 | whether a query is blank after trimming; ChangeSearch states a blank query clears the hits |
| Register.PosScreen.constructor | resources/js/pages/pos/index.tsx:50-56 | the screen starts with an empty search, an empty cart, cash, and empty payment fields |
| Register.PosScreen.ChangeSearch | resources/js/pages/pos/index.tsx:69-93 | the query is stored; the hits become the reply, or nothing for a blank query; the cart is untouched |
| Register.PosScreen.SubmitSearch | resources/js/pages/pos/index.tsx:96-103 | a single hit is added to the cart and the search is cleared; otherwise nothing changes |
| Register.PosScreen.AddToCart | resources/js/pages/pos/index.tsx:106-127 | the cart becomes the add's result; a blocked add keeps the search, any other clears it; payment fields untouched; invariant kept |
| Register.PosScreen.UpdateCartQuantity | resources/js/pages/pos/index.tsx:130-151 | the cart becomes the quantity change's result against the current search hits; nothing else changes; invariant kept |
| Register.PosScreen.RemoveFromCart | resources/js/pages/pos/index.tsx:154-156 | the cart becomes the filtered cart; nothing else changes |
| Register.PosScreen.ClearCart | resources/js/pages/pos/index.tsx:159-163 | cart, amount paid and discount are emptied; search and payment method untouched |
| Register.PosScreen.PayExact | resources/js/pages/pos/index.tsx:435 | the amount paid becomes the current total |
| Register.PosScreen.ProcessTransaction | resources/js/pages/pos/index.tsx:172-218 | the outcome is the guard's verdict or request; an accepted sale clears the cart and payment fields, anything else leaves them |

## Left out

- Network I/O. The search `fetch` is represented by the `found` parameter of `ChangeSearch`. The sale POST is represented by the `accepted` parameter of `ProcessTransaction`. A thrown error counts as not accepted.
- Asynchrony. Search replies arriving out of order, and the `isSearching` and `isProcessing` flags, are not modelled.
- UI effects are not modelled: alerts, input focus, `useEffect`, the receipt modal (`lastTransaction`, `showReceipt`), `window.print` and all rendering.
- The `disabled` state of buttons is not modelled. The handlers are modelled as callable in any state. The pay button's `disabled` condition is the same as the guard anyway.
- Register.IsBlank: treats only space, tab, newline and carriage return as blank. JavaScript's `trim` also strips other Unicode white space.
- Parsing of the text inputs (`parseFloat`, fractional or exponent forms) is not modelled. A field is either an integer or `None`.
- Totals.Subtotal: JavaScript numbers are floating point. The model uses exact integers, which agree while amounts stay below 2^53 Rupiah.
- The server-side sale workflow is not part of this model: stock decrement, persistence, and the discount and stock checks. Its controller is not among the files modelled.
- The dashboard, the welcome page, the select component and the routes are not modelled. They hold presentation, database aggregation and routing only.
