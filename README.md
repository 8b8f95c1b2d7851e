# Storefront cart store, modelled in Dafny

This project models the cart of a client-side storefront page (`main.js`).
The page keeps its cart in a module-level list, `itemsAdded`. Five handlers
change that list:

- add a product, refused when its title is already in the cart;
- remove by title;
- change a line's quantity, after the raw input is sanitised;
- place the order, refused on an empty cart and otherwise emptying it;
- clear the cart.

After each change the page recomputes the running total, which is the sum of
unit price times quantity over the lines. The checkout button also builds an
order summary that itemises each line's total and adds them up.

The model has two modules:

- `CartSpec` (`cart_spec.dfy`) holds the values and the specification
  functions. These are `LineItem`, the raw quantity input, outcomes and the
  order summary, together with lookup by title, removal by title, setting a
  quantity, the cart total and the summary total. It also holds the lemmas
  about them: uniqueness of titles is preserved, removal keeps order, the
  totals add up, and sanitisation is idempotent.
- `CartStore` (`cart_store.dfy`) holds the class `Cart`. Its field
  `items: seq<LineItem>` is the cart list, and its methods are the five
  handlers, the running total and the summary. `Valid()` is the invariant
  every mutating method keeps: at most one line per title, and every
  quantity at least 1. The module ends with `CartSession`, a client that
  walks through a session and checks the outcomes the contracts promise.

Prices are integer cents, so all totals are exact integer arithmetic. The
quantity is held in the line item and starts at 1, as in the markup that a
new cart line gets. A raw quantity input is either not a number or a
decimal `digits / 10^scale`. For example, `2.9` is `Decimal(29, 1)`.

Placing the order (`BuyOrder`, main.js:110-119) and building the order
summary (`Summary`, main.js:178-201) are two separate handlers of the
checkout button. The order-placing handler empties the cart without
producing a summary, and the two are modelled separately.

## Model

| member | source | states |
|---|---|---|
| `CartSpec.Sanitize` | main.js:101-105 | the result is at least 1; it is 1 when the input is not a number or is below 1; otherwise it is the floor of the input (q·10^scale ≤ digits < (q+1)·10^scale) |
| `CartSpec.SanitizeIdempotent` | main.js:102-105 | sanitising an already sanitised quantity returns it unchanged |
| `CartSpec.SanitizeKeepsWhole` | main.js:102-105 | any whole number of at least 1 passes through sanitisation untouched |
| `CartSpec.Find` | main.js:73 | the duplicate lookup finds nothing exactly when no line has the title; what it finds is a line of the cart with that title, and no earlier line has it |
| `CartSpec.RemoveTitle` | main.js:92-96 | the filter keeps exactly the lines whose title differs from the removed one, and the result is no longer than the cart |
| `CartSpec.RemoveConcat` | main.js:92-96 | filtering distributes over concatenation, so the kept lines stay in their original order |
| `CartSpec.RemoveAbsent` | main.js:92-96 | removing a title that is absent leaves the cart unchanged |
| `CartSpec.RemoveUniqueAt` | main.js:92-96 | in a cart with unique titles, removing line k's title yields exactly the cart without line k, with the other lines in order |
| `CartSpec.RemovePreservesUnique` | main.js:92-96 | removal keeps at most one line per title |
| `CartSpec.RemovePreservesQuantities` | main.js:92-96 | removal keeps every remaining quantity at least 1 |
| `CartSpec.RemoveThenAddSucceeds` | main.js:90-96 | after a title is removed, the duplicate check of a later add for that title finds nothing |
| `CartSpec.AppendNewPreservesWellFormed` | main.js:72-78 | appending a line with a new title and quantity 1 keeps titles unique and quantities positive |
| `CartSpec.SetQuantity` | main.js:101-105 | storing a quantity keeps length, titles and prices; lines with another title are unchanged, and a line with that title differs from before only in its quantity, which becomes q |
| `CartSpec.SetQuantityPreservesWellFormed` | main.js:101-105 | storing a sanitised quantity keeps the cart invariant |
| `CartSpec.SetQuantityUniqueAt` | main.js:101-105 | with unique titles, storing line k's quantity changes line k and no other line |
| `CartSpec.TotalConcat` | main.js:135-141 | the total of two carts laid end to end is the sum of their totals |
| `CartSpec.TotalAppend` | main.js:135-141 | appending a line adds its price × quantity to the total |
| `CartSpec.TotalNonNegative` | main.js:135-141 | with non-negative prices and positive quantities the total is never negative |
| `CartSpec.TotalAfterRemove` | main.js:92-96 | removing line k's title lowers the total by exactly line k's price × quantity |
| `CartSpec.TotalReplace` | main.js:139-140 | replacing one line changes the total by the difference of the two line totals |
| `CartSpec.TotalAfterSetQuantity` | main.js:139-140 | changing line k's quantity to q changes the total from price × old quantity to price × q for that line only |
| `CartSpec.SummaryTotalIsCartTotal` | main.js:186-198 | a summary that lists every cart line in order adds up to the cart total |
| `CartStore.Cart.constructor` | main.js:62 | the cart starts empty and valid |
| `CartStore.Cart.AddItem` | main.js:64-78 | a duplicate title is refused with `DuplicateItem` and the cart is unchanged; a new title is appended with quantity 1 after the existing lines; the invariant holds |
| `CartStore.Cart.RemoveItem` | main.js:90-96 | the cart becomes the filter of the old cart by title, the title is gone, an absent title changes nothing, and the invariant holds |
| `CartStore.Cart.ChangeQuantity` | main.js:101-105 | the stored and returned quantity is the sanitised input (at least 1); only lines with that title change |
| `CartStore.Cart.BuyOrder` | main.js:110-119 | an empty cart is refused with `EmptyCart` and stays empty; a non-empty cart is accepted and emptied |
| `CartStore.Cart.ClearCart` | main.js:124-128 | the cart is empty afterwards whatever it held, so clearing twice is the same as clearing once |
| `CartStore.Cart.UpdateTotal` | main.js:132-141 | the accumulated total equals the cart total; it is 0 for an empty cart and never negative with non-negative prices |
| `CartStore.Cart.Summary` | main.js:178-198 | an empty cart is refused with `EmptyCart`; otherwise there is one summary line per cart line, in order, with its own total, and the grand total equals both the sum of those line totals and the cart total |

## Left out

- Wiring of page events: opening and closing the cart, binding handlers again after every redraw, and showing and hiding product descriptions (main.js:1-59, 164-174, 217-247). These are browser plumbing.
- Reading titles, prices, image sources and quantities back out of the page (main.js:65-68, 137-139, 189-191). In the model the cart store is the only source of truth.
- The `alert` dialogs and the notification toast with its timer (main.js:74, 112, 117, 181, 200, 204-215). They are UI side effects; refusals are returned as `Err` values instead.
- Price parsing with `parseFloat` and `$` stripping, and rounding with `toFixed(2)` (main.js:138, 144, 190, 194, 198). The model uses integer cents.
- The text of the summary message (main.js:185, 194, 198). Only its lines and totals are modelled.
- The markup built by `CartBoxComponent` (main.js:149-161). Only its initial quantity of 1 is modelled, as the quantity of a new line.
- Which of the two checkout-button handlers runs first (main.js:53-54, 178). This depends on listener registration order in the browser. `BuyOrder` and `Summary` are modelled separately.
- Recomputing the total after every change (`update`, main.js:27-30). This is left to the caller, which calls `UpdateTotal` after a mutation.
- CartStore.Cart.ChangeQuantity: the page's handler acts on one quantity field and never writes to `itemsAdded`. The model stores the quantity in the line whose title matches, since titles are unique.
- CartSpec.Sanitize: floors the exact decimal, whereas the page first converts the raw text to the nearest double and then applies the `< 1` test and `Math.floor`. Inputs with more than about 15 significant digits can therefore floor differently: `2.9999999999999999` gives 3 in the page and 2 here, and `9007199254740993` is stored as 9007199254740992 in the page. An input of `Infinity`, which passes the page's check and stays infinite, is not modelled either.
- Promo codes and catalog loading. `main.js` has no code for either.
